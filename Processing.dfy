/**
 * The processing server of TP2/server_processing.py: the dispatcher that
 * fills the seven analysis slots, the thumbnail encoder, and the request
 * handler. The analyses themselves (screenshots, timings, thumbnails,
 * HTML analyses) are collaborators whose outcome is an input: a value, or
 * the message of the exception they raised.
 */
module Processing {
  import opened Wrappers
  import opened Json
  import Base64

  type byte = Base64.byte

  // ---------------------------------------------------------------- _encode_thumbnails

  /** The thumbnails that exist, in order. */
  function Present(thumbs: seq<Option<seq<byte>>>): (r: seq<seq<byte>>)
    ensures |r| <= |thumbs|
  {
    if thumbs == [] then []
    else
      var last := thumbs[|thumbs| - 1];
      Present(thumbs[..|thumbs| - 1]) + (if last.Some? then [last.value] else [])
  }

  /** What `_encode_thumbnails` returns: the base64 text of each thumbnail that exists, in order. */
  function EncodedThumbnails(thumbs: seq<Option<seq<byte>>>): (r: seq<string>)
    ensures |r| == |Present(thumbs)|
    ensures forall i | 0 <= i < |r| :: r[i] == Base64.Encode(Present(thumbs)[i])
  {
    if thumbs == [] then []
    else
      var last := thumbs[|thumbs| - 1];
      EncodedThumbnails(thumbs[..|thumbs| - 1]) + (if last.Some? then [Base64.Encode(last.value)] else [])
  }

  /** Dropping missing thumbnails distributes over concatenation: the rest keep their relative order. */
  lemma {:induction false} PresentAppend(a: seq<Option<seq<byte>>>, b: seq<Option<seq<byte>>>)
    ensures Present(a + b) == Present(a) + Present(b)
    decreases |b|
  {
    if b == [] {
      assert a + b == a;
    } else {
      var b' := b[..|b| - 1];
      assert (a + b)[..|a + b| - 1] == a + b';
      PresentAppend(a, b');
    }
  }

  /** Every thumbnail that exists is kept; only missing ones are dropped. */
  lemma {:induction false} PresentComplete(thumbs: seq<Option<seq<byte>>>)
    ensures (forall i | 0 <= i < |thumbs| :: thumbs[i].Some?) ==> |Present(thumbs)| == |thumbs|
    ensures (exists i | 0 <= i < |thumbs| :: thumbs[i].None?) ==> |Present(thumbs)| < |thumbs|
  {
    if thumbs != [] {
      var init := thumbs[..|thumbs| - 1];
      PresentComplete(init);
      assert forall i | 0 <= i < |init| :: init[i] == thumbs[i];
      if exists i | 0 <= i < |thumbs| :: thumbs[i].None? {
        var i :| 0 <= i < |thumbs| && thumbs[i].None?;
        if i < |init| {
          assert init[i].None?;
        }
      }
    }
  }

  /** The encoded thumbnails decode back to exactly the thumbnails that existed. */
  lemma ThumbnailsRoundTrip(thumbs: seq<Option<seq<byte>>>)
    ensures var r := EncodedThumbnails(thumbs);
      forall i | 0 <= i < |r| :: Base64.Decode(r[i]) == Some(Present(thumbs)[i])
  {
    var r := EncodedThumbnails(thumbs);
    forall i | 0 <= i < |r| ensures Base64.Decode(r[i]) == Some(Present(thumbs)[i]) {
      Base64.DecodeEncode(Present(thumbs)[i]);
    }
  }

  /** `_encode_thumbnails`. */
  method EncodeThumbnails(thumbs: seq<Option<seq<byte>>>) returns (encoded: seq<string>)
    ensures encoded == EncodedThumbnails(thumbs)
  {
    encoded := [];
    for i := 0 to |thumbs|
      invariant encoded == EncodedThumbnails(thumbs[..i])
    {
      assert thumbs[..i + 1][..i] == thumbs[..i];
      var encodedThumb := Base64.BytesToBase64(thumbs[i]);
      if encodedThumb.Some? {
        encoded := encoded + [encodedThumb.value];
      }
    }
    assert thumbs[..|thumbs|] == thumbs;
  }

  // ---------------------------------------------------------------- process_tasks

  /** The seven fixed keys of the `out` dictionary. */
  datatype Slot = Screenshot | Performance | Thumbnails | TechStack | Seo | StructuredData | Accessibility

  const AllSlots: set<Slot> := {Screenshot, Performance, Thumbnails, TechStack, Seo, StructuredData, Accessibility}

  /** The dictionary key, which is also the name of the slot's flag in `tasks`. */
  function Name(slot: Slot): string {
    match slot
    case Screenshot => "screenshot"
    case Performance => "performance"
    case Thumbnails => "thumbnails"
    case TechStack => "tech_stack"
    case Seo => "seo"
    case StructuredData => "structured_data"
    case Accessibility => "accessibility"
  }

  /** The slots that are only computed when the request carries HTML. */
  predicate NeedsHtml(slot: Slot) {
    slot in {TechStack, Seo, StructuredData, Accessibility}
  }

  /** The value a slot holds until its analysis succeeds. */
  function Default(slot: Slot): (v: Json)
    ensures slot in {Screenshot, Performance} <==> v == JNull
    ensures slot in {Thumbnails, TechStack, StructuredData} <==> v == JArr([])
    ensures slot in {Seo, Accessibility} <==> v == JObj(map[])
  {
    match slot
    case Screenshot => JNull
    case Performance => JNull
    case Thumbnails => JArr([])
    case TechStack => JArr([])
    case Seo => JObj(map[])
    case StructuredData => JArr([])
    case Accessibility => JObj(map[])
  }

  /** What each collaborator produced, or the message of the exception it raised. */
  datatype Collaborators = Collaborators(
    screenshot: Result<Option<seq<byte>>, string>,
    performance: Result<Json, string>,
    thumbnails: Result<seq<Option<seq<byte>>>, string>,
    techStack: Result<seq<string>, string>,
    seo: Result<Json, string>,
    structuredData: Result<Json, string>,
    accessibility: Result<Json, string>)

  function Strings(s: seq<string>): (r: Json)
    ensures r.JArr? && |r.items| == |s|
    ensures forall i | 0 <= i < |s| :: r.items[i] == JStr(s[i])
  {
    JArr(seq(|s|, i requires 0 <= i < |s| => JStr(s[i])))
  }

  /** `None` or a string, as JSON. */
  function OptionalText(t: Option<string>): (r: Json)
    ensures t.None? <==> r == JNull
    ensures t.Some? ==> r == JStr(t.value)
  {
    if t.None? then JNull else JStr(t.value)
  }

  /**
   * The JSON value a slot's collaborator yields when it succeeds, or its
   * failure. The screenshot and the thumbnails are stored as base64 text.
   */
  function Produced(slot: Slot, c: Collaborators): (r: Result<Json, string>)
    ensures slot == Thumbnails && r.Ok? ==> c.thumbnails.Ok? && r.value.JArr? && |r.value.items| <= |c.thumbnails.value|
    ensures slot == Screenshot && r.Ok? ==> c.screenshot.Ok? && (r.value == JNull <==> c.screenshot.value.None?)
  {
    match slot
    case Screenshot => (if c.screenshot.Ok? then Ok(OptionalText(Base64.BytesToBase64(c.screenshot.value))) else Err(c.screenshot.error))
    case Performance => c.performance
    case Thumbnails => (if c.thumbnails.Ok? then Ok(Strings(EncodedThumbnails(c.thumbnails.value))) else Err(c.thumbnails.error))
    case TechStack => (if c.techStack.Ok? then Ok(Strings(c.techStack.value)) else Err(c.techStack.error))
    case Seo => c.seo
    case StructuredData => c.structuredData
    case Accessibility => c.accessibility
  }

  /**
   * Whether `process_tasks` runs a slot's analysis: its flag is truthy, and
   * the thumbnails also need image URLs and the HTML analyses need HTML.
   */
  predicate Enabled(slot: Slot, tasks: map<string, Json>, imageUrls: Json, html: Json) {
    && Truthy(GetOr(tasks, Name(slot), JNull))
    && (slot == Thumbnails ==> Truthy(imageUrls))
    && (NeedsHtml(slot) ==> Truthy(html))
  }

  /** The final value of one slot. */
  function SlotValue(slot: Slot, tasks: map<string, Json>, imageUrls: Json, html: Json, c: Collaborators): Json {
    if Enabled(slot, tasks, imageUrls, html) && Produced(slot, c).Ok? then Produced(slot, c).value else Default(slot)
  }

  /**
   * The result of `process_tasks`: always the seven slots; each holds its
   * analysis when enabled and successful, its default otherwise.
   */
  function Filled(tasks: map<string, Json>, imageUrls: Json, html: Json, c: Collaborators): (out: map<Slot, Json>)
    ensures out.Keys == AllSlots
    ensures forall k | k in AllSlots && !Enabled(k, tasks, imageUrls, html) :: out[k] == Default(k)
    ensures forall k | k in AllSlots && Produced(k, c).Err? :: out[k] == Default(k)
    ensures forall k | k in AllSlots && Enabled(k, tasks, imageUrls, html) && Produced(k, c).Ok? :: out[k] == Produced(k, c).value
  {
    map k | k in AllSlots :: SlotValue(k, tasks, imageUrls, html, c)
  }

  /** A slot depends only on its own collaborator: changing the others leaves it as it was. */
  lemma SlotsIndependent(tasks: map<string, Json>, imageUrls: Json, html: Json, c: Collaborators, c': Collaborators, k: Slot)
    requires Produced(k, c) == Produced(k, c')
    ensures Filled(tasks, imageUrls, html, c)[k] == Filled(tasks, imageUrls, html, c')[k]
  {
  }

  /** A request that enables nothing gets exactly the defaults, whatever the collaborators do. */
  lemma NothingEnabled(imageUrls: Json, html: Json, c: Collaborators)
    ensures Filled(map[], imageUrls, html, c) == map k | k in AllSlots :: Default(k)
  {
  }

  /** The thumbnails need image URLs and the HTML analyses need HTML, whatever the flags say. */
  lemma MissingInputsKeepDefaults(tasks: map<string, Json>, imageUrls: Json, html: Json, c: Collaborators)
    ensures !Truthy(imageUrls) ==> Filled(tasks, imageUrls, html, c)[Thumbnails] == JArr([])
    ensures !Truthy(html) ==> forall k | k in AllSlots && NeedsHtml(k) :: Filled(tasks, imageUrls, html, c)[k] == Default(k)
  {
  }

  /** The slots in `done` hold their final values `final(k)`, the others their defaults. */
  ghost function Partial(done: set<Slot>, final: Slot -> Json): map<Slot, Json> {
    map k | k in AllSlots :: if k in done then final(k) else Default(k)
  }

  /** Storing a slot's final value finishes that slot. */
  lemma PartialStep(out: map<Slot, Json>, done: set<Slot>, s: Slot, final: Slot -> Json)
    requires out == Partial(done, final)
    ensures out[s := final(s)] == Partial(done + {s}, final)
  {
  }

  /** A slot whose final value is its default is finished without being stored. */
  lemma PartialSkip(out: map<Slot, Json>, done: set<Slot>, s: Slot, final: Slot -> Json)
    requires out == Partial(done, final) && final(s) == Default(s)
    ensures out == Partial(done + {s}, final)
  {
  }

  /** Before any slot is finished, the dictionary holds the defaults: the literal `process_tasks` starts from. */
  lemma PartialStart(final: Slot -> Json)
    ensures Partial({}, final) == map[
      Screenshot := JNull,
      Performance := JNull,
      Thumbnails := JArr([]),
      TechStack := JArr([]),
      Seo := JObj(map[]),
      StructuredData := JArr([]),
      Accessibility := JObj(map[])]
  {
  }

  /** Finishing the slots in the order `process_tasks` visits them finishes them all. */
  lemma VisitOrder()
    ensures {} + {Screenshot} + {Performance} + {Thumbnails} + {TechStack} + {Seo} + {StructuredData} + {Accessibility} == AllSlots
  {
  }

  /** Once every slot is finished with the value `process_tasks` gives it, the dictionary is the result. */
  lemma PartialComplete(done: set<Slot>, final: Slot -> Json, tasks: map<string, Json>, imageUrls: Json, html: Json, c: Collaborators)
    requires done == AllSlots
    requires forall k :: final(k) == SlotValue(k, tasks, imageUrls, html, c)
    ensures Partial(done, final) == Filled(tasks, imageUrls, html, c)
  {
  }

  /**
   * One `try`/`except` block of `process_tasks`: the slot's analysis, or the
   * slot's default when the analysis raises.
   */
  method RunAnalysis(slot: Slot, c: Collaborators) returns (v: Json)
    ensures Produced(slot, c).Ok? ==> v == Produced(slot, c).value
    ensures Produced(slot, c).Err? ==> v == Default(slot)
  {
    match slot {
      case Screenshot =>
        v := if c.screenshot.Ok? then OptionalText(Base64.BytesToBase64(c.screenshot.value)) else JNull;
      case Performance =>
        v := if c.performance.Ok? then c.performance.value else JNull;
      case Thumbnails =>
        if c.thumbnails.Ok? {
          var encoded := EncodeThumbnails(c.thumbnails.value);
          v := Strings(encoded);
        } else {
          v := JArr([]);
        }
      case TechStack =>
        v := if c.techStack.Ok? then Strings(c.techStack.value) else JArr([]);
      case Seo =>
        v := if c.seo.Ok? then c.seo.value else JObj(map[]);
      case StructuredData =>
        v := if c.structuredData.Ok? then c.structuredData.value else JArr([]);
      case Accessibility =>
        v := if c.accessibility.Ok? then c.accessibility.value else JObj(map[]);
    }
  }

  /**
   * One `if` block of `process_tasks`: when the slot is enabled, it is
   * overwritten with its analysis, or with its default when the analysis
   * raises; otherwise `out` is left as it is. `final` is the value each slot
   * ends with.
   */
  method FillSlot(out: map<Slot, Json>, slot: Slot, tasks: map<string, Json>, imageUrls: Json, html: Json,
                  c: Collaborators, ghost done: set<Slot>, ghost final: Slot -> Json)
    returns (out': map<Slot, Json>)
    requires out == Partial(done, final)
    requires forall k :: final(k) == SlotValue(k, tasks, imageUrls, html, c)
    ensures out' == Partial(done + {slot}, final)
  {
    if Enabled(slot, tasks, imageUrls, html) {
      var v := RunAnalysis(slot, c);
      PartialStep(out, done, slot, final);
      out' := out[slot := v];
    } else {
      PartialSkip(out, done, slot, final);
      out' := out;
    }
  }

  /**
   * `process_tasks`: start from the defaults and, slot by slot, overwrite
   * each enabled slot with its analysis, or with the default when the
   * analysis raises.
   */
  method ProcessTasks(tasks: map<string, Json>, imageUrls: Json, html: Json, c: Collaborators) returns (out: map<Slot, Json>)
    ensures out == Filled(tasks, imageUrls, html, c)
  {
    ghost var final := k => SlotValue(k, tasks, imageUrls, html, c);
    assert forall k :: final(k) == SlotValue(k, tasks, imageUrls, html, c);
    out := map[
      Screenshot := JNull,
      Performance := JNull,
      Thumbnails := JArr([]),
      TechStack := JArr([]),
      Seo := JObj(map[]),
      StructuredData := JArr([]),
      Accessibility := JObj(map[])];
    ghost var done: set<Slot> := {};
    PartialStart(final);
    out := FillSlot(out, Screenshot, tasks, imageUrls, html, c, done, final);
    done := done + {Screenshot};
    out := FillSlot(out, Performance, tasks, imageUrls, html, c, done, final);
    done := done + {Performance};
    out := FillSlot(out, Thumbnails, tasks, imageUrls, html, c, done, final);
    done := done + {Thumbnails};
    out := FillSlot(out, TechStack, tasks, imageUrls, html, c, done, final);
    done := done + {TechStack};
    out := FillSlot(out, Seo, tasks, imageUrls, html, c, done, final);
    done := done + {Seo};
    out := FillSlot(out, StructuredData, tasks, imageUrls, html, c, done, final);
    done := done + {StructuredData};
    out := FillSlot(out, Accessibility, tasks, imageUrls, html, c, done, final);
    done := done + {Accessibility};
    VisitOrder();
    PartialComplete(done, final, tasks, imageUrls, html, c);
  }

  /** The `out` dictionary as it is sent: the seven slots under their names. */
  function Record(out: map<Slot, Json>): (r: map<string, Json>)
    requires out.Keys == AllSlots
    ensures r.Keys == set k | k in AllSlots :: Name(k)
    ensures forall k | k in AllSlots :: r[Name(k)] == out[k]
  {
    map[
      "screenshot" := out[Screenshot],
      "performance" := out[Performance],
      "thumbnails" := out[Thumbnails],
      "tech_stack" := out[TechStack],
      "seo" := out[Seo],
      "structured_data" := out[StructuredData],
      "accessibility" := out[Accessibility]]
  }

  // ---------------------------------------------------------------- ProcessingTCPHandler.handle

  /** The reply to a request that was processed. */
  function SuccessReply(processingData: map<string, Json>): (r: Json)
    ensures r.JObj? && r.fields.Keys == {"status", "processing_data"}
    ensures r.fields["status"] == JStr("success") && r.fields["processing_data"] == JObj(processingData)
  {
    JObj(map["status" := JStr("success"), "processing_data" := JObj(processingData)])
  }

  /**
   * `ProcessingTCPHandler.handle` once the request has been read: `received`
   * is the decoded request or the message of the exception reading it raised;
   * `typeError(v)` is the message Python gives for calling `.get` on the
   * non-dictionary `v`. Returns the reply and whether a job was submitted to
   * the pool.
   */
  method HandleRequest(received: Result<Json, string>, c: Collaborators, typeError: Json -> string)
    returns (reply: Json, submitted: bool)
    ensures received.Err? ==> reply == ErrorBody(received.error) && !submitted
    ensures received.Ok? && !received.value.JObj? ==> reply == ErrorBody(typeError(received.value)) && !submitted
    ensures received.Ok? && received.value.JObj? && !Truthy(GetOr(received.value.fields, "url", JNull)) ==>
              reply == ErrorBody("missing url") && !submitted
    ensures submitted <==> received.Ok? && received.value.JObj? && Truthy(GetOr(received.value.fields, "url", JNull))
    ensures submitted ==>
              var p := received.value.fields;
              var tasks := GetOr(p, "tasks", JObj(map[]));
              && (tasks.JObj? ==> reply == SuccessReply(Record(Filled(tasks.fields, GetOr(p, "image_urls", JArr([])), GetOr(p, "html", JStr("")), c))))
              && (!tasks.JObj? ==> reply == ErrorBody(typeError(tasks)))
  {
    submitted := false;
    if received.Err? {
      return ErrorBody(received.error), false;
    }
    if !received.value.JObj? {
      return ErrorBody(typeError(received.value)), false;
    }
    var payload := received.value.fields;
    var url := GetOr(payload, "url", JNull);
    var tasks := GetOr(payload, "tasks", JObj(map[]));
    var imageUrls := GetOr(payload, "image_urls", JArr([]));
    var html := GetOr(payload, "html", JStr(""));
    if !Truthy(url) {
      return ErrorBody("missing url"), false;
    }
    submitted := true;
    if !tasks.JObj? {
      // `tasks.get` raises inside the worker; the handler reports the exception
      return ErrorBody(typeError(tasks)), true;
    }
    var result := ProcessTasks(tasks.fields, imageUrls, html, c);
    reply := SuccessReply(Record(result));
  }
}
