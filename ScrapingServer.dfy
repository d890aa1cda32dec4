/**
 * The request handling of TP2/server_scraping.py: URL extraction, the
 * `/scrape`, `/status` and `/result` handlers, the background scraping task
 * and its exchange with the processing server. Fetching, HTML parsing, URL
 * parsing, JSON decoding and the clock are inputs.
 */
module ScrapingServer {
  import opened Wrappers
  import opened Json
  import opened Tasks
  import opened Cache
  import opened RateLimit
  import Protocol

  /** What a handler answers: a JSON body with a status code, or aiohttp's own 500 after an uncaught exception. */
  datatype Response = JsonResponse(code: int, body: Json) | InternalError

  /** Largest reply length `call_processing_server_async` accepts. */
  const ReplyLimit: int := 100_000_000

  /** How many image URLs are forwarded to the processing server (`image_limit`). */
  const ImageLimit: nat := 3

  /**
   * An HTTP request as the handlers see it: the method, the query string,
   * and the JSON body (`None` when `request.json()` fails to parse it).
   */
  datatype Request = Request(verb: string, query: map<string, string>, body: Option<Json>)

  // ---------------------------------------------------------------- _extract_url

  /** The `url` the request carries before the truthiness test; `JNull` for a missing one. */
  function RawUrl(req: Request): Json
    requires req.verb == "GET" || req.body.Some?
  {
    if req.verb == "GET" then
      (if "url" in req.query then JStr(req.query["url"]) else JNull)
    else if req.body.value.JObj? then GetOr(req.body.value.fields, "url", JNull)
    else JNull
  }

  /**
   * `_extract_url`: the URL of a GET query or of a JSON object body; a body
   * that is not JSON gets 400 "Body inválido", a missing or falsy URL 400
   * "Missing url param".
   */
  function ExtractUrl(req: Request): (r: Result<Json, Response>)
    ensures req.verb != "GET" && req.body.None? ==> r == Err(JsonResponse(400, ErrorBody("Body inválido")))
    ensures r.Ok? ==> Truthy(r.value)
    ensures r.Ok? ==> (req.verb == "GET" && "url" in req.query && r.value == JStr(req.query["url"]))
                      || (req.verb != "GET" && req.body.Some? && req.body.value.JObj?
                          && "url" in req.body.value.fields && r.value == req.body.value.fields["url"])
    ensures r.Err? && (req.verb == "GET" || req.body.Some?) ==> r == Err(JsonResponse(400, ErrorBody("Missing url param")))
  {
    if req.verb != "GET" && req.body.None? then Err(JsonResponse(400, ErrorBody("Body inválido")))
    else
      var url := RawUrl(req);
      if !Truthy(url) then Err(JsonResponse(400, ErrorBody("Missing url param")))
      else Ok(url)
  }

  /** A GET request is accepted exactly when its query has a non-empty `url`. */
  lemma ExtractUrlGet(req: Request)
    requires req.verb == "GET"
    ensures ExtractUrl(req).Ok? <==> "url" in req.query && req.query["url"] != ""
    ensures ExtractUrl(req).Ok? ==> ExtractUrl(req).value == JStr(req.query["url"])
  {
  }

  /** A POST body that is a JSON array, or an object without `url`, is refused as missing the URL. */
  lemma ExtractUrlNoObject(req: Request)
    requires req.verb != "GET" && req.body.Some?
    requires !req.body.value.JObj? || "url" !in req.body.value.fields
    ensures ExtractUrl(req) == Err(JsonResponse(400, ErrorBody("Missing url param")))
  {
  }

  // ---------------------------------------------------------------- handle_status / handle_result

  /** The body both lookups answer for an unknown id. */
  const UnknownId: Response := JsonResponse(404, ErrorBody("task_id inexistente"))

  /** `handle_status`: 404 for an unknown id, otherwise the record's status payload. */
  function HandleStatus(record: Option<TaskRecord>, isoformat: Time -> string): (r: Response)
    ensures record.None? <==> r == UnknownId
    ensures record.Some? ==> r == JsonResponse(200, JObj(StatusPayload(record.value, isoformat)))
  {
    if record.None? then UnknownId else JsonResponse(200, JObj(StatusPayload(record.value, isoformat)))
  }

  /** A task whose result can be served: completed, with a non-empty result. */
  predicate Ready(r: TaskRecord) {
    r.status == Completed && r.result.Some? && r.result.value != map[]
  }

  /** `record.error or "Tarea fallida"`. */
  function FailureMessage(error: Option<string>): (m: string)
    ensures m != ""
    ensures ErrorSet(error) ==> m == error.value
  {
    if ErrorSet(error) then error.value else "Tarea fallida"
  }

  /**
   * `handle_result`: 404 for an unknown id; the stored result plus `task_id`
   * once the task is ready; 500 with the error for a failed task; 202
   * "pending" otherwise.
   */
  function HandleResult(record: Option<TaskRecord>, taskId: string): (r: Response)
    ensures r.JsonResponse?
    ensures r.code == 404 <==> record.None?
    ensures r.code == 200 <==> record.Some? && Ready(record.value)
    ensures r.code == 500 <==> record.Some? && !Ready(record.value) && record.value.status == Failed
    ensures r.code == 202 <==> record.Some? && !Ready(record.value) && record.value.status != Failed
    ensures r.code == 200 ==> r.body == JObj(record.value.result.value["task_id" := JStr(taskId)])
    ensures r.code == 500 ==> r.body == ErrorBody(FailureMessage(record.value.error))
  {
    if record.None? then UnknownId
    else if !Ready(record.value) then
      if record.value.status == Failed then JsonResponse(500, ErrorBody(FailureMessage(record.value.error)))
      else JsonResponse(202, JObj(map["status" := JStr("pending"), "message" := JStr("La tarea aún no finalizó")]))
    else JsonResponse(200, JObj(record.value.result.value["task_id" := JStr(taskId)]))
  }

  /** The served result keeps every field of the stored one except `task_id`, which names the task. */
  lemma ServedResultKeepsFields(record: TaskRecord, taskId: string)
    requires Ready(record)
    ensures var body := HandleResult(Some(record), taskId).body;
      && body.JObj?
      && body.fields.Keys == record.result.value.Keys + {"task_id"}
      && body.fields["task_id"] == JStr(taskId)
      && forall k | k in record.result.value && k != "task_id" :: body.fields[k] == record.result.value[k]
  {
  }

  /** Whatever failed a task, its result lookup answers 500 with a non-empty message. */
  lemma FailedTaskReports(tasks: map<string, TaskRecord>, id: string, error: Option<string>, now: Time)
    requires id in tasks
    ensures var r := HandleResult(Some(StatusSet(tasks, id, Failed, error, now)[id]), id);
      && r.code == 500 && r.body.JObj? && r.body.fields["error"] != JStr("")
  {
    var record := StatusSet(tasks, id, Failed, error, now)[id];
    assert record.status == Failed && !Ready(record);
  }

  // ---------------------------------------------------------------- process_scrape_task

  /** The reply the scraping server makes up when the processing server cannot be reached. */
  function FailureReply(message: string): (r: Payload)
    ensures r.Keys == {"status", "processing_data", "error"}
    ensures r["status"] == JStr("error") && r["processing_data"] == JObj(map[]) && r["error"] == JStr(message)
  {
    map["status" := JStr("error"), "processing_data" := JObj(map[]), "error" := JStr(message)]
  }

  /** `"success" if processing_response.get("status") == "success" else "partial"`. */
  function ResultStatus(reply: Payload): (s: string)
    ensures s == "success" || s == "partial"
    ensures s == "success" <==> "status" in reply && reply["status"] == JStr("success")
  {
    if "status" in reply && reply["status"] == JStr("success") then "success" else "partial"
  }

  /**
   * The result record of a finished scrape: the URL, the timestamp, the
   * scraping data, the processing data (empty when the reply has none), the
   * overall status, and the processing error when the reply carries one.
   */
  function AssembleResult(reply: Payload, url: string, timestamp: string, scrapingData: Json): (r: Payload)
    ensures r.Keys == {"url", "timestamp", "scraping_data", "processing_data", "status"}
                      + (if "error" in reply then {"processing_error"} else {})
    ensures r["url"] == JStr(url) && r["timestamp"] == JStr(timestamp) && r["scraping_data"] == scrapingData
    ensures r["processing_data"] == GetOr(reply, "processing_data", JObj(map[]))
    ensures r["status"] == JStr("success") <==> "status" in reply && reply["status"] == JStr("success")
    ensures r["status"] == JStr("success") || r["status"] == JStr("partial")
    ensures "processing_error" in r ==> r["processing_error"] == reply["error"]
  {
    var base := map[
      "url" := JStr(url),
      "timestamp" := JStr(timestamp),
      "scraping_data" := scrapingData,
      "processing_data" := GetOr(reply, "processing_data", JObj(map[])),
      "status" := JStr(ResultStatus(reply))];
    if "error" in reply then base["processing_error" := reply["error"]] else base
  }

  /** An unreachable processing server still yields a (partial) result, carrying the failure. */
  lemma UnreachableProcessingIsPartial(message: string, url: string, timestamp: string, scrapingData: Json)
    ensures var r := AssembleResult(FailureReply(message), url, timestamp, scrapingData);
      && r["status"] == JStr("partial")
      && r["processing_data"] == JObj(map[])
      && r["processing_error"] == JStr(message)
  {
  }

  /** The request the scraping server sends: every analysis switched on, at most `ImageLimit` images. */
  function ProcessingRequest(url: string, html: string, imageUrls: seq<string>, scrapingData: Json): (r: Payload)
    ensures r.Keys == {"url", "tasks", "image_urls", "html", "scraping_data"}
    ensures r["url"] == JStr(url) && r["html"] == JStr(html) && r["scraping_data"] == scrapingData
    ensures r["tasks"].JObj? && r["tasks"].fields.Keys == ProcessingTasks
    ensures forall t | t in r["tasks"].fields :: r["tasks"].fields[t] == JBool(true)
    ensures r["image_urls"].JArr? && |r["image_urls"].items| == if |imageUrls| < ImageLimit then |imageUrls| else ImageLimit
    ensures forall i | 0 <= i < |r["image_urls"].items| :: r["image_urls"].items[i] == JStr(imageUrls[i])
  {
    var tasks := map t | t in ProcessingTasks :: JBool(true);
    var kept := if |imageUrls| < ImageLimit then imageUrls else imageUrls[..ImageLimit];
    map[
      "url" := JStr(url),
      "tasks" := JObj(tasks),
      "image_urls" := JArr(seq(|kept|, i requires 0 <= i < |kept| => JStr(kept[i]))),
      "html" := JStr(html),
      "scraping_data" := scrapingData]
  }

  /** The seven analyses of the processing server. */
  const ProcessingTasks: set<string> :=
    {"screenshot", "performance", "thumbnails", "tech_stack", "seo", "structured_data", "accessibility"}

  /**
   * `call_processing_server_async` on an open connection: send the request
   * frame, then read one reply frame, refusing a declared length of 0 or
   * above `ReplyLimit` before reading its body.
   */
  method CallProcessingServer(sock: Protocol.Socket, request: seq<Protocol.byte>) returns (r: Result<seq<Protocol.byte>, Protocol.FrameError>)
    modifies sock
    ensures Protocol.Frame(request).Err? ==> r == Err(Protocol.HeaderOverflow) && sock.sent == old(sock.sent)
                                             && sock.incoming == old(sock.incoming)
    ensures Protocol.Frame(request).Ok? ==> sock.sent == old(sock.sent) + Protocol.Frame(request).value
    ensures Protocol.Frame(request).Ok? && Protocol.DecodeFrame(old(sock.incoming), ReplyLimit).Ok? ==>
              r == Ok(Protocol.DecodeFrame(old(sock.incoming), ReplyLimit).value.0)
    ensures Protocol.Frame(request).Ok? && Protocol.DecodeFrame(old(sock.incoming), ReplyLimit).Err? ==>
              r == Err(Protocol.DecodeFrame(old(sock.incoming), ReplyLimit).error)
  {
    var sent := Protocol.SendMessage(sock, request);
    if sent.Err? {
      return Err(sent.error);
    }
    r := Protocol.RecvMessage(sock, ReplyLimit);
  }

  /** Why fetching the page failed: `asyncio.TimeoutError` or any other exception (its message). */
  datatype FetchError = Timeout | Failure(message: string)

  /** The error a failed fetch leaves on the task. */
  function FetchErrorMessage(e: FetchError): (m: string)
    ensures e.Timeout? ==> m == "Timeout"
    ensures e.Failure? ==> m == e.message
  {
    match e
    case Timeout => "Timeout"
    case Failure(message) => message
  }

  /** What the scraper extracted from the fetched page. */
  datatype Scraped = Scraped(html: string, scrapingData: Json, imageUrls: seq<string>)

  /** Two status changes in a row leave the record as the last one alone would. */
  lemma StatusSetTwice(tasks: map<string, TaskRecord>, id: string, s1: string, e1: Option<string>, t1: Time,
                       s2: string, e2: Option<string>, t2: Time)
    requires id in tasks
    ensures StatusSet(StatusSet(tasks, id, s1, e1, t1), id, s2, e2, t2) == StatusSet(tasks, id, s2, e2, t2)
  {
    var a := StatusSet(StatusSet(tasks, id, s1, e1, t1), id, s2, e2, t2);
    var b := StatusSet(tasks, id, s2, e2, t2);
    assert a[id] == b[id];
  }

  /**
   * `process_scrape_task`: mark the task "scraping", fetch the page, mark it
   * "processing", ask the processing server, assemble the result, store it
   * as completed and cache it. A failed fetch marks the task "failed" with
   * the reason; an unreachable processing server still completes the task
   * with a partial result. An unknown task id changes nothing.
   */
  method ProcessScrapeTask(manager: TaskManager, cache: ResultCache, taskId: string, url: string,
                           fetched: Result<Scraped, FetchError>, reply: Result<Payload, string>,
                           timestamp: string, now: Time)
    modifies manager, cache
    ensures taskId !in old(manager.tasks) ==> manager.tasks == old(manager.tasks) && cache.entries == old(cache.entries)
    ensures taskId in old(manager.tasks) && fetched.Err? ==>
              && manager.tasks == StatusSet(old(manager.tasks), taskId, Failed, Some(FetchErrorMessage(fetched.error)), now)
              && cache.entries == old(cache.entries)
    ensures taskId in old(manager.tasks) && fetched.Ok? ==>
              var response := if reply.Ok? then reply.value else FailureReply(reply.error);
              var result := AssembleResult(response, url, timestamp, fetched.value.scrapingData);
              && manager.tasks == ResultSet(old(manager.tasks), taskId, result, Completed, now)
              && cache.entries == old(cache.entries)[url := Entry(now, result)]
  {
    var started := manager.SetStatus(taskId, "scraping", None, now);
    if started.Err? {
      return;
    }
    if fetched.Err? {
      var _ := manager.SetStatus(taskId, Failed, Some(FetchErrorMessage(fetched.error)), now);
      StatusSetTwice(old(manager.tasks), taskId, "scraping", None, now, Failed, Some(FetchErrorMessage(fetched.error)), now);
      return;
    }
    var _ := manager.SetStatus(taskId, "processing", None, now);
    var response := if reply.Ok? then reply.value else FailureReply(reply.error);
    var result := AssembleResult(response, url, timestamp, fetched.value.scrapingData);
    var _ := manager.SetResult(taskId, result, Completed, now);
    StatusSetTwice(old(manager.tasks), taskId, "scraping", None, now, "processing", None, now);
    ResultOverridesStatus(old(manager.tasks), taskId, "processing", None, now, result, Completed, now);
    cache.Set(url, result, now);
  }

  // ---------------------------------------------------------------- handle_scrape

  /**
   * The result `handle_scrape` answers from: what `cache.get(url)` returns,
   * when it is a non-empty (truthy) payload.
   */
  function CachedResult(entries: map<string, Entry>, url: string, now: Time, ttl: int): (r: Option<Payload>)
    ensures r.Some? <==> url in entries && !Expired(entries[url], now, ttl) && entries[url].data != map[]
    ensures r.Some? ==> r.value == entries[url].data
  {
    var found := Read(entries, url, now, ttl).data;
    if found.Some? && found.value != map[] then found else None
  }

  /** The tasks after the request registered `newId`, completed at once from `cached` when there is one. */
  function Registered(tasks: map<string, TaskRecord>, newId: string, url: string, now: Time, cached: Option<Payload>)
    : (r: map<string, TaskRecord>)
    ensures r.Keys == tasks.Keys + {newId}
    ensures forall k | k in tasks && k != newId :: r[k] == tasks[k]
    ensures r[newId].taskId == newId && r[newId].url == url && r[newId].createdAt == now && r[newId].error == None
    ensures cached.None? ==> r[newId] == NewRecord(newId, url, now)
    ensures cached.Some? ==> r[newId].status == Completed && r[newId].result == cached
  {
    var created := tasks[newId := NewRecord(newId, url, now)];
    if cached.Some? then ResultSet(created, newId, cached.value, Completed, now) else created
  }

  /** The answer once the task exists: 200 with `cached` for a cache hit, 202 with the pending status otherwise. */
  function ScheduledResponse(newId: string, cached: Option<Payload>): (r: Response)
    ensures r.JsonResponse? && (r.code == 200 <==> cached.Some?) && (r.code == 202 <==> cached.None?)
    ensures cached.Some? ==> r.body == JObj(map["task_id" := JStr(newId), "status" := JStr(Completed), "cached" := JBool(true)])
    ensures cached.None? ==> r.body == JObj(map["task_id" := JStr(newId), "status" := JStr(Pending)])
  {
    if cached.Some? then JsonResponse(200, JObj(map["task_id" := JStr(newId), "status" := JStr(Completed), "cached" := JBool(true)]))
    else JsonResponse(202, JObj(map["task_id" := JStr(newId), "status" := JStr(Pending)]))
  }

  /**
   * A result the background task cached is served by a later request for
   * the same URL within the time to live: 200, and the new task completed
   * with that very result.
   */
  lemma StoredResultServed(entries: map<string, Entry>, tasks: map<string, TaskRecord>, url: string, result: Payload,
                           stored: Time, now: Time, ttl: int, newId: string)
    requires result != map[] && now - stored <= ttl as real
    ensures var cached := CachedResult(entries[url := Entry(stored, result)], url, now, ttl);
      && ScheduledResponse(newId, cached).code == 200
      && Registered(tasks, newId, url, now, cached)[newId].result == Some(result)
      && Registered(tasks, newId, url, now, cached)[newId].status == Completed
  {
  }

  /** An empty cached result does not count as a hit: the request is scheduled. */
  lemma EmptyResultRescheduled(entries: map<string, Entry>, url: string, stored: Time, now: Time, ttl: int, newId: string)
    ensures CachedResult(entries[url := Entry(stored, map[])], url, now, ttl) == None
    ensures ScheduledResponse(newId, CachedResult(entries[url := Entry(stored, map[])], url, now, ttl)).code == 202
  {
  }

  /**
   * The part of `handle_scrape` after the rate limiter lets the request
   * through: register the task, then answer from the cache when it holds a
   * non-empty result for the URL, or schedule the scrape.
   */
  method Schedule(manager: TaskManager, cache: ResultCache, newId: string, url: string, now: Time)
    returns (resp: Response, scheduled: bool)
    modifies manager, cache
    ensures var cached := CachedResult(old(cache.entries), url, now, cache.ttl);
      && resp == ScheduledResponse(newId, cached)
      && scheduled == cached.None?
      && manager.tasks == Registered(old(manager.tasks), newId, url, now, cached)
      && cache.entries == Read(old(cache.entries), url, now, cache.ttl).entries
    ensures resp.JsonResponse? && resp.code in {200, 202}
    ensures scheduled <==> resp.code == 202
    ensures newId in manager.tasks
    ensures resp.body == JObj(map["task_id" := JStr(newId), "status" := JStr(manager.tasks[newId].status)]
                              + (if resp.code == 200 then map["cached" := JBool(true)] else map[]))
    ensures scheduled ==> manager.tasks == old(manager.tasks)[newId := NewRecord(newId, url, now)]
    ensures resp.code == 200 ==>
              && url in old(cache.entries)
              && manager.tasks[newId].status == Completed
              && manager.tasks[newId].result == Some(old(cache.entries)[url].data)
  {
    scheduled := false;
    var record := manager.CreateTask(newId, url, now);
    var cached := cache.Get(url, now);
    if cached.Some? && cached.value != map[] {
      var _ := manager.SetResult(newId, cached.value, Completed, now);
      resp := JsonResponse(200, JObj(map["task_id" := JStr(newId), "status" := JStr(Completed), "cached" := JBool(true)]));
      return;
    }
    scheduled := true;
    resp := JsonResponse(202, JObj(map["task_id" := JStr(newId), "status" := JStr(record.status)]));
  }

  /**
   * `handle_scrape`: validate the URL and its host, apply the per-domain rate
   * limit, create the task (`newId` is its fresh id), then either answer from
   * the cache (200, completed) or schedule the scrape (202, pending).
   * `hostname` is `urlparse(url).hostname`; `scheduled` says whether the
   * background scrape was started.
   */
  method HandleScrape(req: Request, hostname: string -> Option<string>, limiter: DomainRateLimiter,
                      manager: TaskManager, cache: ResultCache, newId: string, now: Time)
    returns (resp: Response, scheduled: bool)
    modifies limiter, manager, cache
    ensures ExtractUrl(req).Err? ==> resp == ExtractUrl(req).error && !scheduled
    ensures ExtractUrl(req).Ok? && !ExtractUrl(req).value.JStr? ==> resp == InternalError && !scheduled
    ensures ExtractUrl(req).Ok? && ExtractUrl(req).value.JStr? ==>
              var host := hostname(ExtractUrl(req).value.s);
              (host.None? || host.value == "") ==> resp == JsonResponse(400, ErrorBody("URL inválida")) && !scheduled
    ensures ExtractUrl(req).Ok? && ExtractUrl(req).value.JStr? ==>
              var url := ExtractUrl(req).value.s;
              var host := hostname(url);
              host.Some? && host.value != "" ==>
                var bucket := if host.value in old(limiter.calls) then old(limiter.calls)[host.value] else [];
                var admitted := limiter.max <= 0 || Admit(bucket, now, limiter.max).allowed;
                var cached := CachedResult(old(cache.entries), url, now, cache.ttl);
                && limiter.calls == (if limiter.max <= 0 then old(limiter.calls)
                                     else old(limiter.calls)[host.value := Admit(bucket, now, limiter.max).bucket])
                && (!admitted ==> resp == JsonResponse(429, ErrorBody("Rate limit excedido para el dominio")) && !scheduled
                                  && manager.tasks == old(manager.tasks) && cache.entries == old(cache.entries))
                && (admitted ==> && resp == ScheduledResponse(newId, cached)
                                 && scheduled == cached.None?
                                 && manager.tasks == Registered(old(manager.tasks), newId, url, now, cached)
                                 && cache.entries == Read(old(cache.entries), url, now, cache.ttl).entries)
    ensures ExtractUrl(req).Err? || resp.InternalError? || resp.code == 400 ==>
              manager.tasks == old(manager.tasks) && cache.entries == old(cache.entries) && limiter.calls == old(limiter.calls)
    ensures resp.JsonResponse? && resp.code == 429 ==>
              manager.tasks == old(manager.tasks) && cache.entries == old(cache.entries) && !scheduled
    ensures scheduled <==> resp.JsonResponse? && resp.code == 202
    ensures resp.JsonResponse? && resp.code in {200, 202} ==>
              && ExtractUrl(req).Ok? && ExtractUrl(req).value.JStr?
              && newId in manager.tasks
              && resp.body == JObj(map["task_id" := JStr(newId), "status" := JStr(manager.tasks[newId].status)]
                                   + (if resp.code == 200 then map["cached" := JBool(true)] else map[]))
    ensures scheduled ==> manager.tasks == old(manager.tasks)[newId := NewRecord(newId, ExtractUrl(req).value.s, now)]
    ensures resp.JsonResponse? && resp.code == 200 ==>
              var url := ExtractUrl(req).value.s;
              && url in old(cache.entries)
              && manager.tasks[newId].status == Completed
              && manager.tasks[newId].result == Some(old(cache.entries)[url].data)
  {
    scheduled := false;
    var extracted := ExtractUrl(req);
    if extracted.Err? {
      return extracted.error, false;
    }
    if !extracted.value.JStr? {
      // `urlparse` raises on a value that is not a string
      return InternalError, false;
    }
    var url := extracted.value.s;
    var domain := hostname(url);
    if domain.None? || domain.value == "" {
      return JsonResponse(400, ErrorBody("URL inválida")), false;
    }
    var allowed := limiter.Allow(domain.value, now);
    if !allowed {
      return JsonResponse(429, ErrorBody("Rate limit excedido para el dominio")), false;
    }
    resp, scheduled := Schedule(manager, cache, newId, url, now);
  }
}
