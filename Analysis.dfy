/**
 * The scoring and matching rules of TP2/processor/advanced.py, over features
 * already extracted from the page (lengths, counts, flags, attribute strings).
 */
module Analysis {
  import opened Wrappers
  import opened Text
  import opened Json

  // ---------------------------------------------------------------- technologies

  /** The marker table of `detect_technologies`, in the dict's order. */
  const Markers: seq<(string, seq<string>)> := [
    ("React", ["data-reactroot", "react"]),
    ("Angular", ["ng-app", "ng-controller", "angular"]),
    ("Vue", ["v-bind:", "vuejs", "vue.js", "vue"]),
    ("Svelte", ["svelte"]),
    ("jQuery", ["jquery"]),
    ("Bootstrap", ["bootstrap"]),
    ("TailwindCSS", ["tailwind"]),
    ("WordPress", ["wp-content", "wp-json"]),
    ("Drupal", ["drupal"]),
    ("Django", ["django"]),
    ("Laravel", ["laravel"]),
    ("Next.js", ["__next", "next/dist"]),
    ("Nuxt.js", ["nuxt"])
  ]

  /** `any(clue in haystack for clue in clues)`. */
  predicate AnyClue(clues: seq<string>, haystack: string) {
    exists c :: c in clues && ContainsFrom(haystack, c, 0)
  }

  /** The labels one of whose clues occurs in the haystack. */
  ghost function Detected(haystack: string): set<string> {
    set i | 0 <= i < |Markers| && AnyClue(Markers[i].1, haystack) :: Markers[i].0
  }

  /**
   * `detect_technologies`: collect the labels whose clues occur in the
   * (lower-cased) haystack, then `sorted` them.
   */
  method DetectTechnologies(haystack: string) returns (labels: seq<string>)
    ensures StrictlySorted(labels)
    ensures forall l :: l in labels <==> l in Detected(haystack)
  {
    var technologies := CollectTechnologies(haystack);
    labels := SortLabels(technologies);
  }

  /** The loop over the marker table: every technology with a clue in the page. */
  method CollectTechnologies(haystack: string) returns (technologies: set<string>)
    ensures technologies == Detected(haystack)
  {
    technologies := {};
    for i := 0 to |Markers|
      invariant technologies == set j | 0 <= j < i && AnyClue(Markers[j].1, haystack) :: Markers[j].0
    {
      if AnyClue(Markers[i].1, haystack) {
        technologies := technologies + {Markers[i].0};
      }
    }
  }

  /** `sorted(technologies)`: the labels in increasing order, each once. */
  method SortLabels(technologies: set<string>) returns (labels: seq<string>)
    ensures StrictlySorted(labels)
    ensures forall l :: l in labels <==> l in technologies
  {
    labels := [];
    var remaining := technologies;
    while remaining != {}
      invariant StrictlySorted(labels)
      invariant forall l :: l in labels ==> l !in remaining
      invariant forall l :: l in technologies <==> l in labels || l in remaining
      decreases |remaining|
    {
      var x :| x in remaining;
      labels := Insert(labels, x);
      assert forall l :: l in labels <==> l in multiset(labels);
      remaining := remaining - {x};
    }
  }


  /** "React" is reported exactly when the haystack contains "react" (its other clue contains it). */
  lemma ReactDetectedIff(haystack: string)
    ensures "React" in Detected(haystack) <==> Contains(haystack, "react")
  {
    var clues := Markers[0].1;
    if Contains(haystack, "react") {
      assert ContainsFrom(haystack, "react", 0);
      assert "React" in Detected(haystack) by { assert AnyClue(clues, haystack); }
    }
    if "React" in Detected(haystack) {
      var i :| 0 <= i < |Markers| && AnyClue(Markers[i].1, haystack) && Markers[i].0 == "React";
      assert i == 0;
      var c :| c in clues && ContainsFrom(haystack, c, 0);
      if c == "data-reactroot" {
        assert c[5..10] == "react";
        ContainsPart(haystack, c, 5, "react");
      }
    }
  }

  // ---------------------------------------------------------------- SEO

  /**
   * What `evaluate_seo` reads from the page and from `scraping_data`:
   * the scraped title and description (absent or `None` as `None`), the text
   * of the page's `<title>` (None when there is no such element), the number
   * of `<h1>` elements and whether a canonical link, a robots meta tag and an
   * `og:` property exist.
   */
  datatype SeoFeatures = SeoFeatures(
    scrapedTitle: Option<string>,
    pageTitle: Option<string>,
    description: Option<string>,
    h1Count: nat,
    hasCanonical: bool,
    hasRobots: bool,
    hasOpenGraph: bool)

  datatype SeoReport = SeoReport(
    titleLength: nat,
    metaDescriptionLength: nat,
    h1Count: nat,
    hasCanonical: bool,
    hasRobots: bool,
    hasOpenGraph: bool,
    score: int)

  /** `scraping_data.get("title") or (<title> text if present else "")`. */
  function ChosenTitle(f: SeoFeatures): string {
    if f.scrapedTitle.Some? && f.scrapedTitle.value != "" then f.scrapedTitle.value
    else f.pageTitle.GetOr("")
  }

  /** `meta_tags.get("description") or ""`. */
  function Description(f: SeoFeatures): string {
    f.description.GetOr("")
  }

  /** `w if holds else 0`. */
  function Points(holds: bool, w: nat): nat {
    if holds then w else 0
  }

  /**
   * The SEO score before the cap: 15 for a title, 20 for a title of 10 to 70
   * characters, 15 for a description, 15 for a description of 50 to 160
   * characters, 10 for exactly one `<h1>`, 10 for a canonical link, 5 for a
   * robots meta tag and 10 for an Open Graph property.
   */
  function SeoPoints(f: SeoFeatures): (r: nat)
    ensures r <= 100
  {
    var title, description := ChosenTitle(f), Description(f);
    Points(title != "", 15) + Points(10 <= |title| <= 70, 20)
    + Points(description != "", 15) + Points(50 <= |description| <= 160, 15)
    + Points(f.h1Count == 1, 10) + Points(f.hasCanonical, 10)
    + Points(f.hasRobots, 5) + Points(f.hasOpenGraph, 10)
  }

  /** The weights add up to exactly 100, so the `min(score, 100)` cap never changes the score. */
  lemma SeoPointsAtMost100(f: SeoFeatures)
    ensures SeoPoints(f) <= 100
    ensures SeoPoints(f) == 100 <==>
      && 10 <= |ChosenTitle(f)| <= 70 && 50 <= |Description(f)| <= 160
      && f.h1Count == 1 && f.hasCanonical && f.hasRobots && f.hasOpenGraph
  {
  }

  /** `evaluate_seo`: the report and the score accumulated criterion by criterion. */
  method EvaluateSeo(f: SeoFeatures) returns (report: SeoReport)
    ensures report.titleLength == |ChosenTitle(f)|
    ensures report.metaDescriptionLength == |Description(f)|
    ensures report.h1Count == f.h1Count
    ensures report.hasCanonical == f.hasCanonical && report.hasRobots == f.hasRobots
    ensures report.hasOpenGraph == f.hasOpenGraph
    ensures report.score == SeoPoints(f)
    ensures 0 <= report.score <= 100
  {
    var title := if f.scrapedTitle.Some? && f.scrapedTitle.value != "" then f.scrapedTitle.value
                 else if f.pageTitle.Some? then f.pageTitle.value else "";
    var description := if f.description.Some? then f.description.value else "";
    var score := 0;
    score := score + (if title != "" then 15 else 0);
    score := score + (if 10 <= |title| <= 70 then 20 else 0);
    score := score + (if description != "" then 15 else 0);
    score := score + (if 50 <= |description| <= 160 then 15 else 0);
    score := score + (if f.h1Count == 1 then 10 else 0);
    score := score + (if f.hasCanonical then 10 else 0);
    score := score + (if f.hasRobots then 5 else 0);
    score := score + (if f.hasOpenGraph then 10 else 0);
    SeoPointsAtMost100(f);
    report := SeoReport(|title|, |description|, f.h1Count, f.hasCanonical, f.hasRobots, f.hasOpenGraph,
                        if score < 100 then score else 100);
  }

  /** A single `<h1>` is worth exactly 10 points over any other count, all else equal. */
  lemma SingleH1Bonus(f: SeoFeatures, n: nat)
    requires n != 1
    ensures SeoPoints(f.(h1Count := 1)) == SeoPoints(f.(h1Count := n)) + 10
  {
  }

  /**
   * The page of `test_evaluate_seo_scores_basic_elements`, evaluated without
   * scraping data: a 21-character title, no description (it is read from the
   * scraping data only), one `<h1>`, a canonical link and an `og:` property.
   */
  lemma SeoTestPageScore()
    ensures SeoPoints(SeoFeatures(None, Some("Example title for SEO"), None, 1, true, false, true)) == 65
  {
  }

  // ---------------------------------------------------------------- structured data

  /** The objects among `items`, in order (a list's non-dict items are dropped). */
  function Dicts(items: seq<Json>): (r: seq<map<string, Json>>)
    ensures |r| <= |items|
    ensures forall f | f in r :: JObj(f) in items
    decreases |items|
  {
    if items == [] then []
    else
      var init := items[..|items| - 1];
      var last := items[|items| - 1];
      Dicts(init) + (if last.JObj? then [last.fields] else [])
  }

  /** Every object of the list is kept. */
  lemma {:induction false} DictsComplete(items: seq<Json>, f: map<string, Json>)
    requires JObj(f) in items
    ensures f in Dicts(items)
    decreases |items|
  {
    var init := items[..|items| - 1];
    if items[|items| - 1] != JObj(f) {
      var i :| 0 <= i < |items| && items[i] == JObj(f);
      assert init[i] == JObj(f);
      DictsComplete(init, f);
    }
  }

  /**
   * What one `application/ld+json` script contributes: the object itself, the
   * objects of a list, and nothing for other values; `None` stands for text
   * that `json.loads` rejects, which is skipped.
   */
  function ScriptData(parsed: Option<Json>): seq<map<string, Json>> {
    match parsed
    case Some(JArr(items)) => Dicts(items)
    case Some(JObj(fields)) => [fields]
    case _ => []
  }

  /** `extract_structured_data`, given the parse of each script's text in document order. */
  function ExtractStructuredData(scripts: seq<Option<Json>>): (r: seq<map<string, Json>>)
    ensures forall f | f in r :: exists i :: 0 <= i < |scripts| && f in ScriptData(scripts[i])
    decreases |scripts|
  {
    if scripts == [] then []
    else
      var init := scripts[..|scripts| - 1];
      var r := ExtractStructuredData(init) + ScriptData(scripts[|scripts| - 1]);
      assert forall f | f in ExtractStructuredData(init) :: exists i :: 0 <= i < |scripts| && f in ScriptData(scripts[i]) by {
        forall f | f in ExtractStructuredData(init) ensures exists i :: 0 <= i < |scripts| && f in ScriptData(scripts[i]) {
          var i :| 0 <= i < |init| && f in ScriptData(init[i]);
          assert init[i] == scripts[i];
        }
      }
      r
  }

  /** Nothing a script contributes is lost, whatever the other scripts hold. */
  lemma {:induction false} ExtractStructuredDataComplete(scripts: seq<Option<Json>>, i: nat, f: map<string, Json>)
    requires i < |scripts| && f in ScriptData(scripts[i])
    ensures f in ExtractStructuredData(scripts)
    decreases |scripts|
  {
    var init := scripts[..|scripts| - 1];
    if i < |scripts| - 1 {
      assert init[i] == scripts[i];
      ExtractStructuredDataComplete(init, i, f);
    }
  }

  /** An object of a list script is found. */
  lemma ListItemsFound(scripts: seq<Option<Json>>, i: nat, items: seq<Json>, f: map<string, Json>)
    requires i < |scripts| && scripts[i] == Some(JArr(items)) && JObj(f) in items
    ensures f in ExtractStructuredData(scripts)
  {
    DictsComplete(items, f);
    ExtractStructuredDataComplete(scripts, i, f);
  }

  // ---------------------------------------------------------------- accessibility

  /** An `<img>`: its `src` and `alt` attributes. */
  datatype Image = Image(src: Option<string>, alt: Option<string>)
  /** An `<a>`: its `href` and its stripped text. */
  datatype Link = Link(href: Option<string>, text: string)
  /** An element with a `style` attribute: its tag name and the lower-cased style. */
  datatype Styled = Styled(name: string, style: string)

  datatype Page = Page(images: seq<Image>, links: seq<Link>, buttonTexts: seq<string>, styled: seq<Styled>)

  datatype AccessibilityReport = AccessibilityReport(
    imagesMissingAlt: seq<Option<string>>,
    linksWithoutText: seq<Option<string>>,
    buttonsWithoutText: seq<nat>,
    contrastWarnings: seq<string>,
    score: int)

  /** `[img.get("src") for img in images if not (img.get("alt") or "").strip()]`. */
  function MissingAlt(images: seq<Image>): (r: seq<Option<string>>)
    ensures |r| <= |images|
    ensures r == [] <==> forall i :: 0 <= i < |images| ==> !Blank(images[i].alt.GetOr(""))
  {
    if images == [] then []
    else (if Blank(images[0].alt.GetOr("")) then [images[0].src] else []) + MissingAlt(images[1..])
  }

  /** `[link.get("href") for link in links if not link text]`. */
  function TextlessLinks(links: seq<Link>): (r: seq<Option<string>>)
    ensures |r| <= |links|
    ensures r == [] <==> forall i :: 0 <= i < |links| ==> !Blank(links[i].text)
  {
    if links == [] then []
    else (if Blank(links[0].text) then [links[0].href] else []) + TextlessLinks(links[1..])
  }

  /** The images of two runs are reported as each run's, in order. */
  lemma {:induction false} MissingAltAppend(a: seq<Image>, b: seq<Image>)
    ensures MissingAlt(a + b) == MissingAlt(a) + MissingAlt(b)
    decreases |a|
  {
    if a == [] {
      assert a + b == b;
    } else {
      assert (a + b)[0] == a[0] && (a + b)[1..] == a[1..] + b;
      MissingAltAppend(a[1..], b);
    }
  }

  /** One image is reported, by its `src`, exactly when its alt text is blank or missing. */
  lemma MissingAltSingle(img: Image)
    ensures MissingAlt([img]) == if Blank(img.alt.GetOr("")) then [img.src] else []
  {
    assert [img][1..] == [];
  }

  /** The links of two runs are reported as each run's, in order. */
  lemma {:induction false} TextlessLinksAppend(a: seq<Link>, b: seq<Link>)
    ensures TextlessLinks(a + b) == TextlessLinks(a) + TextlessLinks(b)
    decreases |a|
  {
    if a == [] {
      assert a + b == b;
    } else {
      assert (a + b)[0] == a[0] && (a + b)[1..] == a[1..] + b;
      TextlessLinksAppend(a[1..], b);
    }
  }

  /** One link is reported, by its `href`, exactly when its text is blank. */
  lemma TextlessLinksSingle(link: Link)
    ensures TextlessLinks([link]) == if Blank(link.text) then [link.href] else []
  {
    assert [link][1..] == [];
  }

  /** `[idx for idx, button in enumerate(buttons) if not text]`, indices counted from `offset`. */
  function TextlessButtons(texts: seq<string>, offset: nat): (r: seq<nat>)
    ensures forall k :: 0 <= k < |r| ==> offset <= r[k] < offset + |texts| && Blank(texts[r[k] - offset])
  {
    if texts == [] then []
    else (if Blank(texts[0]) then [offset] else []) + TextlessButtons(texts[1..], offset + 1)
  }

  /** Every button without text is listed. */
  lemma {:induction false} TextlessButtonsComplete(texts: seq<string>, offset: nat, i: nat)
    requires i < |texts| && Blank(texts[i])
    ensures offset + i in TextlessButtons(texts, offset)
    decreases i
  {
    var head: seq<nat> := if Blank(texts[0]) then [offset] else [];
    var rest := TextlessButtons(texts[1..], offset + 1);
    assert TextlessButtons(texts, offset) == head + rest;
    if i > 0 {
      assert texts[1..][i - 1] == texts[i];
      TextlessButtonsComplete(texts[1..], offset + 1, i - 1);
      assert offset + i in rest;
    }
  }

  /** The listed indices increase strictly. */
  lemma {:induction false} TextlessButtonsIncreasing(texts: seq<string>, offset: nat)
    ensures Increasing(TextlessButtons(texts, offset))
  {
    if texts != [] {
      var rest := TextlessButtons(texts[1..], offset + 1);
      TextlessButtonsIncreasing(texts[1..], offset + 1);
      if Blank(texts[0]) {
        assert TextlessButtons(texts, offset) == [offset] + rest;
        ConsIncreasing(offset, rest);
      } else {
        assert TextlessButtons(texts, offset) == [] + rest == rest;
      }
    }
  }

  /** Each index is smaller than every later one. */
  predicate Increasing(r: seq<nat>) {
    forall k, m | 0 <= k < m < |r| :: r[k] < r[m]
  }

  /** Prefixing an increasing sequence with a smaller index keeps it increasing. */
  lemma ConsIncreasing(x: nat, rest: seq<nat>)
    requires Increasing(rest) && forall j | 0 <= j < |rest| :: x < rest[j]
    ensures Increasing([x] + rest)
  {
    var r := [x] + rest;
    forall k, m | 0 <= k < m < |r| ensures r[k] < r[m] {
      assert r[m] == rest[m - 1];
      if k > 0 {
        assert r[k] == rest[k - 1];
      }
    }
  }


  /** `max(0, 100 - total_issues * 10)`. */
  function AccessibilityScore(totalIssues: nat): (r: int)
    ensures 0 <= r <= 100
    ensures totalIssues == 0 ==> r == 100
  {
    if 100 - totalIssues * 10 < 0 then 0 else 100 - totalIssues * 10
  }

  lemma AccessibilityScoreRange(totalIssues: nat)
    ensures 0 <= AccessibilityScore(totalIssues) <= 100
    ensures AccessibilityScore(totalIssues) == 0 <==> totalIssues >= 10
    ensures AccessibilityScore(totalIssues) == 100 <==> totalIssues == 0
  {
  }

  /** More issues never raise the score; below ten issues each one costs exactly ten points. */
  lemma AccessibilityScoreAntitone(m: nat, n: nat)
    requires m <= n
    ensures AccessibilityScore(n) <= AccessibilityScore(m)
    ensures n < 10 ==> AccessibilityScore(m) - AccessibilityScore(n) == 10 * (n - m)
  {
  }

  /** `analyze_accessibility`: the four issue lists and the score computed from their total length. */
  function AnalyzeAccessibility(page: Page): (r: AccessibilityReport)
    ensures r.score == AccessibilityScore(|r.imagesMissingAlt| + |r.linksWithoutText| + |r.buttonsWithoutText| + |r.contrastWarnings|)
    ensures 0 <= r.score <= 100
    ensures r.score == 100 <==> r.imagesMissingAlt == [] && r.linksWithoutText == [] && r.buttonsWithoutText == [] && r.contrastWarnings == []
    ensures r.imagesMissingAlt == MissingAlt(page.images) && r.linksWithoutText == TextlessLinks(page.links)
    ensures r.buttonsWithoutText == TextlessButtons(page.buttonTexts, 0)
    ensures r.contrastWarnings == ContrastWarnings(page.styled)
  {
    var images := MissingAlt(page.images);
    var links := TextlessLinks(page.links);
    var buttons := TextlessButtons(page.buttonTexts, 0);
    var contrast := ContrastWarnings(page.styled);
    var total := |images| + |links| + |buttons| + |contrast|;
    AccessibilityScoreRange(total);
    AccessibilityReport(images, links, buttons, contrast, AccessibilityScore(total))
  }

  // ---------------------------------------------------------------- contrast

  predicate IsLowerHex(c: char) {
    ('0' <= c <= '9') || ('a' <= c <= 'f')
  }

  /** The greedy `[0-9a-f]{0,max}` at index `i`. */
  function HexRun(s: string, i: nat, max: nat): (r: string)
    ensures |r| <= max
    decreases max
  {
    if max == 0 || i >= |s| || !IsLowerHex(s[i]) then ""
    else [s[i]] + HexRun(s, i + 1, max - 1)
  }

  /** What `HexRun` captures is the run of lowercase hex digits that starts at `i`. */
  lemma {:induction false} HexRunDigits(s: string, i: nat, max: nat)
    ensures var r := HexRun(s, i, max);
      && (|r| > 0 ==> i + |r| <= |s| && r == s[i..i + |r|])
      && forall c | c in r :: IsLowerHex(c)
    decreases max
  {
    if !(max == 0 || i >= |s| || !IsLowerHex(s[i])) {
      HexRunDigits(s, i + 1, max - 1);
      var tail := HexRun(s, i + 1, max - 1);
      assert [s[i]] + s[i + 1..i + 1 + |tail|] == s[i..i + 1 + |tail|];
    }
  }

  /** First index at or after `i` that is not whitespace (the greedy `\s*`). */
  function SkipSpaces(s: string, i: nat): (j: nat)
    ensures i <= j
    decreases |s| - i
  {
    if i < |s| && IsSpace(s[i]) then SkipSpaces(s, i + 1) else i
  }

  /** `\s*#([0-9a-f]{3,6})` matched at index `i`: the captured hex digits. */
  function HexValueAt(s: string, i: nat): (r: Option<string>)
    ensures r.Some? ==> 3 <= |r.value| <= 6
  {
    var j := SkipSpaces(s, i);
    if j < |s| && s[j] == '#' then
      var digits := HexRun(s, j + 1, 6);
      if |digits| >= 3 then Some(digits) else None
    else None
  }

  predicate StartsAt(s: string, i: nat, word: string) {
    i + |word| <= |s| && s[i..i + |word|] == word
  }

  /** `color:\s*#([0-9a-f]{3,6})` matched at index `i`. */
  function ColorAt(s: string, i: nat): Option<string> {
    if StartsAt(s, i, "color:") then HexValueAt(s, i + 6) else None
  }

  /** `background(-color)?:\s*#([0-9a-f]{3,6})` matched at index `i` (group 2). */
  function BackgroundAt(s: string, i: nat): Option<string> {
    if StartsAt(s, i, "background-color:") then HexValueAt(s, i + 17)
    else if StartsAt(s, i, "background:") then HexValueAt(s, i + 11)
    else None
  }

  /**
   * How `re.search` scans: the value matched at the leftmost position from
   * `from` at which the pattern matches, given what it matches at each position.
   */
  function Leftmost(matches: seq<Option<string>>, from: nat): (r: Option<string>)
    ensures r.Some? ==> exists i :: from <= i < |matches| && matches[i] == r
    ensures r.None? <==> forall i | from <= i < |matches| :: matches[i].None?
    decreases |matches| - from
  {
    if from >= |matches| then None
    else if matches[from].Some? then matches[from]
    else Leftmost(matches, from + 1)
  }

  /** The match at the first matching position is the one found. */
  lemma {:induction false} LeftmostFirst(matches: seq<Option<string>>, from: nat, k: nat)
    requires from <= k < |matches| && matches[k].Some?
    requires forall i | from <= i < k :: matches[i].None?
    ensures Leftmost(matches, from) == matches[k]
    decreases k - from
  {
    if from < k {
      LeftmostFirst(matches, from + 1, k);
    }
  }

  /** What `color:\s*#([0-9a-f]{3,6})` captures at each position of the style, end included. */
  function ColorMatches(s: string): (m: seq<Option<string>>)
    ensures |m| == |s| + 1 && forall i | 0 <= i <= |s| :: m[i] == ColorAt(s, i)
  {
    seq(|s| + 1, i requires 0 <= i <= |s| => ColorAt(s, i))
  }

  /** What the background pattern captures at each position. */
  function BackgroundMatches(s: string): (m: seq<Option<string>>)
    ensures |m| == |s| + 1 && forall i | 0 <= i <= |s| :: m[i] == BackgroundAt(s, i)
  {
    seq(|s| + 1, i requires 0 <= i <= |s| => BackgroundAt(s, i))
  }

  /**
   * `re.search(r"color:\s*#([0-9a-f]{3,6})", style)` as written: the leftmost
   * match from index `from`, which may lie inside `background-color:`.
   */
  function SearchColorAsWritten(s: string, from: nat): Option<string> {
    Leftmost(ColorMatches(s), from)
  }

  /** `re.search(r"background(-color)?:\s*#([0-9a-f]{3,6})", style)`: the leftmost match from `from`. */
  function SearchBackground(s: string, from: nat): Option<string> {
    Leftmost(BackgroundMatches(s), from)
  }

  /** Index `i` begins a declaration: start of the style, or after `;` or whitespace. */
  predicate DeclarationStart(s: string, i: nat) {
    i == 0 || (i <= |s| && (s[i - 1] == ';' || IsSpace(s[i - 1])))
  }

  /** What the colour pattern captures at each position where a declaration starts; nothing elsewhere. */
  function DeclaredColorMatches(s: string): (m: seq<Option<string>>)
    ensures |m| == |s| + 1
    ensures forall i | 0 <= i <= |s| :: m[i] == if DeclarationStart(s, i) then ColorAt(s, i) else None
  {
    seq(|s| + 1, i requires 0 <= i <= |s| => if DeclarationStart(s, i) then ColorAt(s, i) else None)
  }

  /** The leftmost `color:` declaration from `from`; a `color:` inside another property name is skipped. */
  function SearchColor(s: string, from: nat): Option<string> {
    Leftmost(DeclaredColorMatches(s), from)
  }

  /** A foreground colour found is the one of a `color:` declaration. */
  lemma SearchColorDeclared(s: string, from: nat)
    ensures SearchColor(s, from).Some? ==>
              exists i :: from <= i <= |s| && DeclarationStart(s, i) && ColorAt(s, i) == SearchColor(s, from)
  {
    var m := DeclaredColorMatches(s);
    if SearchColor(s, from).Some? {
      var i :| from <= i < |m| && m[i] == SearchColor(s, from);
      assert DeclarationStart(s, i) && ColorAt(s, i) == SearchColor(s, from);
    }
  }

  /** Whenever no `color:` declaration matches, no foreground colour is found. */
  lemma NoDeclarationNoForeground(s: string, from: nat)
    requires forall i :: from <= i <= |s| && DeclarationStart(s, i) ==> ColorAt(s, i).None?
    ensures SearchColor(s, from) == None
  {
    var m := DeclaredColorMatches(s);
    assert forall i | from <= i < |m| :: m[i].None?;
  }

  /** The intended rule: the foreground read from a `color:` declaration equals the background. */
  predicate ContrastIssue(style: string) {
    var fg, bg := SearchColor(style, 0), SearchBackground(style, 0);
    fg.Some? && bg.Some? && fg.value == bg.value
  }

  /**
   * The rule of `_detect_basic_contrast_issues`: both searches found a colour
   * and the two are equal, with the foreground search as written.
   */
  predicate ContrastIssueAsWritten(style: string) {
    var fg, bg := SearchColorAsWritten(style, 0), SearchBackground(style, 0);
    fg.Some? && bg.Some? && fg.value == bg.value
  }

  function WarningFor(e: Styled): string {
    "Posible poco contraste en elemento: " + e.name
  }

  /** The warning one element contributes: one naming its tag when flagged, none otherwise. */
  function WarningsOf(e: Styled): (r: seq<string>)
    ensures |r| <= 1
  {
    if ContrastIssueAsWritten(e.style) then [WarningFor(e)] else []
  }

  /** The same with the intended rule. */
  function IntendedWarningsOf(e: Styled): (r: seq<string>)
    ensures |r| <= 1
  {
    if ContrastIssue(e.style) then [WarningFor(e)] else []
  }

  /** The outputs of `f` on each element of `xs`, concatenated in order. */
  function FlatMap<T>(xs: seq<T>, f: T -> seq<string>): seq<string>
    decreases |xs|
  {
    if xs == [] then [] else FlatMap(xs[..|xs| - 1], f) + f(xs[|xs| - 1])
  }

  lemma {:induction false} FlatMapAppend<T>(xs: seq<T>, ys: seq<T>, f: T -> seq<string>)
    ensures FlatMap(xs + ys, f) == FlatMap(xs, f) + FlatMap(ys, f)
    decreases |ys|
  {
    if ys == [] {
      assert xs + ys == xs;
    } else {
      var n := |ys| - 1;
      FlatMapAppend(xs, ys[..n], f);
      assert (xs + ys)[..|xs + ys| - 1] == xs + ys[..n];
      assert (xs + ys)[|xs + ys| - 1] == ys[n];
    }
  }

  /** The warnings `_detect_basic_contrast_issues` emits, in element order. */
  function ContrastWarnings(elements: seq<Styled>): seq<string> {
    FlatMap(elements, WarningsOf)
  }

  /** The warnings of two runs of elements are those of each run, in order. */
  lemma ContrastWarningsAppend(a: seq<Styled>, b: seq<Styled>)
    ensures ContrastWarnings(a + b) == ContrastWarnings(a) + ContrastWarnings(b)
  {
    FlatMapAppend(a, b, WarningsOf);
  }

  /** A single element yields one warning naming its tag when flagged, and none otherwise. */
  lemma ContrastWarningsSingle(e: Styled)
    ensures ContrastWarnings([e]) == if ContrastIssueAsWritten(e.style) then [WarningFor(e)] else []
  {
    assert [e][..0] == [];
    assert FlatMap([e], WarningsOf) == FlatMap([], WarningsOf) + WarningsOf(e);
  }

  /** The warnings the intended rule would emit, in element order. */
  function ContrastWarningsIntended(elements: seq<Styled>): seq<string> {
    FlatMap(elements, IntendedWarningsOf)
  }

  lemma ContrastWarningsIntendedAppend(a: seq<Styled>, b: seq<Styled>)
    ensures ContrastWarningsIntended(a + b) == ContrastWarningsIntended(a) + ContrastWarningsIntended(b)
  {
    FlatMapAppend(a, b, IntendedWarningsOf);
  }

  lemma ContrastWarningsIntendedSingle(e: Styled)
    ensures ContrastWarningsIntended([e]) == if ContrastIssue(e.style) then [WarningFor(e)] else []
  {
    assert [e][..0] == [];
    assert FlatMap([e], IntendedWarningsOf) == FlatMap([], IntendedWarningsOf) + IntendedWarningsOf(e);
  }

  /** `_detect_basic_contrast_issues`: one pass over the styled elements. */
  method DetectContrastIssues(elements: seq<Styled>) returns (warnings: seq<string>)
    ensures warnings == ContrastWarnings(elements)
  {
    warnings := [];
    for i := 0 to |elements|
      invariant warnings == ContrastWarnings(elements[..i])
    {
      assert elements[..i + 1][..i] == elements[..i];
      assert ContrastWarnings(elements[..i + 1]) == ContrastWarnings(elements[..i]) + WarningsOf(elements[i]);
      if ContrastIssueAsWritten(elements[i].style) {
        warnings := warnings + [WarningFor(elements[i])];
      }
    }
    assert elements[..|elements|] == elements;
  }

  lemma StartsAtFirst(s: string, i: nat, word: string)
    requires StartsAt(s, i, word) && |word| > 0
    ensures i < |s| && s[i] == word[0]
  {
    assert s[i..i + |word|][0] == s[i];
  }

  /** The search returns the first index from `from` at which the pattern matches. */
  lemma SearchBackgroundFirst(s: string, from: nat, k: nat)
    requires from <= k <= |s| && BackgroundAt(s, k).Some?
    requires forall i :: from <= i < k ==> BackgroundAt(s, i).None?
    ensures SearchBackground(s, from) == BackgroundAt(s, k)
  {
    LeftmostFirst(BackgroundMatches(s), from, k);
  }

  lemma SearchColorAsWrittenFirst(s: string, from: nat, k: nat)
    requires from <= k <= |s| && ColorAt(s, k).Some?
    requires forall i :: from <= i < k ==> ColorAt(s, i).None?
    ensures SearchColorAsWritten(s, from) == ColorAt(s, k)
  {
    LeftmostFirst(ColorMatches(s), from, k);
  }

  lemma SearchColorFirst(s: string, from: nat, k: nat)
    requires from <= k <= |s| && DeclarationStart(s, k) && ColorAt(s, k).Some?
    requires forall i :: from <= i < k && DeclarationStart(s, i) ==> ColorAt(s, i).None?
    ensures SearchColor(s, from) == ColorAt(s, k)
  {
    LeftmostFirst(DeclaredColorMatches(s), from, k);
  }


  /** A mismatch at any position of `word` rules out a match there. */
  lemma NotStartsAt(s: string, i: nat, word: string, k: nat)
    requires k < |word| && (i + k >= |s| || s[i + k] != word[k])
    ensures !StartsAt(s, i, word)
  {
    if i + |word| <= |s| {
      assert s[i..i + |word|][k] == s[i + k];
    }
  }

  /** `#` and three copies of a lowercase hex digit, followed by `;` or the end: those three digits are captured. */
  lemma HexShort(s: string, i: nat, d: char)
    requires IsLowerHex(d)
    requires i + 4 <= |s| && s[i..i + 4] == ['#', d, d, d]
    requires i + 4 == |s| || s[i + 4] == ';'
    ensures HexValueAt(s, i) == Some([d, d, d])
  {
    assert s[i..i + 4][0] == s[i] && s[i..i + 4][1] == s[i + 1];
    assert s[i..i + 4][2] == s[i + 2] && s[i..i + 4][3] == s[i + 3];
    assert s[i] == '#' && !IsSpace(s[i]);
    assert SkipSpaces(s, i) == i;
    assert HexRun(s, i + 4, 3) == "";
    assert HexRun(s, i + 3, 4) == [d];
    assert HexRun(s, i + 2, 5) == [d, d];
    assert HexRun(s, i + 1, 6) == [d, d, d];
  }

  lemma StyleTestParts(s: string)
    requires s == "color:#fff;background-color:#fff"
    ensures s == "color:" + "#fff" + ";" + "background-color:" + "#fff"
  {
    var t := "color:#fff;background-color:#fff";
    assert t == "color:" + "#fff" + ";" + "background-color:" + "#fff";
  }

  /** No `b` occurs before the background declaration. */
  lemma StyleTestNoB(s: string)
    requires s == "color:#fff;background-color:#fff"
    ensures forall i | 0 <= i < 11 :: s[i] != 'b'
  {
    forall i | 0 <= i < 11 ensures s[i] != 'b' {
      assert i == 0 || i == 1 || i == 2 || i == 3 || i == 4 || i == 5 || i == 6 || i == 7 || i == 8 || i == 9 || i == 10;
    }
  }

  lemma StyleTestBackground(s: string)
    requires s == "color:#fff;background-color:#fff"
    ensures SearchBackground(s, 0) == Some("fff")
  {
    StyleTestParts(s);
    assert s[11..28] == "background-color:" && s[28..32] == "#fff";
    HexShort(s, 28, 'f');
    assert BackgroundAt(s, 11) == Some("fff");
    StyleTestNoB(s);
    forall i | 0 <= i < 11 ensures BackgroundAt(s, i).None? {
      NotStartsAt(s, i, "background-color:", 0);
      NotStartsAt(s, i, "background:", 0);
    }
    SearchBackgroundFirst(s, 0, 11);
  }

  /** The style of `test_analyze_accessibility_detects_missing_alt` is flagged, by either search. */
  lemma ContrastTestStyle(s: string)
    requires s == "color:#fff;background-color:#fff"
    ensures SearchColor(s, 0) == SearchColorAsWritten(s, 0) == Some("fff")
    ensures SearchBackground(s, 0) == Some("fff")
    ensures ContrastIssue(s) && ContrastIssueAsWritten(s)
  {
    StyleTestParts(s);
    assert s[0..6] == "color:" && s[6..10] == "#fff";
    HexShort(s, 6, 'f');
    assert DeclarationStart(s, 0) && ColorAt(s, 0) == Some("fff");
    SearchColorFirst(s, 0, 0);
    SearchColorAsWrittenFirst(s, 0, 0);
    StyleTestBackground(s);
  }

  lemma StyleBlackOnWhiteParts(s: string)
    requires s == "background-color:#000;color:#fff"
    ensures s == "background-" + "color:" + "#000" + ";" + "color:" + "#fff"
  {
    var t := "background-color:#000;color:#fff";
    assert t == "background-" + "color:" + "#000" + ";" + "color:" + "#fff";
  }

  /** `color:` cannot start before index 11: no `c` there is followed by `o`. */
  lemma BlackOnWhiteNoEarlyColor(s: string)
    requires s == "background-color:#000;color:#fff"
    ensures forall i | 0 <= i < 11 :: s[i] != 'c' || s[i + 1] != 'o'
  {
    forall i | 0 <= i < 11 ensures s[i] != 'c' || s[i + 1] != 'o' {
      assert i == 0 || i == 1 || i == 2 || i == 3 || i == 4 || i == 5 || i == 6 || i == 7 || i == 8 || i == 9 || i == 10;
    }
  }

  /**
   * As written, the foreground pattern also matches inside `background-color:`:
   * a style declaring a black background before a white foreground is
   * reported as having equal colours.
   */
  lemma ForegroundMatchedInsideBackground(s: string)
    requires s == "background-color:#000;color:#fff"
    ensures SearchColorAsWritten(s, 0) == Some("000")
    ensures SearchBackground(s, 0) == Some("000")
    ensures ContrastIssueAsWritten(s)
  {
    StyleBlackOnWhiteParts(s);
    assert s[0..17] == "background-color:" && s[11..17] == "color:" && s[17..21] == "#000";
    HexShort(s, 17, '0');
    BlackOnWhiteNoEarlyColor(s);
    forall i | 0 <= i < 11 ensures ColorAt(s, i).None? {
      NotStartsAt(s, i, "color:", if s[i] != 'c' then 0 else 1);
    }
    SearchColorAsWrittenFirst(s, 0, 11);
    SearchBackgroundFirst(s, 0, 0);
  }

  /** Before the `color:` declaration only the style's start begins a declaration. */
  lemma BlackOnWhiteOneDeclarationBefore(s: string)
    requires s == "background-color:#000;color:#fff"
    ensures forall i | 0 < i < 22 :: !DeclarationStart(s, i)
  {
    forall k | 0 <= k <= 20 ensures s[k] != ';' && !IsSpace(s[k]) {
      assert k == 0 || k == 1 || k == 2 || k == 3 || k == 4 || k == 5 || k == 6 || k == 7 || k == 8 || k == 9 || k == 10
        || k == 11 || k == 12 || k == 13 || k == 14 || k == 15 || k == 16 || k == 17 || k == 18 || k == 19 || k == 20;
    }
  }

  /** With the foreground read from the `color:` declaration, the same style is not flagged. */
  lemma ForegroundFromDeclaration(s: string)
    requires s == "background-color:#000;color:#fff"
    ensures SearchColor(s, 0) == Some("fff")
    ensures !ContrastIssue(s)
  {
    StyleBlackOnWhiteParts(s);
    assert s[22..28] == "color:" && s[28..32] == "#fff";
    HexShort(s, 28, 'f');
    assert DeclarationStart(s, 22);
    BlackOnWhiteOneDeclarationBefore(s);
    NotStartsAt(s, 0, "color:", 0);
    assert forall i :: 0 <= i < 22 && DeclarationStart(s, i) ==> ColorAt(s, i).None?;
    SearchColorFirst(s, 0, 22);
    ForegroundMatchedInsideBackground(s);
  }

  /** `s` ends with `t`, which starts at index `o`. */
  predicate Behind(s: string, o: nat, t: string) {
    o <= |s| && s[o..] == t
  }

  lemma BehindAt(s: string, o: nat, t: string, k: nat)
    requires Behind(s, o, t) && k < |t|
    ensures o + k < |s| && s[o + k] == t[k]
  {
    assert s[o..][k] == t[k];
  }

  /** Matching `\s*` in the tail of a style is matching it in the tail alone, shifted. */
  lemma {:induction false} SkipSpacesShift(s: string, o: nat, t: string, i: nat)
    requires Behind(s, o, t)
    ensures SkipSpaces(s, o + i) == o + SkipSpaces(t, i)
    decreases |t| - i
  {
    if i < |t| {
      BehindAt(s, o, t, i);
      if IsSpace(t[i]) {
        SkipSpacesShift(s, o, t, i + 1);
      }
    }
  }

  lemma {:induction false} HexRunShift(s: string, o: nat, t: string, i: nat, max: nat)
    requires Behind(s, o, t)
    ensures HexRun(s, o + i, max) == HexRun(t, i, max)
    decreases max
  {
    if max > 0 && i < |t| {
      BehindAt(s, o, t, i);
      HexRunShift(s, o, t, i + 1, max - 1);
    }
  }

  /** `HexValueAt` in terms of where the spaces end and the digits that follow. */
  lemma HexValueAtIs(s: string, i: nat, j: nat, d: string)
    requires j == SkipSpaces(s, i) && d == HexRun(s, j + 1, 6)
    ensures HexValueAt(s, i) == if j < |s| && s[j] == '#' && |d| >= 3 then Some(d) else None
  {
  }

  lemma HexValueAtShift(s: string, o: nat, t: string, i: nat)
    requires Behind(s, o, t)
    ensures HexValueAt(s, o + i) == HexValueAt(t, i)
  {
    var j := SkipSpaces(t, i);
    SkipSpacesShift(s, o, t, i);
    HexRunShift(s, o, t, j + 1, 6);
    var d := HexRun(t, j + 1, 6);
    HexValueAtIs(t, i, j, d);
    HexValueAtIs(s, o + i, o + j, d);
    if j < |t| {
      BehindAt(s, o, t, j);
    }
  }

  /** What the colour pattern captures does not depend on what precedes the match. */
  lemma ColorAtShift(s: string, o: nat, t: string, i: nat)
    requires Behind(s, o, t)
    ensures ColorAt(s, o + i) == ColorAt(t, i)
  {
    if i + 6 <= |t| {
      assert s[o + i..o + i + 6] == t[i..i + 6];
    }
    HexValueAtShift(s, o, t, i + 6);
  }

  /** `color:` cannot start inside a leading `background-`. */
  lemma NoColorInBackgroundPrefix(t: string)
    ensures forall i | 0 <= i < 11 :: ColorAt("background-" + t, i).None?
  {
    var s := "background-" + t;
    forall i | 0 <= i < 11 ensures ColorAt(s, i).None? {
      assert s[i] == "background-"[i];
      assert i + 1 < 11 ==> s[i + 1] == "background-"[i + 1];
      assert i == 0 || i == 1 || i == 2 || i == 3 || i == 4 || i == 5 || i == 6 || i == 7 || i == 8 || i == 9 || i == 10;
      NotStartsAt(s, i, "color:", if i == 2 then 1 else 0);
    }
  }

  /**
   * As written, a style that opens with a `background-color:` declaration has
   * its background value read as the foreground as well, so it is flagged
   * whatever colour it declares for the text.
   */
  lemma BackgroundColorPrefix(t: string)
    requires StartsAt(t, 0, "color:")
    ensures StartsAt("background-" + t, 0, "background-color:")
  {
    assert t[0..6] == "color:";
    assert ("background-" + t)[0..17] == "background-" + t[0..6];
  }

  lemma BackgroundReadAsForeground(t: string)
    requires ColorAt(t, 0).Some?
    ensures SearchColorAsWritten("background-" + t, 0) == ColorAt(t, 0)
    ensures SearchBackground("background-" + t, 0) == ColorAt(t, 0)
    ensures ContrastIssueAsWritten("background-" + t)
  {
    var p := "background-";
    var s := p + t;
    assert Behind(s, 11, t);
    ColorAtShift(s, 11, t, 0);
    NoColorInBackgroundPrefix(t);
    SearchColorAsWrittenFirst(s, 0, 11);
    BackgroundColorPrefix(t);
    HexValueAtShift(s, 11, t, 6);
    assert BackgroundAt(s, 0) == HexValueAt(s, 17);
    SearchBackgroundFirst(s, 0, 0);
  }

  /**
   * As written, a page whose only styled element shows white text on black
   * gets a contrast warning and loses ten points; the intended rule emits none.
   */
  lemma WhiteOnBlackPage(name: string, s: string)
    requires s == "background-color:#000;color:#fff"
    ensures AnalyzeAccessibility(Page([], [], [], [Styled(name, s)])).contrastWarnings == [WarningFor(Styled(name, s))]
    ensures AnalyzeAccessibility(Page([], [], [], [Styled(name, s)])).score == 90
    ensures ContrastWarningsIntended([Styled(name, s)]) == []
  {
    ForegroundMatchedInsideBackground(s);
    ForegroundFromDeclaration(s);
    ContrastWarningsSingle(Styled(name, s));
    ContrastWarningsIntendedSingle(Styled(name, s));
  }
}
