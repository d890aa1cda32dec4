# compu2 in Dafny: web analysis servers and biometric hash chain

This project models the core of the two practical assignments of the
`compu2` repository and proves properties of the model.

**TP2** is a pair of cooperating servers.

- The scraping server (aiohttp) accepts `/scrape` requests.
  - It applies a per-domain rate limit and answers from a TTL cache when it can.
  - Otherwise it schedules a background task. The task fetches the page and
    sends a framed JSON request to the processing server. It then stores the
    assembled result in the task table and in the cache.
  - `/status` and `/result` report on a task.
- The processing server reads one framed request and fills a fixed
  seven-key dictionary from the analyses the request enables. It answers
  with `{"status": "success", "processing_data": ...}` or an error body.
- Framing is a 4-byte big-endian length followed by the payload. Binary data
  travels as base64.
- The analyses are technology detection, an SEO score, structured-data
  extraction, and an accessibility report with a basic contrast check.

**TP1** is a biometric pipeline.

- Three analyzers keep a moving window of the last 30 readings of one vital
  sign each. For every sample they publish the window mean and standard
  deviation.
- A verifier process groups the results three at a time into rounds. It
  raises an alert on out-of-range means and appends SHA-256-linked blocks to
  a chain.
- `verificar_cadena` walks the chain and checks every link and every hash.

Modules, one per component:

| module | models |
|---|---|
| `Wrappers` | `Option` and `Result` |
| `Json` | JSON values, Python truthiness, `dict.get`, the error body |
| `Text` | whitespace, substring search, Python string order, sorted insertion |
| `Protocol` | `common/protocol.py`: framing, a socket as a class with a byte stream |
| `Base64` | `common/serialization.py` and the base64 codec of section 4 of RFC 4648 |
| `Tasks`, `Cache`, `RateLimit` | the three stateful classes of `server_scraping.py` |
| `ScrapingServer` | the handlers and the background task of `server_scraping.py` |
| `Processing` | `server_processing.py` |
| `Analysis` | `processor/advanced.py`, over features already extracted from the page |
| `Biometrics` | the analyzers of `TP1/sistema_biometrico.py` |
| `ChainBuilder` | the verifier process of `TP1/sistema_biometrico.py` |
| `ChainVerifier` | `TP1/verificar_cadena.py` |

Clocks, uuids, hostnames, SHA-256, `json.dumps` and numpy's standard
deviation are parameters of the operations that use them. The HTML parser's
output is an input.

## Model

| member | source | states |
|---|---|---|
| Protocol.EncodeBe32 | TP2/common/protocol.py:6 | the `!I` header of a length below 2^32 is exactly four bytes |
| Protocol.DecodeBe32 | TP2/common/protocol.py:6 | unpacking four bytes gives an unsigned 32-bit value |
| Protocol.DecodeEncodeBe32 | TP2/common/protocol.py:6 | unpacking a packed length gives that length back |
| Protocol.EncodeDecodeBe32 | TP2/common/protocol.py:6 | packing an unpacked header gives the same four bytes |
| Protocol.Frame | TP2/common/protocol.py:9-17 | the bytes sent are the header of the payload length followed by the payload; a payload of 2^32 bytes or more cannot be framed (struct.error) |
| Protocol.DecodeFrame | TP2/common/protocol.py:32-38 | a frame is accepted only with a positive declared length no larger than the maximum and the whole body present; fewer than four bytes is a closed connection; it returns the body and the unread rest |
| Protocol.FrameRoundTrip | TP2/common/protocol.py:9-38 | a frame written by send_message is read back by recv_message as the same payload, and what follows it stays unread |
| Protocol.EmptyFrameRejected | TP2/common/protocol.py:35-36 | an empty payload can be sent but its zero length header is refused by the receiver |
| Protocol.OversizedFrameRejected | TP2/common/protocol.py:35-36 | a declared length above the limit is refused whatever follows the header |
| Protocol.MaxMessageBoundary | TP2/common/protocol.py:32-38 | the 1 000 000 000-byte bound is inclusive: a body of exactly that size is read back, one byte more is refused |
| Protocol.Socket.constructor | TP2/common/protocol.py:20-29 | a socket starts with its incoming byte stream and nothing sent |
| Protocol.Socket.Recv | TP2/common/protocol.py:24-26 | `recv(n)` returns at most n bytes, taken from the front of the stream; empty only when the peer has closed |
| Protocol.Socket.SendAll | TP2/common/protocol.py:17 | `sendall` appends the data to what was sent |
| Protocol.RecvAll | TP2/common/protocol.py:20-29 | the loop returns exactly the next n bytes and consumes them, or fails with a closed connection having consumed everything |
| Protocol.RecvMessage | TP2/common/protocol.py:32-38 | the method returns what DecodeFrame decides on the stream; an invalid length consumes the header only |
| Protocol.SendMessage | TP2/common/protocol.py:9-17 | the method sends the header and payload, or nothing when the length overflows the header |
| Base64.IndexCharInverse | TP2/common/serialization.py:5-8 | the alphabet table is invertible on 6-bit groups |
| Base64.EncodeLength | TP2/common/serialization.py:5-8 | the encoding has length 4 * ceil(n / 3) |
| Base64.EncodeAlphabet | TP2/common/serialization.py:5-8 | every encoded character is in the alphabet or is `=`, and `=` appears only in the last two positions |
| Base64.EncodeCons | TP2/common/serialization.py:5-8 | the encoding of three or more bytes is the first quantum followed by the encoding of the rest |
| Base64.DecodeEncodeTriple | TP2/common/serialization.py:5-14 | a full quantum decodes to its three bytes |
| Base64.DecodeEncodeOne | TP2/common/serialization.py:5-14 | a single byte (`==` padding) round-trips |
| Base64.DecodeEncodeTwo | TP2/common/serialization.py:5-14 | two bytes (`=` padding) round-trip |
| Base64.DecodeFullQuantum | TP2/common/serialization.py:11-14 | decoding a full quantum followed by more text decodes the two parts separately |
| Base64.DecodeEncode | TP2/common/serialization.py:5-14 | decoding the encoding of any byte string gives the byte string back |
| Base64.BytesToBase64 | TP2/common/serialization.py:5-8 | None is passed through, and bytes become text of length 4 * ceil(n / 3) |
| Base64.Base64ToBytes | TP2/common/serialization.py:11-14 | None is passed through; canonical base64 text decodes; any other text is an error (stricter than `b64decode`, see Left out) |
| Base64.SerializationRoundTrip | TP2/common/serialization.py:5-14 | base64_to_bytes(bytes_to_base64(d)) == d for every d, None included |
| Tasks.StatusPayload | TP2/server_scraping.py:32-44 | the payload holds exactly the five base fields from the record, plus `error` only when it is set and `result_status` only when the result has a status |
| Tasks.NewRecord | TP2/server_scraping.py:52-56 | a new task is pending, with no result and no error, and both stamps are the creation time |
| Tasks.StatusSet | TP2/server_scraping.py:62-67 | set_status changes the status, error and update time of that task only; its identity, creation time and result are kept |
| Tasks.ResultSet | TP2/server_scraping.py:69-75 | set_result stores the result, sets the status, clears the error and updates the time of that task only |
| Tasks.ResultOverridesStatus | TP2/server_scraping.py:62-75 | a status change followed by a result leaves the same table as the result alone |
| Tasks.TaskManager.constructor | TP2/server_scraping.py:48-50 | the table starts empty |
| Tasks.TaskManager.CreateTask | TP2/server_scraping.py:52-56 | the method returns the new pending record and stores it under its id |
| Tasks.TaskManager.Get | TP2/server_scraping.py:58-60 | the method returns the stored record exactly when the id is known |
| Tasks.TaskManager.SetStatus | TP2/server_scraping.py:62-67 | a known id gets StatusSet; an unknown id is a KeyError and changes nothing |
| Tasks.TaskManager.SetResult | TP2/server_scraping.py:69-75 | a known id gets ResultSet; an unknown id is a KeyError and changes nothing |
| Cache.Expired | TP2/server_scraping.py:90 | an entry is expired when strictly more than ttl seconds have passed since it was stored |
| Cache.Read | TP2/server_scraping.py:84-93 | a hit is exactly an entry that is not expired, and it returns the stored data; an expired entry is removed and nothing else changes |
| Cache.ReadKeepsOthers | TP2/server_scraping.py:84-93 | a read never touches the entries of other URLs |
| Cache.StoreThenRead | TP2/server_scraping.py:84-97 | with a non-negative ttl, data stored now is read back now |
| Cache.NegativeTtlNeverHits | TP2/server_scraping.py:91 | with a negative ttl even a fresh entry misses |
| Cache.ExpiredStaysGone | TP2/server_scraping.py:91-93 | once an entry was found expired, later reads miss until it is stored again |
| Cache.ResultCache.constructor | TP2/server_scraping.py:79-82 | the cache starts empty with the given ttl |
| Cache.ResultCache.Get | TP2/server_scraping.py:84-93 | the method returns and leaves what Read specifies |
| Cache.ResultCache.Set | TP2/server_scraping.py:95-97 | the method replaces the URL's entry with the data stamped now |
| RateLimit.DropOld | TP2/server_scraping.py:113-114 | eviction never grows the bucket, and its oldest remaining time is within the period |
| RateLimit.DropOldSuffix | TP2/server_scraping.py:113-114 | eviction removes exactly a prefix, every removed time being more than a period old |
| RateLimit.Admit | TP2/server_scraping.py:107-118 | a request is allowed exactly when fewer than max recent times remain; an allowed request appends now |
| RateLimit.AdmitBounded | TP2/server_scraping.py:107-118 | a bucket never holds more than max times |
| RateLimit.AdmitInOrder | TP2/server_scraping.py:107-118 | a bucket sorted oldest first stays sorted, and no time in it lies after now |
| RateLimit.FullWindowRefuses | TP2/server_scraping.py:113-116 | a bucket holding max times, the oldest still within the period, refuses the next request and stays as it was |
| RateLimit.SecondWithinPeriodRefused | TP2/server_scraping.py:107-118 | with max 1, a second request within a period of an admitted one is refused |
| RateLimit.DomainRateLimiter.constructor | TP2/server_scraping.py:101-105 | the limiter starts with no buckets |
| RateLimit.DomainRateLimiter.Allow | TP2/server_scraping.py:107-118 | max <= 0 allows everything and records nothing; otherwise the domain's bucket becomes what Admit decides and the other domains are untouched; bounded buckets stay bounded |
| ScrapingServer.ExtractUrl | TP2/server_scraping.py:286-297 | a POST with an unreadable body is 400 "Body inválido"; an accepted URL is truthy and comes from the query or the body; every other refusal is 400 "Missing url param" |
| ScrapingServer.ExtractUrlGet | TP2/server_scraping.py:287-297 | a GET is accepted exactly when its query has a non-empty url |
| ScrapingServer.ExtractUrlNoObject | TP2/server_scraping.py:294-296 | a JSON body that is not an object, or has no url, is refused as missing the URL |
| ScrapingServer.HandleStatus | TP2/server_scraping.py:249-255 | an unknown id is 404; otherwise 200 with the record's status payload |
| ScrapingServer.FailureMessage | TP2/server_scraping.py:267 | the failure message is the task's error when set and never empty |
| ScrapingServer.HandleResult | TP2/server_scraping.py:258-276 | the code is 404, 200, 500 or 202 exactly as the task is unknown, ready, failed or still running; 200 carries the result with its task_id; 500 carries the failure message |
| ScrapingServer.ServedResultKeepsFields | TP2/server_scraping.py:274-276 | the served result keeps every stored field except task_id, which names the task |
| ScrapingServer.FailedTaskReports | TP2/server_scraping.py:264-269 | a task marked failed answers 500 with a non-empty message, whatever the error was |
| ScrapingServer.FailureReply | TP2/server_scraping.py:186-192 | the stand-in reply for an unreachable processing server is an error with empty processing data |
| ScrapingServer.ResultStatus | TP2/server_scraping.py:201 | the task status is "success" exactly when the reply says success, and "partial" otherwise |
| ScrapingServer.AssembleResult | TP2/server_scraping.py:196-205 | the result has the five fields from the page and the reply, and processing_error only when the reply carries an error |
| ScrapingServer.UnreachableProcessingIsPartial | TP2/server_scraping.py:186-205 | an unreachable processing server still gives a partial result that carries the failure |
| ScrapingServer.ProcessingRequest | TP2/server_scraping.py:164-179 | the request carries the url, the html and the scraping data unchanged, enables all seven analyses, and forwards at most image_limit (3) image URLs, in order |
| ScrapingServer.CallProcessingServer | TP2/server_scraping.py:121-138 | the method sends the framed request and returns the reply frame under the 100 000 000-byte limit, or the framing error |
| ScrapingServer.FetchErrorMessage | TP2/server_scraping.py:210-214 | a timeout is recorded as "Timeout", any other failure as its message |
| ScrapingServer.StatusSetTwice | TP2/server_scraping.py:62-67 | two status changes in a row leave the record the last one alone would |
| ScrapingServer.ProcessScrapeTask | TP2/server_scraping.py:140-214 | an unknown task changes nothing; a failed fetch marks the task failed with its message; otherwise the task is completed with the assembled result, which is also cached under the URL |
| ScrapingServer.CachedResult | TP2/server_scraping.py:240-241 | the request is answered from the cache exactly when the URL has an unexpired entry with a non-empty (truthy) result, and then with that result |
| ScrapingServer.Registered | TP2/server_scraping.py:238-242 | the new task is added and no other task changes; it is pending without a result, or completed with the cached result |
| ScrapingServer.ScheduledResponse | TP2/server_scraping.py:243-246 | 200 with task_id, "completed" and cached true for a cache hit; 202 with task_id and "pending" otherwise |
| ScrapingServer.StoredResultServed | TP2/server_scraping.py:211-246 | a result the background task cached is served by a later request within the ttl: 200, with the new task completed from that result |
| ScrapingServer.EmptyResultRescheduled | TP2/server_scraping.py:240-246 | an empty cached result is not a hit: the request is scheduled with 202 |
| ScrapingServer.Schedule | TP2/server_scraping.py:238-246 | the new task is registered; the cache read happens on both branches and leaves what Cache.Read leaves; a non-empty cached result answers 200 with the task completed from it; otherwise the task stays pending, is scheduled, and the answer is 202 |
| ScrapingServer.HandleScrape | TP2/server_scraping.py:217-246 | a refused URL answers as ExtractUrl says; a URL without a hostname is 400 "URL inválida"; otherwise the limiter is updated as Allow specifies, a refusal is 429 with tasks and cache untouched, and an admitted request has the outcome of Schedule; a non-string url is the framework's 500 |
| Processing.Present | TP2/server_processing.py:21-27 | only existing thumbnails are kept |
| Processing.EncodedThumbnails | TP2/server_processing.py:21-27 | each existing thumbnail becomes its base64 text, in order |
| Processing.PresentAppend | TP2/server_processing.py:21-27 | dropping missing thumbnails distributes over concatenation |
| Processing.PresentComplete | TP2/server_processing.py:21-27 | nothing is dropped when every thumbnail exists, and something is when one is missing |
| Processing.ThumbnailsRoundTrip | TP2/server_processing.py:21-27 | the encoded thumbnails decode back to exactly the thumbnails that existed |
| Processing.EncodeThumbnails | TP2/server_processing.py:21-27 | the loop computes EncodedThumbnails |
| Processing.Default | TP2/server_processing.py:37-45 | the defaults are null for screenshot and performance, empty lists for the list analyses, and empty objects for seo and accessibility |
| Processing.Produced | TP2/server_processing.py:47-89 | each slot's value comes from its own collaborator; thumbnails never outnumber the images; a screenshot is null exactly when none was taken |
| Processing.Filled | TP2/server_processing.py:30-91 | the result has the seven keys; a slot keeps its default when disabled or when its analysis raises, and otherwise holds what the analysis produced |
| Processing.SlotsIndependent | TP2/server_processing.py:47-89 | a slot depends only on its own analysis: one failing leaves the others as they were |
| Processing.NothingEnabled | TP2/server_processing.py:30-91 | a request that enables nothing gets exactly the defaults |
| Processing.MissingInputsKeepDefaults | TP2/server_processing.py:60-89 | thumbnails need image URLs and the HTML analyses need HTML, whatever the flags say |
| Processing.PartialComplete | TP2/server_processing.py:37-91 | once every slot has been visited, the dictionary is the specified result |
| Processing.RunAnalysis | TP2/server_processing.py:47-89 | the try/except returns the analysis result or keeps the default |
| Processing.FillSlot | TP2/server_processing.py:47-89 | one block finishes its slot and leaves the others as they were |
| Processing.ProcessTasks | TP2/server_processing.py:30-91 | the seven blocks in order compute Filled |
| Processing.Record | TP2/server_processing.py:37-45 | the reply dictionary holds the seven slots under their names |
| Processing.SuccessReply | TP2/server_processing.py:114-118 | the success reply wraps the processing data |
| Processing.HandleRequest | TP2/server_processing.py:94-120 | a framing error or a non-object payload gives an error body; a missing url gives "missing url"; the request is processed exactly when the url is truthy, and the reply then carries ProcessTasks' result |
| Analysis.DetectTechnologies | TP2/processor/advanced.py:10-40 | the labels are strictly sorted and are exactly the technologies with a clue in the page |
| Analysis.CollectTechnologies | TP2/processor/advanced.py:36-38 | the loop over the marker table collects exactly the detected technologies |
| Analysis.SortLabels | TP2/processor/advanced.py:40 | `sorted` of the set gives each label once, in increasing order |
| Analysis.ReactDetectedIff | TP2/processor/advanced.py:16-17 | React is reported exactly when the page contains "react" |
| Analysis.SeoPoints | TP2/processor/advanced.py:54-71 | the sum of the eight weighted criteria is at most 100 |
| Analysis.SeoPointsAtMost100 | TP2/processor/advanced.py:54-71 | the weights add up to 100, and the score is 100 exactly when every criterion holds |
| Analysis.EvaluateSeo | TP2/processor/advanced.py:43-72 | the report carries the title and description lengths and the page flags, with a score between 0 and 100 |
| Analysis.SingleH1Bonus | TP2/processor/advanced.py:59 | exactly one h1 is worth 10 points over any other count |
| Analysis.SeoTestPageScore | TP2/tests/test_processor.py:36-49 | the test's page scores 65, so its positive score holds |
| Analysis.Dicts | TP2/processor/advanced.py:81-82 | only the dict items of a list are kept |
| Analysis.DictsComplete | TP2/processor/advanced.py:81-82 | every dict item of a list is kept |
| Analysis.ExtractStructuredData | TP2/processor/advanced.py:75-87 | every extracted entry comes from one of the ld+json scripts |
| Analysis.ExtractStructuredDataComplete | TP2/processor/advanced.py:75-87 | nothing a script contributes is lost, whatever the other scripts hold |
| Analysis.ListItemsFound | TP2/processor/advanced.py:81-82 | every object in a list script is extracted |
| Analysis.MissingAlt | TP2/processor/advanced.py:93 | no image is reported exactly when every image has a non-blank alt |
| Analysis.MissingAltAppend | TP2/processor/advanced.py:93 | the report on two runs of images is the report on each, in order |
| Analysis.MissingAltSingle | TP2/processor/advanced.py:93 | one image is reported, by its src, exactly when its alt is missing or blank |
| Analysis.TextlessLinks | TP2/processor/advanced.py:96-98 | no link is reported exactly when every link has text |
| Analysis.TextlessLinksAppend | TP2/processor/advanced.py:96-98 | the report on two runs of links is the report on each, in order |
| Analysis.TextlessLinksSingle | TP2/processor/advanced.py:96-98 | one link is reported, by its href, exactly when it has no text |
| Analysis.TextlessButtons | TP2/processor/advanced.py:100-105 | every reported index is a button without text |
| Analysis.TextlessButtonsComplete | TP2/processor/advanced.py:100-105 | every button without text is reported |
| Analysis.TextlessButtonsIncreasing | TP2/processor/advanced.py:100-105 | the reported indices increase strictly |
| Analysis.AccessibilityScore | TP2/processor/advanced.py:115 | `max(0, 100 - 10 * issues)` lies in 0..100 and is 100 without issues |
| Analysis.AccessibilityScoreRange | TP2/processor/advanced.py:109-115 | the score lies in 0..100; it is 0 exactly from ten issues on, and 100 exactly with none |
| Analysis.AccessibilityScoreAntitone | TP2/processor/advanced.py:109-115 | more issues never raise the score, and below ten issues each one costs ten points |
| Analysis.AnalyzeAccessibility | TP2/processor/advanced.py:90-123 | the report holds the missing-alt images, the textless links, the textless buttons and the contrast warnings as written, and a score from their total; the score is 100 exactly when all four are empty |
| Analysis.HexRun | TP2/processor/advanced.py:130-131 | `[0-9a-f]{0,n}` captures at most n characters |
| Analysis.HexRunDigits | TP2/processor/advanced.py:130-131 | the capture is the run of lowercase hex digits of the text that starts at the position |
| Analysis.HexValueAt | TP2/processor/advanced.py:130-131 | a captured colour has three to six digits |
| Analysis.Leftmost | TP2/processor/advanced.py:130-131 | `re.search` finds a match exactly when some position matches |
| Analysis.LeftmostFirst | TP2/processor/advanced.py:130-131 | the match at the first matching position is the one returned |
| Analysis.SearchColorAsWritten | TP2/processor/advanced.py:130 | `re.search(r"color:\s*#([0-9a-f]{3,6})", style)`: the value after the leftmost `color:` followed by a colour, wherever it stands |
| Analysis.SearchBackground | TP2/processor/advanced.py:131 | the value after the leftmost `background:` or `background-color:` followed by a colour |
| Analysis.ContrastIssueAsWritten | TP2/processor/advanced.py:132-135 | an element is flagged when both searches find a colour and the two are equal |
| Analysis.SearchColorAsWrittenFirst | TP2/processor/advanced.py:130 | as written, the foreground is what `color:` captures at the leftmost position where it matches, including the `color:` inside `background-color:` |
| Analysis.SearchBackgroundFirst | TP2/processor/advanced.py:131 | the background is what the pattern captures at the leftmost position where it matches |
| Analysis.SearchColorFirst | TP2/processor/advanced.py:130 | with the corrected search, the foreground is the value of the first `color:` declaration |
| Analysis.SearchColorDeclared | TP2/processor/advanced.py:130 | a foreground colour the corrected search finds starts a `color:` declaration |
| Analysis.NoDeclarationNoForeground | TP2/processor/advanced.py:130 | without a `color:` declaration no foreground colour is found |
| Analysis.ContrastWarnings | TP2/processor/advanced.py:126-137 | the warnings of `_detect_basic_contrast_issues`: one per flagged element, in element order |
| Analysis.ContrastWarningsAppend | TP2/processor/advanced.py:126-137 | the warnings of two runs of elements are those of each run, in order |
| Analysis.ContrastWarningsSingle | TP2/processor/advanced.py:132-136 | as written, an element gives one warning naming its tag when both searches find the same colour, and none otherwise |
| Analysis.DetectContrastIssues | TP2/processor/advanced.py:126-137 | the loop applies the rule as written and computes ContrastWarnings, in element order |
| Analysis.ContrastTestStyle | TP2/tests/test_processor.py:68-84 | the test's `color:#fff;background-color:#fff` is flagged by either search |
| Analysis.ForegroundMatchedInsideBackground | TP2/processor/advanced.py:130-136 | as written, `background-color:#000;color:#fff` takes `000` as its foreground and is flagged |
| Analysis.ForegroundFromDeclaration | TP2/processor/advanced.py:130-136 | with the corrected search the same style takes `fff` as its foreground and is not flagged |
| Analysis.SkipSpacesShift | TP2/processor/advanced.py:130-131 | `\s*` matches the same run of spaces whatever precedes it |
| Analysis.HexRunShift | TP2/processor/advanced.py:130-131 | the hex digits captured do not depend on what precedes them |
| Analysis.HexValueAtShift | TP2/processor/advanced.py:130-131 | `\s*#([0-9a-f]{3,6})` captures the same value whatever precedes it |
| Analysis.ColorAtShift | TP2/processor/advanced.py:130 | whether `color:` and a colour start at a position does not depend on what precedes it |
| Analysis.NoColorInBackgroundPrefix | TP2/processor/advanced.py:130 | `color:` cannot start inside a leading `background-` |
| Analysis.BackgroundColorPrefix | TP2/processor/advanced.py:131 | a style that is `background-` followed by `color:` starts a `background-color:` declaration |
| Analysis.BackgroundReadAsForeground | TP2/processor/advanced.py:130-135 | as written, any style that starts with a `background-color:` colour takes that colour as both foreground and background, and is flagged whatever follows |
| Analysis.WhiteOnBlackPage | TP2/processor/advanced.py:90-137 | as written, a page whose only element is styled `background-color:#000;color:#fff` gets one warning and a score of 90; the intended rule gives none |
| Analysis.ContrastWarningsIntended | TP2/processor/advanced.py:126-137 | the warnings the evidently intended rule gives: one per element whose declared colour equals its background |
| Analysis.ContrastWarningsIntendedAppend | TP2/processor/advanced.py:126-137 | the warnings of the intended rule on two runs of elements are those of each run, in order |
| Analysis.ContrastWarningsIntendedSingle | TP2/processor/advanced.py:132-136 | the intended rule gives one warning for an element exactly when its declared colour equals its background |
| Biometrics.Readings | TP1/sistema_biometrico.py:42 | one reading per sample |
| Biometrics.ReadingsIndex | TP1/sistema_biometrico.py:42 | reading i is the value taken from sample i |
| Biometrics.LastN | TP1/sistema_biometrico.py:36 | the window holds the last n values in order, or all of them when fewer |
| Biometrics.LastNAppend | TP1/sistema_biometrico.py:36-45 | trimming after every append gives the last n of all arrivals |
| Biometrics.MovingWindow.constructor | TP1/sistema_biometrico.py:36 | a bounded deque starts empty |
| Biometrics.MovingWindow.Append | TP1/sistema_biometrico.py:45 | appending to a full deque drops its oldest value |
| Biometrics.SumBounds | TP1/sistema_biometrico.py:48 | a sum of bounded values is bounded by the count times each bound |
| Biometrics.Mean | TP1/sistema_biometrico.py:48 | `np.mean` of the window: the exact average of its values |
| Biometrics.MeanWithin | TP1/sistema_biometrico.py:48 | the mean of values between two bounds lies between them |
| Biometrics.StdDev | TP1/sistema_biometrico.py:19-22 | the deviation is 0 for fewer than two values, and numpy's otherwise |
| Biometrics.WindowStep | TP1/sistema_biometrico.py:45 | one more sample moves the window as append on the deque does |
| Biometrics.AnalyzeSample | TP1/sistema_biometrico.py:41-58 | one iteration moves the window and publishes the result for that sample |
| Biometrics.PublishedStep | TP1/sistema_biometrico.py:58 | publishing sample n's result extends the results of the samples before it |
| Biometrics.PublishedPrefix | TP1/sistema_biometrico.py:39-58 | each published result is the one computed for its sample |
| Biometrics.Analyzer | TP1/sistema_biometrico.py:35-117 | an analyzer publishes one result per sample, for at most 60 samples; result j carries the mean and deviation of the window after sample j |
| Biometrics.WindowMeanWithin | TP1/sistema_biometrico.py:25-32 | a window mean of readings within the generator's ranges stays within them |
| ChainBuilder.ByKind | TP1/sistema_biometrico.py:130-133 | `resultados[res["tipo"]] = res` over a round: a later result of a kind replaces an earlier one |
| ChainBuilder.ByKindTipo | TP1/sistema_biometrico.py:130-133 | every result in `resultados` is stored under its own tipo |
| ChainBuilder.ByKindDomain | TP1/sistema_biometrico.py:130-133 | the keys of `resultados` are exactly the tipos in the round |
| ChainBuilder.ByKindLast | TP1/sistema_biometrico.py:133 | the last result of each tipo is the one kept |
| ChainBuilder.ByKindFrom | TP1/sistema_biometrico.py:130-133 | every result kept in `resultados` is one of the round's results |
| ChainBuilder.AlertOn | TP1/sistema_biometrico.py:145-150 | the alert is raised by a heart rate of 200 or more, an oxygen mean outside 90..100, or a pressure of 200 or more |
| ChainBuilder.GeneratedRangesNeverAlert | TP1/sistema_biometrico.py:145-150 | means within the generated ranges never raise the alert |
| ChainBuilder.PublishedInRange | TP1/sistema_biometrico.py:25-58 | an analyzer fed generated samples publishes means within the generated bounds of its kind |
| ChainBuilder.InRangeQueueNeverAlerts | TP1/sistema_biometrico.py:128-181 | when every result on the queue has its mean within the generated bounds, no block of a chain built from the queue carries an alert |
| ChainBuilder.BlockData | TP1/sistema_biometrico.py:153-166 | `datos_bloque` holds exactly the three kinds, each with the mean and deviation of its result |
| ChainBuilder.CompletedStep | TP1/sistema_biometrico.py:128-181 | a complete round adds one block to the count |
| ChainBuilder.CompletedStop | TP1/sistema_biometrico.py:128-193 | a short or incomplete round ends the chain |
| ChainBuilder.AllRoundsComplete | TP1/sistema_biometrico.py:128 | when every round is complete the chain reaches 60 blocks |
| ChainBuilder.OneOfEachComplete | TP1/sistema_biometrico.py:130-142 | a round with one result of each tipo, in any order, builds a block |
| ChainBuilder.ByKindSnoc | TP1/sistema_biometrico.py:133 | one more result is keyed by its tipo over the earlier ones |
| ChainBuilder.TakeRound | TP1/sistema_biometrico.py:130-133 | the inner loop keys the next three queue results by tipo |
| ChainBuilder.NewBlock | TP1/sistema_biometrico.py:142-178 | the block names the previous hash, its hash recomputes, and its fields and alert record the round |
| ChainBuilder.BuiltFromAppend | TP1/sistema_biometrico.py:172-181 | a block built from the next complete round extends the chain |
| ChainBuilder.BuildChain | TP1/sistema_biometrico.py:120-195 | the chain is linked from the genesis hash, has one block per round completed before the first failure, at most 60, and block r records round r |
| ChainBuilder.RecordAndVerify | TP1/verificar_cadena.py:6-62 | a chain the verifier process writes passes verificar_cadena with every block valid, and fails only when it is empty |
| ChainVerifier.BlockHash | TP1/verificar_cadena.py:37-38 | the hash of a block is sha256 of the previous hash, the sorted-key JSON of its data and its timestamp |
| ChainVerifier.LinkedIff | TP1/verificar_cadena.py:27-48 | a chain is linked exactly when every block names the previous hash and its hash recomputes |
| ChainVerifier.LinkedAppend | TP1/sistema_biometrico.py:180-181 | appending a block that is sound on the last hash keeps the chain linked |
| ChainVerifier.ValidPrefix | TP1/verificar_cadena.py:27-48 | the walk accepts every block exactly when the chain is linked |
| ChainVerifier.ValidPrefixLongest | TP1/verificar_cadena.py:27-48 | the accepted blocks form the longest linked prefix |
| ChainVerifier.VerifyChain | TP1/verificar_cadena.py:6-62 | a missing or empty chain fails; otherwise the valid count is the longest linked prefix, at most one block is invalid, and the result is true exactly when the whole chain is linked |
| Text.ContainsFrom | TP2/processor/advanced.py:37 | `clue in html` holds exactly when the clue occurs somewhere |
| Text.ContainsPart | TP2/processor/advanced.py:16-17 | a page containing a word contains every part of it |
| Text.LessTransitive | TP2/processor/advanced.py:40 | Python string order is transitive |
| Text.LessTotal | TP2/processor/advanced.py:40 | distinct strings are ordered one way or the other |
| Text.Insert | TP2/processor/advanced.py:40 | insertion keeps the labels strictly sorted and adds exactly one label |

## Left out

- ProcessScrapeTask: the processing server's reply is an input. The bytes sent are not derived from ProcessingRequest, because `json.dumps` is not modelled, so the model does not connect the request of one exchange to its reply.

- Sockets, asyncio, `socketserver` threads, the process pool and `multiprocessing` pipes, queues and locks. The model is sequential, and a socket is a byte stream split into chunks of arbitrary size.
- JSON text and UTF-8. Payloads are JSON values: `json.dumps`/`json.loads` are not modelled, and the frame body is taken as given bytes.
- The HTTP fetch, BeautifulSoup and the metadata extractor. The features they produce (titles, counts, styles, script contents) are inputs.
- Screenshots, the performance analysis and thumbnail generation are external collaborators. Their outcome, a value or the message of the exception they raised, is an input.
- Base64ToBytes: only canonical text is decoded; every other text is an error. Without `validate=True`, `b64decode` is more lenient. It skips characters outside the alphabet. It ignores a `=` that does not complete a quantum, so `=QUJD` and `QUJD=` both give `ABC`. It stops at the first completed padded quantum, so `QQ==QUJD` gives `A`. The model reports all such text as an error instead of decoding it.
- Tasks.TaskManager.Get: records are values. Python callers receive a shared mutable `TaskRecord`, and that aliasing is not modelled.
- Clocks, `uuid4`, `urlparse` and `isoformat` are parameters. Each operation reads the clock once, and uuids are not assumed fresh.
- The processing server's dictionary keys are the `Slot` enumeration in place of free strings.
- `random` sample generation, `print` output and the report generator.
- File I/O: the `json.dump` persistence of the chain after each block, and the file errors of `verificar_cadena`.
- A chain file whose blocks lack a field: the Python raises `KeyError`.
- numpy. `np.mean` is an exact rational average, and `np.std` is a parameter.
- `hashlib.sha256` and `json.dumps(sort_keys=True)` are parameters.
- The blocking queue. `ChainBuilder.BuildChain` stops when the queue runs out of results, where Python would wait.
- The `resultados_timestamp` bookkeeping, which is written but never read.
- ChainBuilder.BuildChain: an incomplete round raises `KeyError`, which the verifier process catches, and it stops. The model also stops there and says nothing about what the process prints.

## Findings

| source | as written | input that shows it | evidently intended | confidence | as-written member | corrected member |
|---|---|---|---|---|---|---|
| TP2/processor/advanced.py:130-136 | the foreground pattern `color:\s*#...` is searched anywhere in the style, so it also matches the `color:` inside `background-color:` | style `background-color:#000;color:#fff` (white text on a black background) gives foreground `000` and background `000`, so a contrast warning is emitted and the score drops to 90 | the foreground is the value of a `color:` declaration, and this style is not flagged | not executed | Analysis.ForegroundMatchedInsideBackground, Analysis.BackgroundReadAsForeground, Analysis.WhiteOnBlackPage | Analysis.ForegroundFromDeclaration, Analysis.ContrastWarningsIntended |

The accessibility report follows the code as written: `AnalyzeAccessibility`
and `DetectContrastIssues` produce `ContrastWarnings`, which uses the
as-written rule. `ContrastWarningsIntended` is the corrected report, and the
lemmas above are proved about it.
