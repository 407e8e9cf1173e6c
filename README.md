# Sinkhole detector: collector and API, modelled in Dafny

The backend has two handlers that share one record table.

- **The collector** (`backend/collectors/index.js`) fetches a news feed and keeps the items whose title or description contains one of three Korean keywords ("sinkhole", "road collapse", "ground subsidence").
  - For each kept item, in feed order, it builds a record and writes it to the table.
  - It then sends a chat notification. A failed notification is swallowed.
  - It then marks the record `notified`.
  - The first error that is thrown ends the run with a 500 response. Whatever was written before the error stays written.
- **The API** (`backend/api/index.js`) resolves the request method and path, then tries its routes in order:
  - GET on a path ending `/sinkholes` lists every record.
  - PUT on a path matching `/sinkholes/<word>` sets `location`, `lat` and `lng` on the record named by the path's last segment.
  - OPTIONS answers a CORS preflight.
  - Anything else gets 404.
  - Any thrown error becomes a 500 response carrying the error.

The model has six modules:

- `Common` (`common.dfy`): Option, Result, the errors that can be thrown, and JSON values.
- `Table` (`table.dfy`): the shared table as a `Store` class. Its fields are a `map` from id to item and a journal of external effects: puts, updates and notification attempts. Its methods model put, update-with-`set` (an upsert), scan and the notification post.
- `Matcher` (`matcher.dfy`): `String.prototype.includes` and the keyword test.
- `Feed` (`feed.dfy`): the pure parts of the collector: the filter, the record literal, the record's encoding as a stored item (with a decoder proving nothing is lost), and the notification text.
- `Collector` (`collector.dfy`):
  - `Collect` specifies the run as a fold over one `Pass` per relevant item.
  - The `Handler` method runs the source's loop on a `Store` and is proved equal to `Collect`.
  - The lemmas state what a run leaves in the table and journal when it completes and when it aborts.
- `Api` (`api.dfy`):
  - `Route` models the pure if-chain.
  - `Serve` specifies one request against the table.
  - The `Handle` method performs the request on a `Store` and is proved equal to `Serve`.

## Model

| member | source | states |
|---|---|---|
| Common.Decimal | backend/collectors/index.js:93 | the count in the success message is rendered as a non-empty string of digits without leading zero |
| Common.DecimalRoundTrip | backend/collectors/index.js:93 | reading the rendered count back gives the count: the message names the number of relevant items exactly |
| Table.Updated | backend/api/index.js:41-55 | the item a `set` update leaves (an upsert, no existence check); its contract is stated by `Table.UpdatedSpec` and `Table.UpdatedTwice` |
| Table.UpdatedSpec | backend/api/index.js:41-55 | a `set` update gives each named attribute its new value and keeps every other attribute of the stored item; on a missing id it creates an item with only the key and the named attributes |
| Table.UpdatedTwice | backend/api/index.js:41 | applying the same `set` update twice leaves the item as applying it once |
| Table.Store.constructor | backend/collectors/index.js:6 | a store starts with the given table and an empty journal |
| Table.Store.Put | backend/collectors/index.js:28-35 | a put writes the whole item under its id and journals it, or is rejected and changes nothing |
| Table.Store.Update | backend/collectors/index.js:82-87 | an update either fails (rejection, empty key, undefined value) and changes nothing, or overwrites the named attributes, returns the whole new item and journals the names set |
| Table.Store.Scan | backend/api/index.js:24 | a scan returns every stored item or is rejected, and never changes the table |
| Table.Store.Post | backend/collectors/index.js:18-26 | a notification attempt is journalled with whether it was delivered; the table is unchanged and no failure escapes |
| Matcher.Includes | backend/collectors/index.js:38 | `text.includes(word)`, trying each start position; its contract is stated by `Matcher.IncludesIff` |
| Matcher.ContainsKeywords | backend/collectors/index.js:37-39 | `containsKeywords`; its contract is stated by `Matcher.ContainsKeywordsIff` and `Matcher.KeywordAnywhereMatches` |
| Matcher.IncludesIff | backend/collectors/index.js:38 | `includes` holds exactly when the word occurs at some position of the text |
| Matcher.AnyIncludedIff | backend/collectors/index.js:38 | `some(includes)` holds exactly when one of the words occurs somewhere in the text |
| Matcher.ContainsKeywordsIff | backend/collectors/index.js:7-39 | a text matches exactly when one of the three keywords occurs in it |
| Matcher.KeywordAnywhereMatches | backend/collectors/index.js:37-39 | any text holding a keyword matches, whatever surrounds it |
| Matcher.IncludesAppend | backend/collectors/index.js:38 | an occurrence survives text appended after it |
| Matcher.IncludesPrepend | backend/collectors/index.js:38 | an occurrence survives text prepended before it |
| Feed.Relevant | backend/collectors/index.js:48-52 | the filter keeps no more items than the feed has, and only relevant items of the feed |
| Feed.RelevantConcat | backend/collectors/index.js:48-52 | filtering a concatenation filters each part and keeps their order |
| Feed.RelevantCounts | backend/collectors/index.js:48-52 | a relevant item is kept as many times as it occurs in the feed, an irrelevant one never |
| Feed.RelevantMembers | backend/collectors/index.js:48-52 | an item is kept exactly when it is in the feed and its title or description holds a keyword |
| Feed.RelevantNone | backend/collectors/index.js:48-52 | a feed without relevant items filters to nothing |
| Feed.GuidOf | backend/collectors/index.js:60 | the guid precedence: the element's text, else the element itself, else the link; its contract is stated by `Feed.BuildReportSpec` and `Feed.GuidRoundTrip` |
| Feed.BuildReport | backend/collectors/index.js:56-72 | the record literal of the loop body; its contract is stated by `Feed.BuildReportSpec` |
| Feed.ToItem | backend/collectors/index.js:56-72 | the item the put stores for a record, absent fields as null; its contract is stated by `Feed.ToItemShape` and `Feed.ReportRoundTrip` |
| Feed.BuildReportSpec | backend/collectors/index.js:56-72 | a record is built exactly when the date converts (otherwise the date error is thrown). It carries the fresh id, the ISO date and the item's title, link, description, creator and media. Its guid is the guid text, or the guid element itself when it has attributes and no text, or the link when there is no guid. It has null location, lat and lng and is not notified |
| Feed.ToItemShape | backend/collectors/index.js:56-72 | a stored record has exactly the twelve attributes; creator and mediaContent are null exactly when absent |
| Feed.GuidRoundTrip | backend/collectors/index.js:60 | a stored guid, text or the element's attribute object, reads back as itself |
| Feed.ReportRoundTrip | backend/collectors/index.js:56-75 | the stored item decodes back to the record it was written from |
| Feed.MarkedRoundTrip | backend/collectors/index.js:82-87 | setting `notified` on a stored record stores the same record with `notified` true |
| Feed.Message | backend/collectors/index.js:78 | the notification template; its contract is stated by `Feed.MessageMentions`, `Feed.MessageAuthor` and `Feed.MessageImage` |
| Feed.MessageMentions | backend/collectors/index.js:78 | the notification names the record's title, summary and link |
| Feed.MessageAuthor | backend/collectors/index.js:78 | the notification names the creator, or "미상" (unknown) when the creator is absent or empty |
| Feed.MessageImage | backend/collectors/index.js:78 | the notification ends with the image line when the record has media, otherwise with the link |
| Collector.Collect | backend/collectors/index.js:41-106 | the whole run as a value; its contract is stated by `Collector.Handler` (the loop equals it) and the `Collector.Collect*` lemmas |
| Collector.PassFor | backend/collectors/index.js:56-87 | what the pass over one relevant item does, fixed by the item, its id, its position and the environment; its contract is stated by `Collector.PassForItem` and `Collector.PassStops` |
| Collector.Step | backend/collectors/index.js:74-87 | one loop body on the table and journal, stopping at the first failing write; its contract is stated by `Collector.StepDone`, `Collector.StepThrows` and `Collector.ProcessItem` |
| Collector.Passes | backend/collectors/index.js:55 | the loop makes one pass per relevant item |
| Collector.PassesAt | backend/collectors/index.js:55-57 | the k-th pass works on the k-th relevant item with the k-th fresh id |
| Collector.ProcessItem | backend/collectors/index.js:56-87 | one loop body on the store: build, put, notify, mark, stopping at the first thrown error, equals the pass's specification `Step` |
| Collector.Handler | backend/collectors/index.js:41-106 | the handler on the store, with its loop, leaves exactly the table, journal and response that `Collect` specifies |
| Collector.FaultSticks | backend/collectors/index.js:55-96 | once a pass has thrown, no later pass runs |
| Collector.Traces | backend/collectors/index.js:55-87 | n completed passes journal exactly three effects each |
| Collector.StepDone | backend/collectors/index.js:75-87 | a pass whose writes succeed adds its marked record under its id and journals put, notification, mark in that order |
| Collector.StepThrows | backend/collectors/index.js:61-87 | a pass that throws leaves its record written but unmarked, with its notification attempted, exactly when its mark write is the one that failed; otherwise it changes nothing |
| Collector.IngestDone | backend/collectors/index.js:55-88 | while every pass completes, nothing throws, the journal gains the passes' effects in order and the table is the old one overlaid with their marked records |
| Collector.IngestAborts | backend/collectors/index.js:55-96 | the first pass that does not complete decides the end state of the run |
| Collector.AbortTable | backend/collectors/index.js:55-96 | an aborted run's table is the completed passes' marked records plus, when only its mark failed, the failing pass's unmarked record |
| Collector.AbortKeeps | backend/collectors/index.js:55-96 | in an aborted run, an earlier completed pass whose id no later pass reuses keeps its marked record |
| Collector.TracesAt | backend/collectors/index.js:55-87 | each completed pass's effects sit at their place in the journal |
| Collector.TracesAfter | backend/collectors/index.js:55-87 | after any earlier journal, each completed pass's effects sit at their place |
| Collector.WrittenKeys | backend/collectors/index.js:55-87 | the records written are keyed by exactly the passes' ids |
| Collector.WrittenAt | backend/collectors/index.js:55-87 | a pass whose id no later pass reuses keeps its own marked record |
| Collector.MarkedItem | backend/collectors/index.js:82-87 | marking a stored record is storing the record with `notified` true |
| Collector.PassForItem | backend/collectors/index.js:56-87 | a pass completes exactly when its item's record builds and neither of its two writes fails, and then writes that record and its message under the item's id |
| Collector.MarkedRecordOf | backend/collectors/index.js:56-87 | a completed item's record, once marked, is its report with `notified` true |
| Collector.PassStops | backend/collectors/index.js:56-87 | an item that does not complete throws the date error when its record does not build, and otherwise writes under its own id and fails at the put exactly when the put was rejected |
| Collector.PassesDone | backend/collectors/index.js:55-87 | when the first n items complete, so do their passes, each under its item's id |
| Collector.CollectSucceeds | backend/collectors/index.js:90-95 | a run whose relevant items all complete answers 200 "Processed N news items" with N the number of relevant items, whether or not notifications were delivered |
| Collector.CollectRecords | backend/collectors/index.js:55-88 | after such a run each relevant item's record, marked notified, is stored under its own id |
| Collector.CollectUntouched | backend/collectors/index.js:55-88 | such a run leaves every other record as it was |
| Collector.CollectNotifies | backend/collectors/index.js:74-87 | such a run journals, item after item in feed order, the put, the notification of that item's message (delivered or not) and the mark |
| Collector.CollectAborts | backend/collectors/index.js:96-104 | when an item fails, the run answers 500 "Error processing RSS feed" with that item's error: the date error or the failed write |
| Collector.CollectAbortsKeeps | backend/collectors/index.js:55-96 | when an item fails, the items before it keep their marked records |
| Collector.CollectAbortsLater | backend/collectors/index.js:55-96 | when an item fails, the items after it get no record |
| Collector.CollectAbortsAt | backend/collectors/index.js:75-87 | the failing item's record is stored, unmarked, exactly when its record built and only its mark write failed |
| Collector.CollectNothingRelevant | backend/collectors/index.js:47-52 | a feed with no relevant item writes and sends nothing and answers "Processed 0 news items", or 500 when the channel has no item element at all |
| Collector.CollectFetchFails | backend/collectors/index.js:44-45 | a feed that cannot be fetched or parsed writes and sends nothing and answers 500 "Error processing RSS feed" |
| Collector.SampleRelevant | backend/collectors/index.test.js:35-40 | the sample item's title holds "싱크홀", so the filter keeps it |
| Collector.SampleRun | backend/collectors/index.test.js:19-72 | a feed of the sample item answers 200 "Processed 1 news items" and journals the put, one notification and the mark |
| Collector.SampleRecord | backend/collectors/index.test.js:19-72 | the sample run stores the record under its id, marked notified |
| Api.MethodOf | backend/api/index.js:13 | `event.httpMethod`, or else `event.requestContext.http.method`; its contract is stated by `Api.ResolutionFallsBack` |
| Api.PathOf | backend/api/index.js:14 | `event.path`, or else `event.requestContext.http.path`; its contract is stated by `Api.ResolutionFallsBack` |
| Api.RouteMatches | backend/api/index.js:34 | the unanchored PUT pattern, trying each start position; its contract is stated by `Api.RouteMatchesIff` and `Api.UnanchoredTarget` |
| Api.LastSegment | backend/api/index.js:35 | `path.split('/').pop()`; its contract is stated by `Api.LastSegmentSpec` and `Api.LastSegmentAfterSlash` |
| Api.Route | backend/api/index.js:13-76 | the if-chain up to the table call, routes tried in the order GET, PUT, OPTIONS, 404; its contract is stated by `Api.ListingReadsOnly`, `Api.PutRoute`, `Api.BadBodyLeavesStore`, `Api.PreflightAnyPath`, `Api.NotFoundIff` and `Api.ResolutionFallsBack` |
| Api.RouteMatchesIff | backend/api/index.js:34 | the unanchored PUT pattern matches exactly when "/sinkholes/" followed by a word character or '-' occurs somewhere in the path |
| Api.LastSegmentSpec | backend/api/index.js:35 | the id holds no '/', ends the path, and is either the whole path or preceded by a '/' |
| Api.LastSegmentAfterSlash | backend/api/index.js:35 | whatever precedes the last '/', the id is exactly the text after it |
| Api.LocationFields | backend/api/index.js:36-51 | an unparsable body throws the parse error and a null body a property read on null; otherwise the update sets exactly location, lat and lng to the body's members of those names (undefined when missing) |
| Api.Serve | backend/api/index.js:11-89 | every response carries the same headers and has status 200, 404 or 500. A 500 carries "Internal Server Error" and an error; a 404 carries "Not Found". Only a 200 with the updated record changes the store |
| Api.Handle | backend/api/index.js:11-89 | the handler on the store leaves exactly the table, journal and response that `Serve` specifies |
| Api.ListingReadsOnly | backend/api/index.js:17-31 | a GET whose path ends with "/sinkholes" answers 200 with every stored item and changes nothing, or 500 with the scan's error |
| Api.ResolutionFallsBack | backend/api/index.js:13-14 | an empty or missing method or path is read from the request context; without one, the request answers 500 whatever its method |
| Api.PutRoute | backend/api/index.js:34-51 | a matching PUT with a non-null body targets the path's last segment (the text after the final '/', as `Api.LastSegmentSpec` fixes it) and sets exactly location, lat and lng from the body |
| Api.ServeUpdate | backend/api/index.js:38-61 | the update sets the three fields, keeps the record's other fields and every other record, adds no other attribute, creates the record with only the key and the three fields when the id is unknown, and answers 200 with the whole updated record. A rejected update, an empty id or an undefined value answers 500 and changes nothing |
| Api.PutIdempotent | backend/api/index.js:41-55 | sending the same PUT twice leaves the table as sending it once, with the same answer |
| Api.BadBodyLeavesStore | backend/api/index.js:36 | a PUT whose body is not JSON, or is null, answers 500 without reaching the store |
| Api.PreflightAnyPath | backend/api/index.js:65-70 | OPTIONS answers 200 with no body on any path and changes nothing |
| Api.NotFoundIff | backend/api/index.js:72-76 | the answer is 404 exactly when no route takes the resolved method and path, and then it is "Not Found" with the store unchanged |
| Api.ListScenario | backend/api/index.test.js:45-56 | GET /sinkholes over the one-record fixture lists that record |
| Api.ScanFailureScenario | backend/api/index.test.js:87-101 | a rejected scan answers 500 "Internal Server Error" |
| Api.UnknownScenario | backend/api/index.test.js:76-85 | GET /unknown answers 404 |
| Api.UpdateScenario | backend/api/index.test.js:58-74 | PUT /sinkholes/123 over a record without a location answers 200 with the body's location, lat and lng, and stores that record |
| Api.UnanchoredTarget | backend/api/index.js:34-35 | a deeper path such as /sinkholes/abc/def matches and targets "def", a prefixed path matches, and "/sinkholes/" alone does not |

## Left out

- The network and the XML parser (`backend/collectors/index.js:9-16, 44-45`) are modelled by `Fetch`. It is a rejected request, an unparsable document (or one without `rss.channel`), or the channel's items. A channel with no `item` element gives an empty list, and the code then throws on `items.filter`.
- Some malformed items make the code throw a TypeError: any item missing `title` or `description` (read by the filter for every item, `backend/collectors/index.js:49-50`), and a relevant item missing `link` or `pubDate`, or whose `media:content` has no attributes (read only in the loop, 56-67). `FeedItem` always has these fields and a `Media` always has both attributes, so those errors are not modelled.
- `uuidv4()` is modelled by a sequence of ids given to the run: the k-th relevant item gets the k-th id.
- `new Date(...).toISOString()` is modelled by the function `Env.isoDate`. `None` stands for an invalid date, which throws.
- Which table write fails and which notification is not delivered are modelled by `Env.failAt` and `Env.undelivered`. Item k's put is write 2k and its mark is write 2k+1. Failure causes, retries and timing are not modelled.
- `JSON.stringify` of response bodies and `JSON.parse` of request bodies are not modelled. A body is a `Payload`: unparsable, or a parsed JSON value. Response bodies are the structured `Body` values.
- `console.error` logging and the environment variables (table name, feed URL, webhook URL) are not modelled.
- The GET scan passes `IndexName: 'pubDate-index'` and `ScanIndexForward: false` (`backend/api/index.js:18-24`). The model returns every stored item as a map.
  - `ScanIndexForward` is a Query parameter, not a Scan parameter. Whether the document client rejects or ignores it is not modelled.
  - Listing order is left to the store, and the model states none.
  - A sparse index would omit items without `pubDate`, for example items created by a PUT on an unknown id. This is not modelled.
- Table.Store.Scan: returns every item. One `scan` call returns one page of results and the code ignores `LastEvaluatedKey` (`backend/api/index.js:24-29`), so this holds only for a table that fits in one page.
- The error's message is modelled by the `Fault` value carried in the response, not by the JavaScript message text.
- `Table.Store.Update` rejects an empty key or an undefined value with `InvalidUpdate`. This models how the document client behaves, which is not part of this model's source.
- `Table.Store.Put` requires a non-empty id, and `Collector.Handler` requires non-empty fresh ids. A version-4 UUID is never empty.
- Collector.CollectRecords: requires the fresh ids to be pairwise distinct, as version-4 UUIDs are in practice. Without that, a later record can overwrite an earlier one under the same id.
- Collector.CollectAbortsKeeps: requires the fresh ids to be pairwise distinct.
- Collector.CollectAbortsLater: requires the fresh ids to be pairwise distinct and absent from the table before the run.
- Collector.CollectAbortsAt: requires the fresh ids to be pairwise distinct and absent from the table before the run.
- The collector's `event` argument is unused by the code and is not modelled. Concurrent or overlapping runs are not modelled, and each `await` is modelled as a step in sequence.
- A channel without an `item` element is not an empty list: `items` is undefined and `items.filter` throws (`backend/collectors/index.js:47-48`), so the model answers 500 (`Collector.CollectNothingRelevant`).
- The code does not sort the scan result, so the model states no order.
