# gnippy, modelled in Dafny

gnippy is a Node.js client for Gnip, Twitter's enterprise data service. This
project models its five client objects and proves properties about them:

- **PowerTrack stream** (`PowertrackStream.PowerTrackStream`) opens one
  long-lived request to the track endpoint. Each decoded record is published on
  `data` and on the record's verb.
- **PowerTrack replay** (`PowertrackReplay.PowerTrackReplay`) does the same for
  a replay range. The constructor insists on `fromDate` and `toDate`.
- **Compliance stream** (`ComplianceApi.ComplianceStream`) first checks the
  requested window. Each record then fans out to `data`, `summary`, possibly
  `failure`, and three events per entry of its `results`.
- **Search** (`TwitterSearch.Search`) validates its query and fetches a page.
  `nextPage` writes the cursor into the caller's query object and fetches the
  next page. Each page is published on `data`, `page:next`, `page:is_last` and
  its verb.
- **Rules manager** (`PowertrackRules.RulesManager`) implements `add` and
  `remove`. Each sends its rule list in front slices of the batch size, and each
  slice goes out only after the previous one succeeded. The caller hears about
  the first failure, or about the final success, exactly once. `list` fetches
  the rule set.

Every request-issuing operation first runs the identity guard
(`Gnip.IdentityCheck`). It throws on an empty account name, and it throws when
user and password are both empty. Search's `nextPage` is the one exception to
this order: it checks the cursor between the account name and the credentials
(`TwitterSearch.PageCheck`). A thrown error is a `Result`/`Option` value in the
model.

The four stream clients share one request lifecycle, modelled as a pure state
machine in `Session`:

- `start` stores a request.
- The `response` handler reports a non-200 status and an unsupported encoding.
  A gzip body is wired to the decoder.
- Decoded records are published one at a time. An exception raised while
  classifying a record ends the pipe.
- `end` aborts the stored request and emits `end`.

Each client class keeps the fields of that state. Its methods are proved to move
them exactly as the `Session` functions say, and the lifecycle properties are
proved once, about those functions.

The transport is a parameter. The stream clients receive the response's status
and encoding and then the decoded records, one method call each. The rules
manager takes the replies to its requests as a sequence, consumed in order; when
the sequence runs out, the last request sent is still awaiting its reply.

Two behaviours follow the code rather than the documented intent:

- **Compliance window.** `lib/gnippy/compliance/compliance_api.js:30-32` throws
  when the toDate minus 10 minutes falls before the fromDate. So it refuses
  windows shorter than 10 minutes and accepts longer ones, although the message
  speaks of a 10-minute maximum. `ComplianceApi.WindowRule` states what the code
  does. One consequence: a query that gives a toDate but no fromDate keeps the
  default fromDate of 15 minutes ago. It is then accepted only when its toDate
  is exactly 5 minutes ago (`ComplianceApi.OnlyToDateGiven`).
- **Batch count.** `lib/gnippy/rules/powertrack_rules.js:42` splits while
  `length >= batch_size`. So n rules take floor(n / b) + 1 requests, not
  ceil(n / b), and when b divides n the last request carries an empty rule
  list. `PowertrackRules.BatchesCount` and `PowertrackRules.TrailingEmptyBatch`
  state this.

## Model

| member | source | states |
|---|---|---|
| Gnip.IdentityCheck | lib/gnippy/powertrack/powertrack_stream.js:44-50 | the account-name error exactly when the name is empty; the credentials error exactly when the name is set and user and password are both empty; no error otherwise |
| Gnip.DecimalRoundTrip | lib/gnippy/compliance/compliance_api.js:88 | the rendering of a status code reads back as that code and has no leading zero |
| Events.DataAndVerb | lib/gnippy/powertrack/powertrack_stream.js:69-70 | one record gives two emissions, `data` then its verb, each carrying the record |
| Session.Start | lib/gnippy/powertrack/powertrack_stream.js:37-52 | a failing guard changes nothing; otherwise one more request is stored, without a decoder, and nothing is emitted |
| Session.Respond | lib/gnippy/powertrack/powertrack_stream.js:55-76 | for a stored request, the decoder is wired exactly when the encoding is gzip; a non-200 status appends the status error first, and a non-gzip encoding appends the encoding error last; earlier emissions are kept; an aborted request is left unchanged |
| Session.Deliver | lib/gnippy/powertrack/powertrack_stream.js:64-71 | while the decoder is wired, the record's emissions are appended and the pipe survives exactly when classifying did not throw; otherwise nothing changes |
| Session.End | lib/gnippy/powertrack/powertrack_stream.js:79-86 | afterwards no request is stored; `end` is appended exactly when one was; the request count is kept |
| Session.RunKeepsValid | lib/gnippy/powertrack/powertrack_stream.js:37-86 | in any sequence of starts, responses, records and ends, records are decoded only while a request is stored |
| Session.GuardFailureIssuesNothing | lib/gnippy/powertrack/powertrack_stream.js:44-50 | a failed `start` issues no request and leaves no trace: any run that follows it ends where the same run without it ends |
| Session.EndIsIdempotent | lib/gnippy/powertrack/powertrack_stream.js:79-86 | `end` emits `end` exactly when a request is stored, clears it, and a second `end` changes nothing |
| Session.SilentUntilStart | lib/gnippy/powertrack/powertrack_stream.js:79-86 | after `end`, responses, records and ends change nothing until the next `start` |
| Session.NoRecordsWithoutDecoder | lib/gnippy/powertrack/powertrack_stream.js:60-74 | until a gzip response has wired the decoder, records publish nothing |
| Session.RecordsInOrder | lib/gnippy/powertrack/powertrack_stream.js:64-71 | records that classify without an exception are published in arrival order, each record's emissions kept together |
| PowertrackStream.PowerTrackStream.constructor | lib/gnippy/powertrack/powertrack_stream.js:8-34 | the platform defaults to twitter; no request is stored |
| PowertrackStream.PowerTrackStream.Start | lib/gnippy/powertrack/powertrack_stream.js:37-52 | throws the identity guard's error, or stores a new request without a decoder |
| PowertrackStream.PowerTrackStream.OnResponse | lib/gnippy/powertrack/powertrack_stream.js:55-76 | a non-200 status emits the plain status error; gzip wires the decoder; any other encoding emits the encoding error |
| PowertrackStream.PowerTrackStream.OnRecord | lib/gnippy/powertrack/powertrack_stream.js:64-71 | a decoded record publishes `data` and its verb, only while the decoder is wired |
| PowertrackStream.PowerTrackStream.End | lib/gnippy/powertrack/powertrack_stream.js:79-86 | aborts and reports a stored request, and does nothing otherwise |
| PowertrackReplay.BuildQuery | lib/gnippy/powertrack/powertrack_replay.js:9-17 | fails exactly when fromDate or toDate is missing; otherwise the query is passed on unchanged |
| PowertrackReplay.PowerTrackReplay.constructor | lib/gnippy/powertrack/powertrack_replay.js:19-45 | the platform defaults to twitter; the range query is kept; no request is stored |
| PowertrackReplay.PowerTrackReplay.Open | lib/gnippy/powertrack/powertrack_replay.js:19-45 | construction fails with the range error exactly when the query lacks either date |
| PowertrackReplay.PowerTrackReplay.Start | lib/gnippy/powertrack/powertrack_replay.js:48-64 | throws the identity guard's error, or stores a new request |
| PowertrackReplay.PowerTrackReplay.OnResponse | lib/gnippy/powertrack/powertrack_replay.js:66-87 | status and encoding are reported as in the stream client |
| PowertrackReplay.PowerTrackReplay.OnRecord | lib/gnippy/powertrack/powertrack_replay.js:75-82 | a decoded record publishes `data` and its verb |
| PowertrackReplay.PowerTrackReplay.End | lib/gnippy/powertrack/powertrack_replay.js:90-97 | aborts and reports a stored request, and does nothing otherwise |
| ComplianceApi.Defaults | lib/gnippy/compliance/compliance_api.js:15-21 | the default query holds exactly fromDate 15 minutes ago and toDate 5 minutes ago |
| ComplianceApi.BuildQuery | lib/gnippy/compliance/compliance_api.js:11-35 | an accepted query is the defaults overridden by the caller's keys, so both dates are present; a refusal needs a parseable toDate |
| ComplianceApi.DefaultWindowAccepted | lib/gnippy/compliance/compliance_api.js:15-21 | without dates, the window from 15 to 5 minutes ago is used and accepted |
| ComplianceApi.ToDateRule | lib/gnippy/compliance/compliance_api.js:24-28 | a parseable toDate, given or defaulted, gets the Minimum toDate error exactly when it is later than 5 minutes ago |
| ComplianceApi.WindowRule | lib/gnippy/compliance/compliance_api.js:24-32 | with both dates parseable, given or defaulted, and an acceptable toDate, the Max Requested Time Period error is raised exactly when fromDate is after toDate minus 10 minutes; with both dates given, an accepted query is passed on unchanged |
| ComplianceApi.OnlyToDateGiven | lib/gnippy/compliance/compliance_api.js:15-32 | a toDate without a fromDate is accepted exactly when it is 5 minutes ago; an earlier one gets the Max Requested Time Period error |
| ComplianceApi.UnparseableToDatePasses | lib/gnippy/compliance/compliance_api.js:24-32 | a toDate that does not parse is never refused |
| ComplianceApi.UnparseableFromDatePasses | lib/gnippy/compliance/compliance_api.js:24-32 | a fromDate that does not parse, beside a toDate at least 5 minutes old, is not refused |
| ComplianceApi.Ids | lib/gnippy/compliance/compliance_api.js:108-111 | each id is null unless the entry's `gnip` holds the activity (user), and is that object's id otherwise |
| ComplianceApi.EntryEmissions | lib/gnippy/compliance/compliance_api.js:113-118 | `event:<first original key>`, then `product:` and `stream_type:` with their labels, each carrying ids and entry; an entry without labels throws after the first |
| ComplianceApi.ResultsEmissions | lib/gnippy/compliance/compliance_api.js:107-119 | a throw, if any, is the last emission, and happens exactly when some entry lacks labels; every emission is made for an entry; with every entry labelled there are three emissions per entry |
| ComplianceApi.ResultsStopAtFirstUnlabelled | lib/gnippy/compliance/compliance_api.js:107-119 | when entry k is the first without labels, the entries before it publish all their events in order, entry k publishes its `event:` and then throws, and later entries publish nothing |
| ComplianceApi.ResultsFanOut | lib/gnippy/compliance/compliance_api.js:107-119 | when every entry has labels, the handler publishes every entry's events in full, entry after entry |
| ComplianceApi.EntrySlots | lib/gnippy/compliance/compliance_api.js:107-119 | when every entry has labels, there are three emissions per entry, and entry i owns emissions 3i to 3i+2 |
| ComplianceApi.RecordEmissions | lib/gnippy/compliance/compliance_api.js:100-119 | `data` then `summary` first; `failure` third exactly when the summary's status is failure; after them comes the results' fan-out; the handler throws exactly when the summary is missing or an entry lacks labels |
| ComplianceApi.RecordFanOutSize | lib/gnippy/compliance/compliance_api.js:100-119 | a well-formed record yields `data`, `summary`, `failure` if it failed, then every entry's three events, entry after entry; that is 2, plus 1 if it failed, plus 3 per entry emissions, and nothing is thrown |
| ComplianceApi.ComplianceStream.constructor | lib/gnippy/compliance/compliance_api.js:37-65 | the platform is forced to twitter; no request is stored |
| ComplianceApi.ComplianceStream.Open | lib/gnippy/compliance/compliance_api.js:37-65 | construction fails exactly when the window check refuses the query |
| ComplianceApi.ComplianceStream.Start | lib/gnippy/compliance/compliance_api.js:68-84 | throws the identity guard's error, or stores a new request |
| ComplianceApi.ComplianceStream.OnResponse | lib/gnippy/compliance/compliance_api.js:86-124 | a non-200 status emits the coded status error; gzip wires the decoder; any other encoding emits the encoding error |
| ComplianceApi.ComplianceStream.OnRecord | lib/gnippy/compliance/compliance_api.js:95-120 | a decoded record publishes its fan-out, and a throw ends the pipe |
| ComplianceApi.ComplianceStream.End | lib/gnippy/compliance/compliance_api.js:128-135 | aborts and reports a stored request, and does nothing otherwise |
| TwitterSearch.BuildQuery | lib/gnippy/search/twitter_search.js:9-42 | accepted exactly when a query key is present, no fromDate is given and a numeric maxResults is not outside [10, 500]; a missing query key is reported first, then a fromDate; the result is the caller's query plus publisher twitter unless one was given |
| TwitterSearch.MaxResultsBounds | lib/gnippy/search/twitter_search.js:33-39 | a numeric maxResults is refused exactly outside [10, 500], with the matching message |
| TwitterSearch.NextCursorKeepsQuery | lib/gnippy/search/twitter_search.js:136-140 | setting the cursor keeps an accepted query accepted, and changes only `next` in the query string |
| TwitterSearch.PageCheck | lib/gnippy/search/twitter_search.js:123-133 | checks the account name, then the cursor, then the credentials: an empty name gives the account-name error, a set name with an empty cursor the cursor error, and a set name and cursor the identity guard's answer, so missing credentials give the credentials error; passes exactly when the identity guard passes and the cursor is non-empty |
| TwitterSearch.RecordEmissions | lib/gnippy/search/twitter_search.js:104-107 | a page yields `data`, `page:next` with the cursor, `page:is_last` (true exactly when the cursor is empty), then its verb |
| TwitterSearch.Search.constructor | lib/gnippy/search/twitter_search.js:44-69 | the query string is built once; no request is stored |
| TwitterSearch.Search.Open | lib/gnippy/search/twitter_search.js:44-69 | construction fails exactly when the query is refused, with that error |
| TwitterSearch.Search.Start | lib/gnippy/search/twitter_search.js:72-87 | throws the identity guard's error, or issues a request with the built query string |
| TwitterSearch.Search.NextPage | lib/gnippy/search/twitter_search.js:116-142 | throws a guard error, or writes the cursor into the caller's query and issues a request with the rebuilt query string |
| TwitterSearch.Search.OnResponse | lib/gnippy/search/twitter_search.js:90-113 | a non-200 status emits the coded status error; gzip wires the decoder; any other encoding emits the encoding error |
| TwitterSearch.Search.OnRecord | lib/gnippy/search/twitter_search.js:99-108 | a decoded page publishes its four emissions |
| TwitterSearch.Search.End | lib/gnippy/search/twitter_search.js:171-178 | aborts and reports a stored request, and does nothing otherwise |
| PowertrackRules.BatchSize | lib/gnippy/rules/powertrack_rules.js:40 | the batch size option, or 1000 when it is unset or zero |
| PowertrackRules.Batches | lib/gnippy/rules/powertrack_rules.js:42-46 | there is at least one batch, and no batch is larger than the batch size |
| PowertrackRules.BatchesJoin | lib/gnippy/rules/powertrack_rules.js:42-46 | the batches, joined in order, give back the rule list |
| PowertrackRules.BatchesSizes | lib/gnippy/rules/powertrack_rules.js:42-46 | every batch but the last holds exactly the batch size, and the last holds fewer |
| PowertrackRules.BatchesCount | lib/gnippy/rules/powertrack_rules.js:42-46 | n rules take floor(n / b) + 1 requests |
| PowertrackRules.TrailingEmptyBatch | lib/gnippy/rules/powertrack_rules.js:42-46 | when the batch size divides the number of rules, the last request carries no rules |
| PowertrackRules.AddErrorMessage | lib/gnippy/rules/powertrack_rules.js:103-132 | 413 gives the too-large message; 422 gives the invalid-rule message with the code and the body; any other status gives the could-not-be-added message with the code |
| PowertrackRules.AddErrorMessageCarries | lib/gnippy/rules/powertrack_rules.js:113-131 | the 422 message ends with the response body, and the generic message ends with a rendering that reads back as the status code |
| PowertrackRules.AddFailure | lib/gnippy/rules/powertrack_rules.js:76-132 | with a callback, a failed response is one callback with its coded message and no result, and a transport error is one callback with the error object; without one, the coded message is emitted as `error`, preceded only on the last batch by `request_too_large` for 413 or by `unprocessable_entity` with "Your rule is invalid. Message: " and the body for 422; a transport error is emitted as `error`, as its message on the last batch and as the error object before it |
| PowertrackRules.RemoveFailure | lib/gnippy/rules/powertrack_rules.js:225-251 | a failed response is reported once, with the coded remove error: to the callback exactly when there is one, otherwise as `error`; a transport error escapes as a throw |
| PowertrackRules.Outcome | lib/gnippy/rules/powertrack_rules.js:47-132 | success is reported only on the last batch, once; a failure is one callback with an error, or ends with an `error` emission; a transport error on remove escapes |
| PowertrackRules.SingleRuleOneRequest | lib/gnippy/rules/powertrack_rules.js:42-73 | a single rule object is never split |
| PowertrackRules.Chain | lib/gnippy/rules/powertrack_rules.js:42-66 | at least one request is sent and at most one more than there are replies; nothing is reported exactly when every reply was a success on a batch that is not the last and one request is still awaiting its reply |
| PowertrackRules.ChainFollowsBatches | lib/gnippy/rules/powertrack_rules.js:42-66 | the requests sent are a prefix of the batches, and a request after the first goes out only after a success |
| PowertrackRules.ChainAllSucceed | lib/gnippy/rules/powertrack_rules.js:47-101 | if every request succeeds, every batch is sent and success is reported once |
| PowertrackRules.ChainStopsAtFirstFailure | lib/gnippy/rules/powertrack_rules.js:47-59 | the first failure, at request k, ends the chain after k+1 requests and is what the caller hears |
| PowertrackRules.ChainAwaiting | lib/gnippy/rules/powertrack_rules.js:60-64 | while replies are outstanding, nothing is reported |
| PowertrackRules.CallbackAtMostOnce | lib/gnippy/rules/powertrack_rules.js:44-59 | the caller's callback runs at most once per chain; when the chain has ended it has run exactly once, except after a transport error on `remove`, which escapes instead |
| PowertrackRules.ListOutcome | lib/gnippy/rules/powertrack_rules.js:149-175 | an empty 2xx body gives no rules, and a non-empty one is parsed or throws on a stale json option; a failure gives the coded list error, with an empty list when there is a callback; a transport error throws |
| PowertrackRules.RulesManager.constructor | lib/gnippy/rules/powertrack_rules.js:6-26 | the platform defaults to twitter; nothing is sent |
| PowertrackRules.RulesManager.Add | lib/gnippy/rules/powertrack_rules.js:29-134 | throws the identity guard's error, or sends the POST chain: the log, the notices and the shared request options follow the chain |
| PowertrackRules.RulesManager.Remove | lib/gnippy/rules/powertrack_rules.js:178-253 | the same as Add, with DELETE and the remove error messages |
| PowertrackRules.RulesManager.SendChain | lib/gnippy/rules/powertrack_rules.js:40-86 | one request per call through the shared options; a success on a batch that is not the last calls again on the rest |
| PowertrackRules.RulesManager.List | lib/gnippy/rules/powertrack_rules.js:136-176 | throws the identity guard's error, or sends a GET that keeps the last add or remove body, and reports its outcome |

## Left out

- The HTTP transport, gzip decompression and JSON stream parsing are not modelled. A response becomes a status and an encoding, and a record arrives already decoded.
- Request timing and interleaving are not modelled. Replies and records come in the order the caller supplies them.
- `moment` and the clock are not modelled. Dates are whole minutes, and the current minute is a parameter of the Compliance query check.
- Date strings that do not parse are modelled by `QValue` with no minute value.
- A date given as a number, or as a string that `moment` reads only leniently (such as "2016"), is treated as unreadable. `moment` turns a number into a string before parsing, so a numeric `toDate` such as 201601011200 is read as a date. The code then refuses it when it is later than 5 minutes ago. The model accepts it, and `ComplianceApi.UnparseableToDatePasses` and `ComplianceApi.UnparseableFromDatePasses` hold only under this reading.
- URL templating, URL parsing and `querystring.stringify` are not modelled. A request records its query as a map.
- Debug logging (`options.debug`) is not modelled.
- TwitterSearch.BuildQuery: the 30-day range checks are not modelled. Every query with a fromDate throws a ReferenceError before it reaches them, because `moment` is not imported in that file.
- TwitterSearch.BuildQuery: a `maxResults` given as a numeric string is not coerced to a number. Only a `Number` value is range-checked.
- Null values in options and queries are not told apart from absent keys.
- A listener-less `error` event throwing inside Node is modelled only where it ends a chain: a transport error on `remove`. Other clients' `error` emissions are recorded as emissions.
- An exception raised while a stream client classifies a record happens inside the pipe, so it surfaces as an unhandled stream error. Without an `uncaughtException` handler that ends the process. The model assumes the process survives: the pipe stops and nothing more is published.
- A second `start` on a stream client replaces the stored request. The old request's late records are not modelled.
- PowertrackRules.BatchSize: a negative `batch_size` is not modelled; the option is a natural number.
- PowertrackRules.ListOutcome: a response body is its rendered string. JSON parsing of the rules is not modelled, so a parsed body stays as that string.
