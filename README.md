# Santa present delivery system — a Dafny model of its Lambda logic

The system takes children's letters to Santa and plans the Christmas Eve delivery run.
A letter image uploaded to an S3 bucket makes the bucket emit an object-created event.
The event lands on an SQS intake queue, and the queue feeds the **letter analysis
function**. For each message, that function:

- fetches the image;
- asks a Bedrock model for the wished-for present and the address;
- geocodes the address with the GSI address search;
- stores a `present` row.

A record that fails is reported back to the queue on its own. A message that keeps
failing moves to a dead-letter queue after three receives.

The **API function** serves the web client. It checks the caller's API key and reads the
depot and all presents from the database. It asks the HERE tour planner for the best
visiting order within the next Christmas Eve window, and the HERE router for the road
geometry. It stores the route and returns the ordered presents and polylines.

Modules: one per core source file, plus `Text` and `Wrappers`, which serve them all:

| module | file | models |
|---|---|---|
| `AppType` | `app_type.dfy` | `Point`, `Address`, `Present`, `Facility` records |
| `GsiApi` | `gsi_api.dfy` | `address_search`: first hit, GeoJSON coordinate swap, title |
| `HereApi` | `here_api.dfy` | `tour` (job building, delivery-id extraction) and `route` (via list, section polylines) |
| `ApiFunction` | `api_function.dfy` | the API Lambda: delivery year and window, reordering, route row, response, handler with its cached clients |
| `LetterAnalysis` | `letter_analysis.dfy` | the letter Lambda: per-record pipeline, batch failure report, handler with its cached client, settlement on the queue |
| `LetterQueue` | `letter_queue.dfy` | the intake queue and its dead-letter queue as declared in the stack, with explicit receive counts |
| `Text` | `text.dfy` | Python's `str(int)`, `int(str)`, `str.join` and `str.split` on the strings the code builds |
| `Wrappers` | `wrappers.dfy` | `Option` and `Result` |

Every call that leaves the process is a parameter: S3, Bedrock, GSI, HERE, the
parameter store, the database and the clock. Each such oracle returns a value, or
`None`/`false` when the call raises. A raised exception is an `Err` carrying the step
that raised. The database connection pool (`app_aurora.Aurora`) is the opaque `AppType.DbHandle`. The module-level `aurora` and `here` clients, kept between invocations of a
warm Lambda instance, are the fields of a handler class. Its `LambdaHandler` method
updates those fields.

## Model

| member | source | states |
|---|---|---|
| AppType.NewPoint | resources/lambda/layer/app_type.py:2-7 | latitude and longitude are stored unchanged |
| AppType.NewAddress | resources/lambda/layer/app_type.py:11-16 | the point is built from the same latitude/longitude; the address text is kept |
| AppType.NewPresent | resources/lambda/layer/app_type.py:20-33 | id and name are kept; `address.point` is the given latitude/longitude |
| AppType.NewFacility | resources/lambda/layer/app_type.py:37-50 | id and name are kept; `address.point` is the given latitude/longitude |
| GsiApi.SearchParams | resources/lambda/layer/gsi_api.py:15 | the query has the single parameter `q`, equal to the input address |
| GsiApi.AddressFromHits | resources/lambda/layer/gsi_api.py:22-24 | succeeds iff there is a first hit with at least two coordinates; latitude is `coordinates[1]`, longitude is `coordinates[0]`, address is the hit's title; the no-hit error happens exactly when the list is empty |
| GsiApi.OnlyFirstHitUsed | resources/lambda/layer/gsi_api.py:22-24 | hits after the first never change the result |
| GsiApi.AddressSearch | resources/lambda/layer/gsi_api.py:11-26 | a failed request is an error; otherwise the result is read from the hits returned for `{"q": address}` |
| Text.IntStringRoundTrip | resources/lambda/layer/here_api.py:136 | `int(str(i)) == i` for every integer |
| Text.IntToStringInjective | resources/lambda/layer/here_api.py:136 | distinct stop ids give distinct job ids |
| Text.IntToString | resources/lambda/layer/here_api.py:136 | `str(i)`: a non-empty text that starts with `-` exactly for negative integers, digits otherwise |
| Text.ParseInt | resources/lambda/layer/here_api.py:209 | `int(s)` accepts exactly a digit string or `-` followed by a digit string; a negative result comes from a text starting with `-` |
| Text.Join | resources/lambda/api-function/lambda_function.py:151 | `sep.join(xs)`: empty for no strings, the string itself for one, and starts with the first string and the separator for more |
| Text.Split | resources/lambda/api-function/lambda_function.py:160 | the reader-side inverse of the comma join stored here: `s.split(c)` always yields at least one piece, and `SplitJoin`, `JoinSplit` and `PolylinesRecoverable` make it undo `Join` |
| Text.SplitJoin | resources/lambda/api-function/lambda_function.py:158-160 | splitting a comma-join of a non-empty list of comma-free strings gives the list back |
| Text.JoinSplit | resources/lambda/api-function/lambda_function.py:158-160 | joining the pieces of a split with the separator gives the string back |
| Text.CountJoin | resources/lambda/api-function/lambda_function.py:151 | a join of n separator-free strings with a one-comma separator holds exactly n - 1 commas |
| Text.JoinLongSeparator | resources/lambda/api-function/lambda_function.py:151 | a join on `,` followed by `t` equals a join on `,` alone of the pieces with `t` put in front of every piece but the first |
| Text.SplitLongJoin | resources/lambda/api-function/lambda_function.py:151 | splitting a `", "`-style join on its first character gives the comma-free pieces back, each after the first behind the rest of the separator |
| HereApi.CreateTourJob | resources/lambda/layer/here_api.py:125-154 | the job id parses back to the stop id; one delivery at one place at the stop's location, time window `[[start, end]]`, duration 0, demand `[0]` |
| HereApi.CreateTourPlan | resources/lambda/layer/here_api.py:76-123 | the jobs are passed through; one vehicle type with one shift whose start and end are both the start point, so the tour is closed; shift times are the window; the vehicle's profile is the single declared profile |
| HereApi.TourJobs | resources/lambda/layer/here_api.py:173-179 | one job per stop, in stop order: job i's id parses back to stop i's id, and job i is one delivery at one place at stop i's location, with time window `[[start, end]]`, duration 0 and demand `[0]` |
| HereApi.BuildJobs | resources/lambda/layer/here_api.py:173-179 | the loop builds exactly `TourJobs` |
| HereApi.DeliveryIdsOfStopAppend | resources/lambda/layer/here_api.py:202-209 | the ids of a concatenation of activities are the ids of each part, in order |
| HereApi.DeliveryIdsOfStopExactly | resources/lambda/layer/here_api.py:202-209 | an id is collected iff some activity of type `delivery` carries it, so start and end activities are excluded |
| HereApi.DeliveryIdsAppend | resources/lambda/layer/here_api.py:200-211 | ids are collected stop by stop, in stop order |
| HereApi.DeliveryIdsOfStop | resources/lambda/layer/here_api.py:202-209 | the ids of one stop's `delivery` activities; never more ids than activities |
| HereApi.DeliveryIds | resources/lambda/layer/here_api.py:200-209 | every collected id comes from the delivery activities of one of the tour's stops |
| HereApi.TourIdsFromReply | resources/lambda/layer/here_api.py:194-211 | a failed request and an empty tour list give their own errors, exactly in those cases; a success reads one id per delivery activity of the first tour |
| HereApi.ParseIds | resources/lambda/layer/here_api.py:208-209 | succeeds iff every id parses as an integer; the result has one parsed value per id, in order; otherwise the error is a bad job id |
| HereApi.ParseIdsRoundTrip | resources/lambda/layer/here_api.py:199-211 | ids written with `str` come back unchanged with `int` |
| HereApi.ParseIdsFailsOnPrefix | resources/lambda/layer/here_api.py:199-211 | once an id fails to parse, the later ids cannot rescue the call |
| HereApi.StopIdsStep | resources/lambda/layer/here_api.py:202-209 | one step of the inner loop: a non-delivery activity adds nothing, a delivery with a parsable job id adds that id |
| HereApi.CollectStopIds | resources/lambda/layer/here_api.py:202-209 | the inner loop appends the parsed ids of one stop's delivery activities, or fails as `ParseIds` does |
| HereApi.CollectDeliveryIds | resources/lambda/layer/here_api.py:199-211 | the nested loops return exactly the parsed delivery ids of all stops |
| HereApi.TourCall | resources/lambda/layer/here_api.py:156-211 | `tour` sends the closed plan built from one job per stop, and returns the delivery ids of the first tour; a failed request or an empty tour list is an error |
| HereApi.TourReturnsVisitOrder | resources/lambda/layer/here_api.py:163-211 | when the planner's first tour delivers the jobs in some order, `tour` returns the stop ids in that order |
| HereApi.LatLngRecoverable | resources/lambda/layer/here_api.py:45-46 | with comma-free coordinate texts, the `lat,lng` text splits back into the two coordinates |
| HereApi.BuildVias | resources/lambda/layer/here_api.py:53-57 | the loop builds one `lat,lng` entry per waypoint, in waypoint order |
| HereApi.RouteRequest | resources/lambda/layer/here_api.py:43-62 | `via` is present iff waypoints are given, with entry i the text of waypoint i; origin, destination and the platform API key are set |
| HereApi.SectionPolylines | resources/lambda/layer/here_api.py:70-74 | one polyline per section, polyline i from section i |
| HereApi.PolylinesFromReply | resources/lambda/layer/here_api.py:64-74 | succeeds iff the request succeeded and returned a route; then one polyline per section of the first route, in section order |
| HereApi.RouteCall | resources/lambda/layer/here_api.py:33-74 | `route` sends the request above and returns the section polylines of the first route; a failed request or an empty route list is an error |
| ApiFunction.DeliveryYear | resources/lambda/api-function/lambda_function.py:95-101 | the year is this year before Dec 25 and next year from Dec 25 on; equivalently, the delivery Dec 24 is the first one not before today |
| ApiFunction.DeliveryWindow | resources/lambda/api-function/lambda_function.py:103-104 | the window runs from `{Y}-12-23T15:00:00.000Z` to `{Y}-12-24T14:59:59.000Z`, and the year prefix is exactly `str(Y)`, which parses back to Y |
| ApiFunction.DeliveryStops | resources/lambda/api-function/lambda_function.py:113-116 | one stop per present, in input order, with the present's id and point |
| ApiFunction.BuildDeliveryStops | resources/lambda/api-function/lambda_function.py:113-116 | the loop builds exactly `DeliveryStops` |
| ApiFunction.PresentIndex | resources/lambda/api-function/lambda_function.py:129 | the keys of `present_dict` are exactly the present ids |
| ApiFunction.PresentIndexValues | resources/lambda/api-function/lambda_function.py:129 | every key of `present_dict` maps to a present that has that id |
| ApiFunction.PresentIndexLastWins | resources/lambda/api-function/lambda_function.py:129 | every present id is a key; with repeated ids, the last present wins |
| ApiFunction.ReorderByTour | resources/lambda/api-function/lambda_function.py:128-134 | succeeds iff every tour id belongs to some present; the result has one present per tour id, position i holding a present whose id is tour id i; an unknown id is an error |
| ApiFunction.LookupPermutation | resources/lambda/api-function/lambda_function.py:132-134 | looking up two permutations of the same keys gives permutations of the same values |
| ApiFunction.ReorderIsPermutation | resources/lambda/api-function/lambda_function.py:128-134 | with distinct present ids, a tour order that is a permutation of the ids yields a permutation of the presents |
| ApiFunction.GetDeliveryOrderedPresent | resources/lambda/api-function/lambda_function.py:88-136 | asks for the tour over one stop per present within the next delivery window, starting from the depot, and reorders the presents by it; a failed tour is an error |
| ApiFunction.DeliveryOrderIsPermutation | resources/lambda/api-function/lambda_function.py:88-136 | when the planner visits every present once, the result is all presents rearranged into visiting order |
| ApiFunction.PointTexts | resources/lambda/api-function/lambda_function.py:146-149 | text i is `f"{lat} {lon}"` of present i, in the presents' order |
| ApiFunction.DeliveryRouteRowOf | resources/lambda/api-function/lambda_function.py:146-161 | the row carries the depot id, a text that starts with `LINESTRING (` and ends with `)`, and the polylines joined by `,`; `LinestringRecoverable` pins the points in between |
| ApiFunction.InsertDeliveryRoute | resources/lambda/api-function/lambda_function.py:139-164 | the stored row is the depot id, `LINESTRING (` + the `lat lon` texts joined by `, ` + `)`, and the polylines joined by `,` |
| ApiFunction.LinestringInner | resources/lambda/api-function/lambda_function.py:150-151 | the text between `LINESTRING (` and `)` is the point texts joined by `, ` |
| ApiFunction.LinestringRecoverable | resources/lambda/api-function/lambda_function.py:146-151 | with comma-free coordinate texts, the LINESTRING body split on `,` has one piece per ordered present, and piece i is present i's `lat lon` (behind a space after the first), in delivery order |
| ApiFunction.LinestringOnePointPerPresent | resources/lambda/api-function/lambda_function.py:146-151 | the LINESTRING has one point per ordered present: its commas are the n - 1 separators |
| ApiFunction.PolylinesRecoverable | resources/lambda/api-function/lambda_function.py:155-161 | splitting the stored polyline column on `,` gives back the non-empty polyline list |
| ApiFunction.FacilityOfRows | resources/lambda/api-function/lambda_function.py:52-65 | succeeds iff there is a row; the depot is built from the first row's id, name, point and address |
| ApiFunction.GetPresents | resources/lambda/api-function/lambda_function.py:68-85 | one present per row, in row order, with the row's id, name, point and address text |
| ApiFunction.Respond | resources/lambda/api-function/lambda_function.py:211-238 | status 200; depot and presents shown as name, address and `[lat, lon]`, presents in delivery order; the polylines passed through |
| ApiFunction.ApiKeyOf | resources/lambda/api-function/lambda_function.py:30-34 | the key is read iff the query parameters exist and contain `apiKey` |
| ApiFunction.IsInvalidApiKey | resources/lambda/api-function/lambda_function.py:37-49 | fails exactly when the stored key cannot be read; otherwise the key is accepted exactly when the stored key equals the given one |
| ApiFunction.ApiHandler.constructor | resources/lambda/api-function/lambda_function.py:26-27 | a cold instance has no database and no HERE client |
| ApiFunction.OrderedPoints | resources/lambda/api-function/lambda_function.py:201 | the points of the ordered presents, in order |
| ApiFunction.PlanDelivery | resources/lambda/api-function/lambda_function.py:188-204 | on success: the depot is the first facility row; the presents are in the order of the tour planned over all stored presents in the next delivery window from the depot, each one a stored present with the tour's id at its position; the polylines are the router's answer for depot, ordered present points, depot |
| ApiFunction.PlanSucceeds | resources/lambda/api-function/lambda_function.py:188-204 | when the selects succeed with a facility row, the tour succeeds with known ids and the route succeeds, the plan succeeds |
| ApiFunction.ApiHandler.LambdaHandler | resources/lambda/api-function/lambda_function.py:167-238 | a missing key, an unreadable stored key or an invalid key fails with its own error before any client is touched; existing clients are reused and missing ones come from their factories, whose failure fails the call; with both clients, a failed plan step fails with its error, and otherwise the route row is inserted and the answer is `Respond` over the depot, the tour-ordered presents and the polylines, or an insert error |
| LetterAnalysis.EventParamOf | resources/lambda/letter-analysis-function/lambda_function.py:51-57 | succeeds iff the body is an S3 event with at least one entry; bucket and key come from the first entry |
| LetterAnalysis.OnlyFirstEntryUsed | resources/lambda/letter-analysis-function/lambda_function.py:52-57 | entries after the first never change the parameters |
| LetterAnalysis.LetterInfoOf | resources/lambda/letter-analysis-function/lambda_function.py:91-96 | succeeds iff the reply has both `present` and `address`, and carries those two fields |
| LetterAnalysis.InsertParams | resources/lambda/letter-analysis-function/lambda_function.py:101-106 | the parameter tuple is (present name, geocoded address text, latitude, longitude) |
| LetterAnalysis.ProcessRecord | resources/lambda/letter-analysis-function/lambda_function.py:124-141 | the steps run in pipeline order and stop at the first that raises; the insert runs only after parse, fetch, analysis and geocoding all succeeded; a failure names the last step started |
| LetterAnalysis.StoredRowIsGeocoded | resources/lambda/letter-analysis-function/lambda_function.py:99-108 | a stored row is (present name from the letter, title of the first geocoder hit, its latitude, its longitude) |
| LetterAnalysis.MissingFieldFailsRecord | resources/lambda/letter-analysis-function/lambda_function.py:91-96 | a reply without `present` or `address` fails the record at the analysis step |
| LetterAnalysis.NoHitFailsRecord | resources/lambda/letter-analysis-function/lambda_function.py:132-141 | an address search without any hit fails the record at the geocoding step |
| LetterAnalysis.ParseFailureFailsRecord | resources/lambda/letter-analysis-function/lambda_function.py:51-57 | a body that is not an S3 event with an entry fails the record at the parse step |
| LetterAnalysis.FetchFailureFailsRecord | resources/lambda/letter-analysis-function/lambda_function.py:128-129 | a failed `get_object` fails the record at the fetch step |
| LetterAnalysis.AnalysisFailureFailsRecord | resources/lambda/letter-analysis-function/lambda_function.py:88-91 | a failed model call fails the record at the analysis step |
| LetterAnalysis.GeocodeFailureFailsRecord | resources/lambda/letter-analysis-function/lambda_function.py:134-135 | any failed address search fails the record at the geocoding step |
| LetterAnalysis.InsertDecidesRecord | resources/lambda/letter-analysis-function/lambda_function.py:137-141 | after the first four steps succeeded, the record is stored with `InsertParams(info, address)` exactly when that insert commits, and fails at the insert step otherwise |
| LetterAnalysis.StoredOnlyIfAllStepsSucceed | resources/lambda/letter-analysis-function/lambda_function.py:124-138 | a stored record went through every step, and the stored row is the committed `InsertParams` of its letter fields and geocoded address |
| LetterAnalysis.FailedItems | resources/lambda/letter-analysis-function/lambda_function.py:121-141 | there are never more failure entries than records |
| LetterAnalysis.InsertedRows | resources/lambda/letter-analysis-function/lambda_function.py:123-138 | one stored row per successful record, so stored rows and failure entries together number the records |
| LetterAnalysis.InsertedRowsAppend | resources/lambda/letter-analysis-function/lambda_function.py:123-138 | a batch's stored rows are its first part's followed by the rest's, in record order |
| LetterAnalysis.InsertedRowsExactly | resources/lambda/letter-analysis-function/lambda_function.py:123-138 | a row is stored iff some record of the batch succeeded with exactly that row |
| LetterAnalysis.FailedItemsAppend | resources/lambda/letter-analysis-function/lambda_function.py:123-141 | a batch's failures are its first part's failures followed by the rest's, so records are isolated and the entries keep record order |
| LetterAnalysis.FailedItemsExactly | resources/lambda/letter-analysis-function/lambda_function.py:121-142 | a message id is reported iff some record with that id failed |
| LetterAnalysis.ProcessBatch | resources/lambda/letter-analysis-function/lambda_function.py:121-142 | the loop tries every record and yields exactly the failure list and the stored rows |
| LetterAnalysis.LetterAnalysisHandler.constructor | resources/lambda/letter-analysis-function/lambda_function.py:48 | a cold instance has no database client |
| LetterAnalysis.LetterAnalysisHandler.LambdaHandler | resources/lambda/letter-analysis-function/lambda_function.py:111-142 | the database client is created only when there is none and reused otherwise; if creating it fails, the invocation fails before any record; otherwise the response lists exactly the failed records |
| LetterAnalysis.AfterInvocation | lib/backend/letter-analysis-function.ts:138-141 | settling a batch after an invocation keeps the queues valid |
| LetterAnalysis.ReportedExactly | resources/lambda/letter-analysis-function/lambda_function.py:139-141 | with distinct message ids, a record's id is reported iff that record failed |
| LetterAnalysis.StoredOrReported | resources/lambda/letter-analysis-function/lambda_function.py:121-142 | with distinct message ids, a successful record's row is stored and its id not reported, and a failed record's id is reported: never both, never neither |
| LetterAnalysis.BatchSettles | lib/backend/letter-analysis-function.ts:138-141 | after a successful invocation, the stored records are deleted and the failed ones wait again on the intake queue with their receive counts |
| LetterAnalysis.FailedInvocationKeepsBatch | lib/backend/letter-analysis-function.ts:138-141 | after a failed invocation, every message of the batch waits again on the intake queue |
| LetterQueue.OnOneQueueOnly | lib/backend/letter-analysis-function.ts:45-55 | in valid queues a message is never on two queues at once |
| LetterQueue.NoMessages | lib/backend/letter-analysis-function.ts:45-55 | the empty queues are valid for any budget and know no message |
| LetterQueue.ObjectCreated | lib/backend/letter-analysis-function.ts:58-61 | an object-created event adds one new waiting message with receive count 0 and changes nothing else |
| LetterQueue.Receive | lib/backend/letter-analysis-function.ts:49-55 | within the budget, a receive delivers with the count raised by one; a message already received the budget's number of times goes to the dead-letter queue; nothing else moves; validity is kept, so a message is on exactly one queue |
| LetterQueue.Settle | lib/backend/letter-analysis-function.ts:49-55 | a deleted message is gone; an undeleted one waits again with its count; nothing else moves |
| LetterQueue.Expire | lib/backend/letter-analysis-function.ts:49-50 | nothing becomes visible again before the visibility timeout lapses |
| LetterQueue.NoRedeliveryWhileRunning | lib/backend/letter-analysis-function.ts:115-118 | the visibility timeout is at least the function timeout, so no message is redelivered while its invocation can still run |
| LetterQueue.SettleBatch | lib/backend/letter-analysis-function.ts:138-141 | settling a batch keeps the queues valid |
| LetterQueue.SettleOther | lib/backend/letter-analysis-function.ts:138-141 | settling one message leaves every other message where it was, with its count |
| LetterQueue.SettleBatchOutside | lib/backend/letter-analysis-function.ts:138-141 | settling a batch leaves every message outside it where it was, with its count |
| LetterQueue.SettleBatchInside | lib/backend/letter-analysis-function.ts:138-141 | in a batch of distinct received messages, the reported ones wait again with their counts and the others are deleted |
| LetterQueue.SettleBatchEffect | lib/backend/letter-analysis-function.ts:138-141 | exactly the reported messages of a batch wait again, with their counts; the others are deleted; messages outside the batch do not move |
| LetterQueue.FailRounds | lib/backend/letter-analysis-function.ts:49-55 | repeated failed deliveries keep the queues valid |
| LetterQueue.FailRoundsCount | lib/backend/letter-analysis-function.ts:49-55 | each failed delivery within the budget raises the receive count by one |
| LetterQueue.AlwaysFailingIsDeadLettered | lib/backend/letter-analysis-function.ts:49-55 | a letter that always fails is delivered three times, and the fourth receive moves it to the dead-letter queue and off every other queue |
| LetterQueue.WithinBudgetIsDelivered | lib/backend/letter-analysis-function.ts:49-55 | a message received fewer than three times is delivered again, not dead-lettered |

## Left out

- Network and cloud calls are oracles passed in as parameters, each returning a value or a failure. This covers HERE, GSI, Bedrock `converse`, S3 `get_object`, SSM, Secrets Manager and the database.
- The database wrapper `app_aurora.py` is not part of this model. A select is a row list or a failure, and an insert succeeds or fails.
- Coordinates are `Coord = real` values that the model only copies and compares for equality. Their float behaviour is not modelled, and their f-string rendering is an uninterpreted parameter `render`.
- `datetime.now()` is a `today: Date` parameter. Only the date matters, because the code compares it with Dec 25 at 00:00.
- Reserved concurrency, parallel instances, real-time visibility timers and at-least-once redelivery are not modelled. The queue model stops at the receive-count-to-dead-letter rule and the timeout comparison.
- The Bedrock prompt, the model's actual answers and all logging are left out.
- CDK wiring without behaviour of its own (VPC, endpoints, API gateway, web hosting, Aurora cluster) and the Express mock server are left out.
- The letter handler assumes each SQS record has a `messageId`. A record without one would make the `except` branch itself raise, and that case is not modelled. The same holds for an event without `Records`.
- Text.ParseInt: stricter than Python's `int()`. It accepts only an optional `-` followed by digits, with no whitespace, `+` or `_`. Job ids are written by `str(int)`, so the round trip is unaffected.
- ApiFunction.PolylinesRecoverable: holds only for a non-empty polyline list. An empty list is stored as `""`, which splits back into `[""]`.
- LetterAnalysis.LetterAnalysisHandler.LambdaHandler: the `present` insert is an oracle that returns success or failure. The code issues a plain `INSERT` with no key, so a redelivered letter can be stored twice.
- The parameter-store read of the API key is one oracle value. It is read before the comparison, and if it fails the handler fails, as the code does.
- The dead-letter queue's own 30-second visibility timeout (`lib/backend/letter-analysis-function.ts:46`) is not modelled, because nothing in the system receives from the dead-letter queue.
