# BitBroker connectors, apps and test helpers, modelled in Dafny

This project models the small pieces of sequential logic in the BitBroker
repository around the catalog:

- **`Catalog`**: the catalog session client that every data connector uses
  (`BBKCatalog`). It opens a session, posts the items in pages strictly one
  after the other, and closes the session.
- **`Webhook`**: the webhook that a connector exposes to the catalog
  (`BBKWebhook`). It is modelled as a total decision table, from a request
  and what the connector's callbacks answer to an HTTP response.
- **`RdbmsConnector`** and **`FileConnector`**: the two example connectors.
  - Their record normalisers (`recordToBBKData`, `rowToBBKData`).
  - The preparation steps of their `upsert`.
  - The entity and timeseries lookups their webhooks answer with.
- **`Explorer`**: the URL logic of the Policy Based Data Explorer.
  - Classifying Consumer API URLs.
  - Mapping between an API URL and the app's own query parameters, in both
    directions.
  - The paging defaults and the paging arithmetic.
  - The curl command.
- **`MapApp`**: the helpers of the Policy Based Data Map. These are the
  request headers, the case-insensitive selection, the token merge, the
  choice of policy source and `getValue`. The window state these helpers
  update is a class.
- **`Crud`**: the shared checks of the REST test suites. These are the error
  check with its `name[3]` keys, the accepted statuses, and the comparison of
  a resource or a resource list.

Supporting modules:

- `Js`: JSON values and JavaScript truthiness, `String(v)` and `parseInt`.
- `Text`: the `String` methods the code calls.
- `Url`: URLs and `URLSearchParams`.
- `Sorting`: `sort`, `filter` and `limit`.
- `Http`: the status codes with their reason phrases from section 15 of
  RFC 9110.

How the model is built:

- Network calls are parameters.
  - A catalog request is answered by an oracle. The oracle sees the whole
    request history.
  - The database, the wikidata service, the data file and the Consumer API
    answers are all values handed in.
- JavaScript `undefined` is `None`. `null` is `JNull`.
- A thrown `TypeError` is the `Err` case of a `Result`.

Where the code and its comments disagree, the model follows the code:

- The rdbms connector's timeseries handler calls `cb([])` after a failed
  query and for any timeseries other than `population`. Its comment says this
  "will HTTP/404". But an empty array is truthy, so the webhook answers 200
  with `[]` (`RdbmsConnector.TimeseriesAlwaysOk`). The file connector does
  answer 404, because it calls back with `null`.
- In the map app, `mergeQueryParam` deletes a parameter for a falsy value and
  then returns before `history.replaceState`. So the browser URL does not
  change on a falsy value (`MapApp.MapWindow.MergeQueryParam`).

## Model

| member | source | states |
|---|---|---|
| Catalog.StripTrailingSlash | connectors/nodejs/rdbms/bbk-catalog.js:50 | the result is a prefix of the catalog URL shorter by at most one character; it is the URL itself exactly when the URL is empty or does not end in `/` |
| Catalog.SessionBaseIgnoresTrailingSlash | connectors/nodejs/rdbms/bbk-catalog.js:46-51 | a catalog URL with and without one trailing slash give the same session base |
| Catalog.CheckResponse | connectors/nodejs/rdbms/bbk-catalog.js:66-71 | a response passes exactly when it is an OK reply; a non-OK reply rejects with its text |
| Catalog.ReadJson | connectors/nodejs/rdbms/bbk-catalog.js:84-85 | resolves exactly for an OK reply whose body parses, to that JSON; a rejection of the status check is passed on unchanged |
| Catalog.BatchResult | connectors/nodejs/rdbms/bbk-catalog.js:121-123 | a batch succeeds exactly when its reply reads as JSON other than `null` (`Object.keys(null)` throws) |
| Catalog.Ids | connectors/nodejs/rdbms/bbk-catalog.js:119 | one id per item of the batch, in the batch's order |
| Catalog.Records | connectors/nodejs/rdbms/bbk-catalog.js:119 | one JSON object per item of the batch, in order |
| Catalog.BatchBodyContents | connectors/nodejs/rdbms/bbk-catalog.js:119 | a batch body is an array as long as the batch; element i is the i-th record for `upsert` and the i-th id for any other verb |
| Catalog.BatchesFlatten | connectors/nodejs/rdbms/bbk-catalog.js:108-111 | the pages, joined in order, are the items |
| Catalog.BatchesSizes | connectors/nodejs/rdbms/bbk-catalog.js:108-111 | the number of pages is ceil(n/page), and every page holds between 1 and page items |
| Catalog.BatchesPartition | connectors/nodejs/rdbms/bbk-catalog.js:108-111 | the pages concatenate back to the items in order; there are ceil(n/page) of them; each holds between 1 and page items |
| Catalog.BatchAt | connectors/nodejs/rdbms/bbk-catalog.js:108-111 | page k is exactly `items[k*page .. min((k+1)*page, n)]` |
| Catalog.TwoHundredFiftyItems | connectors/nodejs/rdbms/bbk-catalog.js:105-134 | 250 items in a session go out as three pages of 100, 100 and 50 |
| Catalog.ActionTraceLength | connectors/nodejs/rdbms/bbk-catalog.js:105-127 | an action only appends to the log, at most one request per page; a resolved action one per page; a rejected one at least one |
| Catalog.ActionTracePosts | connectors/nodejs/rdbms/bbk-catalog.js:105-127 | what an action appends is the posts of the first pages, in order |
| Catalog.ActionTraceSends | connectors/nodejs/rdbms/bbk-catalog.js:105-127 | an action issues the posts of a prefix of its pages, in page order and nothing else; a resolved action posted every page; a rejected one posted at least one; an empty list issues nothing |
| Catalog.ActionTraceStopsAtFirstFailure | connectors/nodejs/rdbms/bbk-catalog.js:112-124 | every post but the last was accepted; a rejected action ends at its first failed page and sends nothing after it |
| Catalog.ActionTraceUsesOnlyItsReplies | connectors/nodejs/rdbms/bbk-catalog.js:112-124 | two oracles that agree on the histories the action can reach give the same trace |
| Catalog.SessionOpensFirst | connectors/nodejs/rdbms/bbk-catalog.js:131-139 | a session first requests the open URL for its mode; a failed open issues nothing more and leaves the session id unchanged |
| Catalog.SessionSuccessLog | connectors/nodejs/rdbms/bbk-catalog.js:131-139 | a session that resolves issued the open, the post of every page in order, then `close/true` with the opened session id |
| Catalog.SessionFailureNeverCloses | connectors/nodejs/rdbms/bbk-catalog.js:131-139 | a session that rejects issued no close request: after the open it sent only posts |
| Catalog.SessionIgnoresCloseReply | connectors/nodejs/rdbms/bbk-catalog.js:136-138 | the session's outcome does not depend on how the close request is answered |
| Catalog.BBKCatalog.constructor | connectors/nodejs/rdbms/bbk-catalog.js:46-51 | the base is the catalog URL without its trailing slash plus `/connector/<cid>/session/`; the session id starts `null`; nothing has been sent |
| Catalog.BBKCatalog.Open | connectors/nodejs/rdbms/bbk-catalog.js:75-87 | one GET to base + `open/` + mode; on an OK JSON reply the session id becomes that JSON, otherwise it is unchanged and the rejection is returned |
| Catalog.BBKCatalog.Close | connectors/nodejs/rdbms/bbk-catalog.js:91-101 | one GET to base + sid + `/close/` + commit; the outcome is the status check of its reply; the session id is unchanged |
| Catalog.PostPages | connectors/nodejs/rdbms/bbk-catalog.js:107-126 | the loop over `start += page`, each post sent only after the previous one succeeded, issues the requests and gives the outcome of the promise chain `ActionTrace` |
| Catalog.BBKCatalog.Action | connectors/nodejs/rdbms/bbk-catalog.js:105-127 | the loop's requests and outcome equal the promise chain `ActionTrace` of the pages: posts to base + sid + `/` + verb, one page after the other |
| Catalog.BBKCatalog.Session | connectors/nodejs/rdbms/bbk-catalog.js:131-139 | the session id, the requests and the outcome are those of open, then action with page 100, then `close(true)` |
| Webhook.StdResponse | connectors/nodejs/rdbms/bbk-webhook.js:47-51 | status `code`, `text/plain`, body `"<code>: <msg>"` |
| Webhook.StdResponsesUseReasonPhrases | connectors/nodejs/rdbms/bbk-webhook.js:55-57 | the three standard responses are 400, 404 and 500, each body carrying the code and its RFC 9110 reason phrase |
| Webhook.ErrorResponse | connectors/nodejs/rdbms/bbk-webhook.js:88-96 | a `SyntaxError` gives 400, any other error 500 |
| Webhook.Reply | connectors/nodejs/rdbms/bbk-webhook.js:104 | an answered callback gives 200 exactly for a truthy value, whose JSON is the body; a falsy one gives the 404 response; a handler that throws gives the error response |
| Webhook.ReplyStatus | connectors/nodejs/rdbms/bbk-webhook.js:104 | a route answers only 200, 400, 404 or 500 |
| Webhook.TruthinessOfAnswers | connectors/nodejs/rdbms/bbk-webhook.js:104 | `[]` and `{}` give 200; `null` and `undefined` give 404 |
| Webhook.BBKWebhook.constructor | connectors/nodejs/rdbms/bbk-webhook.js:73-96 | the middleware stack is JSON body parser, cors, router, OPTIONS preflight, 404 catch-all, error handler, in that order; the routes are entity then timeseries |
| Webhook.ConstructedWebhookDispatches | connectors/nodejs/rdbms/bbk-webhook.js:73-123 | a constructed webhook answers every request as the decision table `Dispatch` says |
| Webhook.FaultThroughStandardLayers | connectors/nodejs/rdbms/bbk-webhook.js:77-96 | a body the parser rejects skips every ordinary layer and reaches the error handler |
| Webhook.RouteThroughStandardLayers | connectors/nodejs/rdbms/bbk-webhook.js:77-87 | with a parsed body and a method other than OPTIONS, the stack answers as the decision table |
| Webhook.StandardRouter | connectors/nodejs/rdbms/bbk-webhook.js:79-87 | such a request is answered by the first matching route, or 404 when none matches |
| Webhook.DispatchStatuses | connectors/nodejs/rdbms/bbk-webhook.js:73-123 | the webhook answers only 200, 204, 400, 404 or 500 |
| Webhook.BodyFaultWins | connectors/nodejs/rdbms/bbk-webhook.js:88-96 | a rejected body answers 400 for malformed JSON and 500 otherwise, as plain text, whatever the route |
| Webhook.EntityRouteIgnoresType | connectors/nodejs/rdbms/bbk-webhook.js:100-106 | two entity requests with the same `eid` get the same answer whatever their `et` |
| Webhook.EntityRouteDispatch | connectors/nodejs/rdbms/bbk-webhook.js:100-106 | an entity request is answered from `entity(eid)` |
| Webhook.TimeseriesRouteDispatch | connectors/nodejs/rdbms/bbk-webhook.js:110-122 | a timeseries request is answered from `timeseries(eid, tsid, start, end, limit)`, the last three read from the query |
| Webhook.EntityPathRoutes | connectors/nodejs/rdbms/bbk-webhook.js:100 | `GET /entity/<et>/<eid>` matches the entity route with those parameters |
| Webhook.TimeseriesPathMatches | connectors/nodejs/rdbms/bbk-webhook.js:110 | `GET /timeseries/<et>/<eid>/<tsid>` matches the timeseries route and not the entity route |
| Webhook.TimeseriesPathRoutes | connectors/nodejs/rdbms/bbk-webhook.js:110-122 | that request is answered by the timeseries handler for `eid` and `tsid` |
| Webhook.TimeseriesWithoutIdMatches | connectors/nodejs/rdbms/bbk-webhook.js:110 | `GET /timeseries/<et>/<eid>` matches the timeseries route without a `tsid` |
| Webhook.TimeseriesWithoutIdRoutes | connectors/nodejs/rdbms/bbk-webhook.js:110-122 | that request is answered by the timeseries handler with an undefined `tsid` |
| Webhook.UnmatchedIsNotFound | connectors/nodejs/rdbms/bbk-webhook.js:87 | a request that neither route matches is answered 404 |
| Webhook.BaseHandlersAlwaysNotFound | connectors/nodejs/rdbms/bbk-webhook.js:61-69 | with the base class's handlers, every routed request is answered 404 |
| RdbmsConnector.RewriteRef | connectors/nodejs/rdbms/index.js:85-91 | the keys are kept and only the reference property changes; a `bbk://` string has its first `{cid}` replaced; a truthy non-string value throws |
| RdbmsConnector.RecordToBBKData | connectors/nodejs/rdbms/index.js:81-97 | the properties plus `id`, less `_wikidata`; `id` is the string form of the row id; other properties are kept unless rewritten; without both variables set it never fails |
| RdbmsConnector.RecordRefRewritten | connectors/nodejs/rdbms/index.js:85-91 | with both variables set, a `bbk://` reference has its `{cid}` replaced by the configured connector id |
| RdbmsConnector.CategoryOf | connectors/nodejs/rdbms/index.js:117 | reading `i.entity.category` throws exactly when `entity` is missing or `null` |
| RdbmsConnector.KeepCategoryIsFilter | connectors/nodejs/rdbms/index.js:116-120 | the category filter throws exactly when some item lacks `entity`; otherwise it is the list filter of that test |
| RdbmsConnector.FilterItems | connectors/nodejs/rdbms/index.js:116-120 | FILTER `CATEGORY_EQ_NATURAL` keeps the natural items, `CATEGORY_EQ_CULTURAL` the cultural ones; any other value keeps all |
| RdbmsConnector.MapRecords | connectors/nodejs/rdbms/index.js:115 | succeeds exactly when every record normalises; it then gives one item per row, in order |
| RdbmsConnector.UnfilteredUploadsEveryRecord | connectors/nodejs/rdbms/index.js:113-121 | without a filter or a rewrite, every row is uploaded as its normalised record, in order |
| RdbmsConnector.Upsert | connectors/nodejs/rdbms/index.js:110-134 | a failed query or a throwing preparation step sends nothing; otherwise a stream session upserts exactly the prepared items |
| RdbmsConnector.FlagOf | connectors/nodejs/rdbms/index.js:168 | the optional chain gives undefined when `results` is nullish |
| RdbmsConnector.FlagOfBinding | connectors/nodejs/rdbms/index.js:168-169 | a SPARQL reply whose first binding has a flag gives that flag's value |
| RdbmsConnector.SetFlag | connectors/nodejs/rdbms/index.js:169 | setting `entity.flag` succeeds exactly when `entity` is an object or an array; it sets the flag on an object and leaves an array's record unchanged |
| RdbmsConnector.EntityMissing | connectors/nodejs/rdbms/index.js:177-187 | no row, or a failed query, answers `null` |
| RdbmsConnector.EntityWithoutReference | connectors/nodejs/rdbms/index.js:173-176 | a row without `_wikidata` answers its normalised record |
| RdbmsConnector.EnrichmentFailureIsNull | connectors/nodejs/rdbms/index.js:154-187 | with a `_wikidata` reference, a failed enrichment request answers `null` |
| RdbmsConnector.EnrichedEntity | connectors/nodejs/rdbms/index.js:166-171 | the enriched record gets the flag exactly when the reply defines one |
| RdbmsConnector.ByFromIsTotalPreorder | connectors/nodejs/rdbms/index.js:200 | ordering by `from` is total and transitive, so the sort is ordered |
| RdbmsConnector.PopulationRowsSpec | connectors/nodejs/rdbms/index.js:200-213 | the population rows are rows of the table, in the window (start inclusive, end exclusive), ascending by year, at most `limit` of them, and the least such rows |
| RdbmsConnector.EmptyWindow | connectors/nodejs/rdbms/index.js:203-209 | a window whose start equals its end holds no row |
| RdbmsConnector.RowsJson | connectors/nodejs/rdbms/index.js:200 | one `{from, value}` object per row, in order |
| RdbmsConnector.Timeseries | connectors/nodejs/rdbms/index.js:197-225 | always an array: the population rows for `population` and a successful query, `[]` otherwise |
| RdbmsConnector.ReadQuery | connectors/nodejs/rdbms/index.js:203-213 | a start, end or limit filter applies exactly when its query value is truthy |
| RdbmsConnector.UnknownEntityIsNotFound | connectors/nodejs/rdbms/index.js:177-179 | through the webhook, an unknown entity is answered 404 |
| RdbmsConnector.TimeseriesAlwaysOk | connectors/nodejs/rdbms/index.js:215-224 | through the webhook, every timeseries request is answered 200 with a JSON array |
| FileConnector.DestinationByPrefix | connectors/nodejs/file/index.js:74-86 | `id` and `name` stay; `entity/k` goes to `entity.k`, `instance/k` to `instance.k`, anything else to `entity` under its own name |
| FileConnector.CollectKeys | connectors/nodejs/file/index.js:73-89 | a part holds a name exactly when some column moves there |
| FileConnector.CollectLastWriter | connectors/nodejs/file/index.js:80-85 | that name holds the value of the last such column |
| FileConnector.WithLocation | connectors/nodejs/file/index.js:90-101 | with both coordinates, `longitude` and `latitude` are replaced by a GeoJSON point `[longitude, latitude]`; otherwise the entity is unchanged |
| FileConnector.RowToBBKDataSpec | connectors/nodejs/file/index.js:69-102 | throws exactly when the row has an `entity` column, an `instance/` column after its `instance` column, or a column moved into the entity as `hasOwnProperty` |
| FileConnector.RowToBBKDataErrors | connectors/nodejs/file/index.js:80-90 | a write into a moved part throws in the loop, before the `hasOwnProperty` test after it can |
| FileConnector.InstanceAfterInstanceIff | connectors/nodejs/file/index.js:81-87 | the scan finds exactly an `instance` column followed by an `instance/` column |
| FileConnector.ShadowsHasOwnPropertyIff | connectors/nodejs/file/index.js:78-90 | a `hasOwnProperty` or `entity/hasOwnProperty` column is exactly what puts a `hasOwnProperty` field into the entity |
| FileConnector.HasOwnPropertyDestination | connectors/nodejs/file/index.js:78-86 | exactly those two column names move into the entity as `hasOwnProperty` |
| FileConnector.InstanceThenInstanceColumnFails | connectors/nodejs/file/index.js:72-87 | the row `instance`, `instance/x` throws when `instance/x` is written into the moved instance object |
| FileConnector.InstanceColumnThenInstanceFills | connectors/nodejs/file/index.js:72-87 | in the order `instance/x`, `instance` the row reshapes, with the filled instance object inside the entity |
| FileConnector.HasOwnPropertyColumnFails | connectors/nodejs/file/index.js:84-90 | a `hasOwnProperty` column makes the coordinate test call a string, which throws |
| FileConnector.RowShape | connectors/nodejs/file/index.js:69-102 | a reshaped row keeps only `id` and `name` at the top, with their values, beside the `entity` and `instance` objects (no `instance` object when a column of that name moved it into the entity, which then comes after every `instance/` column) |
| FileConnector.MoveStep | connectors/nodejs/file/index.js:74-88 | moving one column: `id` and `name` stay; any other column is copied into its part and deleted from the top |
| FileConnector.MoveColumns | connectors/nodejs/file/index.js:73-89 | the loop over the key snapshot runs through exactly when no column is written into a part an earlier column moved out of the row; it then leaves the top without the moved columns, and the two parts as collected |
| FileConnector.LoopFailure | connectors/nodejs/file/index.js:73-89 | the loop throws only on a row with an `entity` column or an `instance/` column after its `instance` column |
| FileConnector.LoopSuccess | connectors/nodejs/file/index.js:73-89 | a loop that runs through saw no `instance/` column after the `instance` column |
| FileConnector.MoveColumn | connectors/nodejs/file/index.js:74-88 | one turn of the loop throws exactly when its part's object has left the row; otherwise it carries the collected parts and the remaining top from the first i columns to the first i + 1 |
| FileConnector.TopAfterMoving | connectors/nodejs/file/index.js:73-89 | after the loop the top keeps `id` and `name` and nothing else of the row |
| FileConnector.RowToBBKData | connectors/nodejs/file/index.js:69-102 | the imperative reshaping gives the same row, or the same error, as the specification |
| FileConnector.InstanceColumn | connectors/nodejs/file/index.js:81-83 | only `instance/` columns move into the instance object |
| FileConnector.InstanceKeys | connectors/nodejs/file/index.js:81-83 | the instance object holds one field per `instance/` column name |
| FileConnector.InstanceField | connectors/nodejs/file/index.js:81-83 | each instance field has the value of the last column of that name |
| FileConnector.EntityKeys | connectors/nodejs/file/index.js:78-101 | the entity object holds the names moved into it, with `location` instead of the coordinates when both are present |
| FileConnector.EntityField | connectors/nodejs/file/index.js:78-86 | each other entity field has the value of the last column of that name |
| FileConnector.EntityLocation | connectors/nodejs/file/index.js:90-97 | the location is the point of the last longitude and latitude columns |
| FileConnector.Strip | connectors/nodejs/file/index.js:128 | the object less `_population` and `_wikidata`, every other field kept |
| FileConnector.StripElement | connectors/nodejs/file/index.js:128 | destructuring throws exactly on `null`; an object is stripped |
| FileConnector.StripElements | connectors/nodejs/file/index.js:128 | succeeds exactly when no element is `null`; then one stripped object per element |
| FileConnector.StripItems | connectors/nodejs/file/index.js:128 | a non-array has no `map` and throws; an array is stripped element by element |
| FileConnector.SheetItems | connectors/nodejs/file/index.js:122 | the sheet succeeds exactly when every row reshapes; then one item per row, in order |
| FileConnector.StripAll | connectors/nodejs/file/index.js:128 | one stripped object per object, in order |
| FileConnector.JsonRecordsPassThrough | connectors/nodejs/file/index.js:110-129 | a JSON file of objects is loaded record for record, less the private fields |
| FileConnector.SheetStripChangesNothing | connectors/nodejs/file/index.js:114-128 | on the spreadsheet path, stripping leaves the reshaped rows unchanged |
| FileConnector.ShapeRows | connectors/nodejs/file/index.js:122 | the `forEach` over the rows succeeds exactly when the sheet does, with the same items |
| FileConnector.FindById | connectors/nodejs/file/index.js:158 | the first record whose id is strictly equal to `eid`, or none when no record has it |
| FileConnector.EntityLookup | connectors/nodejs/file/index.js:156-164 | through the webhook, an entity request answers 200 with the first record of that id, and 404 when there is none |
| FileConnector.TimeseriesNotFound | connectors/nodejs/file/index.js:174-177 | through the webhook, every timeseries request is answered 404 |
| FileConnector.FileConnector.constructor | connectors/nodejs/file/index.js:56 | the loaded data starts empty |
| FileConnector.FileConnector.Upsert | connectors/nodejs/file/index.js:106-141 | a failed load keeps the old data and sends nothing; otherwise the data becomes the loaded items and a stream session upserts them |
| Explorer.ApiPath | apps/explorer/index.js:730-736 | there are segments exactly when the URL starts with the base URL, and then at least one |
| Explorer.BbkUrlTypeRules | apps/explorer/index.js:774-796 | a URL outside the base is unclassified; otherwise a first segment starting `catalog` is a catalog call, one starting neither `catalog` nor `entity` is unclassified, an `entity…` path of at most two segments is a type call, and one of more than four whose fourth starts `timeseries` is a timeseries call |
| Explorer.ExtractTimeSeriesName | apps/explorer/index.js:213-219 | the last segment cut before its first `?`; empty when it has no `?` |
| Explorer.CutAtQuery | apps/explorer/index.js:746-748 | the string before its first `?`, or all of it |
| Explorer.Merge | apps/explorer/index.js:708-714 | every parameter after the merge is the merged name or one that was there before |
| Explorer.MergeGet | apps/explorer/index.js:708-714 | the name then reads as a truthy value and is absent for a falsy one; every other name reads as before |
| Explorer.MergeQueryParam | apps/explorer/index.js:708-714 | the parameter list becomes the merge of the old one |
| Explorer.ClearParams | apps/explorer/index.js:722-724 | the corrected clearing loop leaves no parameter |
| Explorer.AppParamsNames | apps/explorer/index.js:719-769 | with the corrected clearing, the app URL holds only the app's own parameters, whatever the address bar held before |
| Explorer.AppParamsPolicy | apps/explorer/index.js:719-769 | the app URL carries the policy exactly when it is set |
| Explorer.EntityParamsKeep | apps/explorer/index.js:743-765 | the entity branch leaves every parameter but type, id and timeseries unchanged |
| Explorer.AppParamsCatalogOnly | apps/explorer/index.js:737-742 | only a catalog call puts `q` in the app URL |
| Explorer.AppParamsFails | apps/explorer/index.js:743-748 | building the app URL throws exactly for an `entity` path of one segment |
| Explorer.PagingDefaultsFillGaps | apps/explorer/index.js:440-473 | catalog and type calls get `limit` and offset 0 when absent; timeseries calls get the timeseries limit; present and other parameters are kept |
| Explorer.FirstPageDisablesPrevious | apps/explorer/index.js:453-463 | the previous buttons are disabled exactly when the given or defaulted offset parses to 0 |
| Explorer.FetchPagedPlainUrl | apps/explorer/index.js:441-451 | a query-free catalog or type URL is fetched with `?limit=<default>&offset=0` appended |
| Explorer.FetchTimeseriesPlainUrl | apps/explorer/index.js:466-473 | a query-free timeseries URL is fetched with `?limit=<timeseries limit>` appended |
| Explorer.PageOffset | apps/explorer/index.js:580-593 | the current offset (0 when absent) plus the limit going up, minus the limit but at least 0 going down; `NaN` stays `NaN` |
| Explorer.NextOffset | apps/explorer/index.js:580-593 | the step-by-step offset update of `page(up)` computes exactly that offset from the URL's `offset` parameter |
| Explorer.MoveBy | apps/explorer/index.js:586-593 | the offset moves up by the limit, or down by it but not below 0; `NaN` stays `NaN` |
| Explorer.PagedQueryValues | apps/explorer/index.js:594-595 | a page sets the moved offset and the default limit and keeps every other parameter |
| Explorer.PagedOffsetValue | apps/explorer/index.js:580-595 | from offset o, a page writes o + limit going up and max(0, o - limit) going down |
| Explorer.PageOffsetOf | apps/explorer/index.js:580-593 | the same arithmetic on the offset value itself |
| Explorer.PageUpThenDown | apps/explorer/index.js:575-596 | from a non-negative offset, a page up and then a page down return to it |
| Explorer.PageDownToFirstPage | apps/explorer/index.js:586-593 | a page down from an offset at most the limit lands on offset 0, which disables the previous buttons |
| Explorer.CurlCommandText | apps/explorer/index.js:672-694 | the command is `curl "<url>" -X GET -H x-bbk-auth-token:<token>`, followed by ` -H x-bbk-audience:<policy>` exactly in dev-shim mode |
| Explorer.CurlRepeatsFetch | apps/explorer/index.js:672-694 | the curl command carries the same URL, method and headers as the request `consumerAPIFetch` sends |
| Explorer.HandleUrl | apps/explorer/index.js:825-837 | a URL is built exactly when the policy is truthy and there is a catalog query or an entity type |
| Explorer.EntityInstanceUrls | apps/explorer/index.js:832 | the instance URL splits into its three segments, is an instance call and is fetched unchanged |
| Explorer.CatalogRoundTrip | apps/explorer/index.js:825-837 | a catalog query in the address bar builds a catalog URL; its fetched form maps back to the same policy and query, which wins over any entity parameter |
| Explorer.EntityTypeRoundTrip | apps/explorer/index.js:825-837 | an entity type builds a type URL; its fetched form maps back to the same policy and type |
| Explorer.EntityInstanceRoundTrip | apps/explorer/index.js:825-837 | an entity type and id build an instance URL that maps back to the same policy, type and id |
| Explorer.TimeseriesRoundTrip | apps/explorer/index.js:825-837 | type, id and timeseries build a timeseries URL that maps back to the same four parameters; the name shown for it is the one asked for |
| Explorer.FetchTarget | apps/explorer/index.js:438-473 | the URL to fetch is the one with the paging defaults; for catalog and type calls the previous buttons are disabled exactly on the first page |
| Explorer.PagedParams | apps/explorer/index.js:580-595 | the offset arithmetic of `page` computes the paged query |
| Explorer.NextPageUrl | apps/explorer/index.js:576-595 | the URL `page` fetches next is the previous URL with the paged query |
| Explorer.Explorer.constructor | apps/explorer/index.js:102-111 | the base URL and dev-shim mode come from the configuration; no token, policy or previous URL; nothing fetched |
| Explorer.Explorer.SelectPolicy | apps/explorer/index.js:902-903 | the clicked policy's token and id become current; nothing else changes |
| Explorer.Explorer.TokenChanged | apps/explorer/index.js:949-950 | a value typed into the token input becomes the token; nothing else changes |
| Explorer.Explorer.BbkUrlToAppUrl | apps/explorer/index.js:719-769 | a fresh parameter list holding the app parameters of the URL, or the TypeError exactly when those throw |
| Explorer.Explorer.ConsumerApiFetch | apps/explorer/index.js:419-479 | the previous buttons follow the offset; unless the app URL throws, the address bar shows the app URL, `previousUrl` is the fetched URL, and the request with the current headers is appended |
| Explorer.Explorer.Page | apps/explorer/index.js:575-596 | a catalog or type page fetches the paged URL of the previous URL, with the effects of a fetch |
| Explorer.Explorer.HandleUrlParams | apps/explorer/index.js:807-844 | without a buildable URL nothing changes; otherwise the built URL is fetched |
| MapApp.Headers | apps/map/script.js:21-29 | the auth token is always the policy's token; the audience, the policy's id, is present exactly in dev-shim mode; no other header |
| MapApp.SameHeadersAsExplorer | apps/map/script.js:21-29 | for a string token and id the map sends the same headers as the explorer |
| MapApp.MergedUrlGet | apps/map/script.js:31-40 | the address is kept; the name reads as a truthy value, or as before for a falsy one; other names read as before |
| MapApp.Find | apps/map/script.js:43 | the first element whose key is the target, or where a callback throws; every earlier element was compared without a match |
| MapApp.NotFoundIffNoMatch | apps/map/script.js:43 | nothing is found exactly when every callback runs and none matches |
| MapApp.FindsIdInAnyCase | apps/map/script.js:42-46 | an element whose id equals the value up to case is selected when no earlier element matches |
| MapApp.FirstWithId | apps/map/script.js:150 | -1, or the first configured policy strictly equal in id; no earlier one is |
| MapApp.ConfigTokenOfFirst | apps/map/script.js:150 | the token is that of the first configured policy with the id |
| MapApp.ConfigTokenMissing | apps/map/script.js:150 | with no configured policy of that id the token is `null` |
| MapApp.MergeTokens | apps/map/script.js:147-151 | same length and order; each policy keeps every field but `token`, which is the configured token of its id |
| MapApp.MergeTokensIdempotent | apps/map/script.js:147-151 | merging the tokens twice is merging once |
| MapApp.TruthyFlagAsksCoordinator | apps/map/script.js:154-160 | a flag that is only truthy, such as `"true"` or 1, still asks the coordinator |
| MapApp.ValuesInOrder | apps/map/script.js:56 | for an order naming only keys of the object, one value per name, in that order |
| MapApp.KeyOrderLength | apps/map/script.js:56 | a creation order, which names every key exactly once, is as long as the object has properties |
| MapApp.ObjectValues | apps/map/script.js:56 | for a creation order, `Object.values` gives one value per property, the i-th that of the i-th key, and every property's value occurs |
| MapApp.GetValue | apps/map/script.js:55-57 | `null` throws; an array or a primitive is returned unchanged; an object gives an array of its values, one per property, in creation order |
| MapApp.GetValueIdempotent | apps/map/script.js:55-57 | applying `getValue` to its own result changes nothing |
| MapApp.MapWindow.constructor | apps/map/script.js:18 | no entities, policies, selections or markers, and the no-data banner hidden |
| MapApp.MapWindow.MergeQueryParam | apps/map/script.js:31-40 | the browser URL becomes the merged URL (unchanged for a falsy value); nothing else changes |
| MapApp.MapWindow.EntitySelectionChanged | apps/map/script.js:42-46 | the selected entity is the first whose id equals the value up to case, or undefined, and the browser URL records its id; a callback that throws on a non-string id changes nothing |
| MapApp.MapWindow.RefreshEntities | apps/map/script.js:130-142 | without a selected policy the headers throw; otherwise the entities are the answer and the first one is selected |
| MapApp.MapWindow.PolicySelectionChanged | apps/map/script.js:48-53 | the selected policy is the first whose id equals the value up to case, and the browser URL records its id; a found policy refreshes the entities, while no match makes `headers` throw; a throwing callback changes nothing |
| MapApp.MapWindow.RefreshPolicies | apps/map/script.js:162-180 | the policies become those `getPolicies` gives |
| MapApp.MapWindow.GetData | apps/map/script.js:61-106 | without both selections nothing changes; otherwise the markers are shown, the banner is visible exactly when there are none, and the map is fitted only to a non-empty group |
| Crud.Exists | tests/lib/crud.js:200-202 | true exactly for status 200 or 204 |
| Crud.OkResponseExists | tests/lib/crud.js:188-196 | a response `get`, `update` or `post` accepts is one `exists` reports, and 201 is never accepted |
| Crud.FirstBracket | tests/lib/crud.js:66 | the first position where a `[digits]` group starts; none starts earlier |
| Crud.ParseKey | tests/lib/crud.js:66-70 | without a group the key is the property with no index; otherwise the index is the first group's number and the name is the property with that group removed |
| Crud.ParsePlainKey | tests/lib/crud.js:66-70 | a name without `[` is read as itself with no index |
| Crud.ParseGroupKey | tests/lib/crud.js:66-70 | a name without `[` followed by `[digits]` is read as that name with the digits' value as index |
| Crud.ParseIndexedKey | tests/lib/crud.js:66-70 | `name[n]` is read as that name with index n |
| Crud.ParseKeyText | tests/lib/crud.js:66-70 | reading back the text of a key gives the key |
| Crud.CapitalFragmentNeverMatches | tests/lib/crud.js:72-76 | a fragment with a capital letter never matches, since only the reason is lower-cased |
| Crud.FindMessageMeaning | tests/lib/crud.js:72-76 | found means some message matches; not found means every message was compared without a match; a TypeError comes from some message |
| Crud.FoundIffSomeMatch | tests/lib/crud.js:72-78 | when every reason read is a string, the message is found exactly when some message matches |
| Crud.AllListed | tests/lib/crud.js:58-62 | the loop accepts exactly when every message has a `name`, an `index` and a `reason` |
| Crud.FoundEach | tests/lib/crud.js:66-79 | the loop over one expected error's properties passes exactly when each property is found in the messages |
| Crud.FoundAll | tests/lib/crud.js:65-80 | the loop over the expected errors passes exactly when every property of every one is found |
| Crud.CheckError | tests/lib/crud.js:47-83 | the loops pass exactly when the envelope, the message shape, every expected error and the status all hold |
| Crud.NoExpectedErrors | tests/lib/crud.js:47-83 | with no expected errors, the check is the envelope and the status alone |
| Crud.SubsetReflexive | tests/lib/crud.js:221 | every value contains itself as a subset |
| Crud.DeepMatchIsSubsetMatch | tests/lib/crud.js:221 | whatever the deep comparison accepts, the subset comparison accepts too |
| Crud.EchoPassesVerify | tests/lib/crud.js:217-225 | a server answering 200 with the resource itself passes `verify` in either mode |
| Crud.VerifyModes | tests/lib/crud.js:217-225 | in deep mode `verify` passes exactly for a 200 whose body is the resource; what passes deep mode passes subset mode |
| Crud.InOrderAnswerPasses | tests/lib/crud.js:229-242 | a server that answers the resources in id order passes `verify_all`, in either mode |
| Crud.VerifyAll | tests/lib/crud.js:229-242 | the caller's array is sorted in place by id; the check passes exactly when the body lists the sorted resources |
| Crud.MatchAll | tests/lib/crud.js:234-239 | the loop passes exactly when the body is an array as long as the list and element i matches resource i |
| Js.Get | apps/map/script.js:23 | a property (and, in the webhook, a query parameter) is defined exactly when the object has it, with that value |
| Js.NullableToJsString | apps/explorer/index.js:685 | a string is inserted as itself, an unset global as `null` |
| Js.ParseIntOfIntToString | apps/explorer/index.js:583 | `parseInt` reads back every integer JavaScript prints |
| Text.IndexOf | apps/explorer/index.js:217 | -1 or the first position at which the pattern occurs |
| Text.IndexOfZeroIsPrefix | apps/explorer/index.js:730-737 | `indexOf(p) == 0` holds exactly when p is a prefix |
| Text.BeforeChar | apps/explorer/index.js:746-748 | a prefix free of the character, ending just before its first occurrence |
| Text.Split | apps/explorer/index.js:736 | never empty, and no part holds the separator |
| Text.JoinSplit | apps/explorer/index.js:736 | joining the parts of a split gives the string back |
| Text.SplitJoin | apps/explorer/index.js:736 | splitting a join of separator-free parts gives the parts back |
| Text.Substring | apps/explorer/index.js:217 | the slice between the two ends, taken in increasing order and each clamped into the string, so `substring(0, -1)` is empty |
| Text.Expand | connectors/nodejs/rdbms/index.js:88 | the replacement text `replace` inserts: `$$`, `$&`, `` $` `` and `$'` expanded; a replacement without `$` is inserted as it is |
| Text.ReplaceFirst | connectors/nodejs/rdbms/index.js:88 | unchanged without an occurrence; otherwise the text before and after the first occurrence is kept and the occurrence becomes the expanded replacement |
| Text.ReplaceFirstLiteral | connectors/nodejs/rdbms/index.js:88 | a `$`-free replacement takes the place of the first occurrence |
| Text.ReplaceByMatchKeeps | connectors/nodejs/rdbms/index.js:88 | replacing an occurring pattern by `$&` gives the string back |
| Text.Lower | tests/lib/crud.js:75 | same length, each ASCII letter lower-cased |
| Text.NatToString | connectors/nodejs/rdbms/bbk-webhook.js:50 | decimal digits without a leading zero that read back as the number |
| Url.GetParam | apps/explorer/index.js:443 | a value only when a pair of that name exists; none when no pair has the name |
| Url.GetParamFirst | apps/explorer/index.js:443 | the value is that of the first pair with the name |
| Url.DeleteParam | apps/explorer/index.js:710 | every pair of that name removed, every other pair kept |
| Url.DeleteParamIsFilter | apps/explorer/index.js:710 | `delete` is the filter that keeps the pairs of other names, so they keep their order and repetitions |
| Url.DeleteParamGet | apps/explorer/index.js:710 | after `delete` the name has no value and other names read as before |
| Url.SetParamGet | apps/explorer/index.js:713 | after `set` the name reads as the new value and other names read as before |
| Url.SearchParams.Set | apps/explorer/index.js:713 | the pairs become those of `set` |
| Url.SearchParams.Delete | apps/explorer/index.js:710 | the pairs become those of `delete` |
| Url.ParseUrl | apps/explorer/index.js:442 | the address is the part before the first `?` |
| Url.ParseHref | apps/explorer/index.js:442-451 | reading back a serialised URL gives the same address and parameters |
| Sorting.SortBy | tests/lib/crud.js:230 | a permutation of the list |
| Sorting.SortBySorted | tests/lib/crud.js:230 | under a total preorder the sorted list is ordered |
| Sorting.Filter | connectors/nodejs/rdbms/index.js:117 | at most as long; every kept element passes; every passing element is kept |
| Sorting.FilterAppend | connectors/nodejs/rdbms/index.js:117 | filtering distributes over concatenation, so relative order is kept |
| Sorting.FilterKeepsAll | connectors/nodejs/rdbms/index.js:117 | a list whose elements all pass is kept whole |
| Sorting.Take | connectors/nodejs/rdbms/index.js:211-213 | a prefix of length min(n, length) |
| Sorting.TakeSortedIsLeast | connectors/nodejs/rdbms/index.js:211-213 | the first n of a sorted list are sorted and precede every later element |

## Left out

- I/O and the network. `fetch`, express, body-parser, cors, chakram, knex,
  XLSX and the wikidata SPARQL service are not modelled. Their answers are
  parameters: the catalog oracle, the database rows, the download, the SPARQL
  reply and the Consumer API answers.
- Logging. The `console` output and the `Error` with its stack that the
  connectors build in their `catch` handlers are not modelled. A caught
  failure ends the run as an outcome.
- Concurrency. `Promise.all` in `delete_all` and the parallel fetches of the
  map's `getData` are not modelled. Promise chains are sequential traces.
- The DOM, the charts and the Leaflet markers. Rendering, drop-downs, the
  clipboard and the spinner are not modelled. A marker is a value, and the
  map's banner and fitted groups are fields.
- The meaning of the session modes `stream`, `accrue` and `replace`. The code
  only places the mode in a URL.
- Numbers are integers. Floating point, `Math.round` and the explorer's limit
  input (apps/explorer/index.js:952-962) are not modelled.
- Changing the explorer's configuration while it runs is not modelled. The
  dev-mode checkbox (apps/explorer/index.js:963-966) and the base-URL input
  (apps/explorer/index.js:969-970) would change `devShimMode` and `baseURL`.
  Here both are constants from the configuration. `parseInt` reads
  decimal digits only: hexadecimal prefixes and fractions are not modelled.
- Strings are characters. Percent-encoding, `encodeURIComponent` of the
  catalog query, `+` for a space and `#` fragments are not modelled.
  `toLowerCase` is modelled on ASCII letters only.
- URL normalisation by `new URL(...)` (apps/explorer/index.js:442, 467, 576,
  720, 738) is not modelled: `Url.ParseUrl` and `Url.ParseHref` are total
  and always re-serialise, so the lower-cased host, the dropped default
  port, the `/` path added to a bare origin, the href kept as it was when
  its query is untouched, and the exception on an invalid or relative URL
  are not captured.
- `moment(start).year()`. The rdbms timeseries handler takes the start and
  end years as functions given to the model.
- `localeCompare` with numeric collation. `verify_all` takes an abstract
  comparator `le`.
- `Object.values` and property enumeration order. They are an explicit key
  order given to the model, which names every key exactly once
  (`MapApp.KeyOrder`). JavaScript's rule that integer-like keys come first,
  in ascending order, is not modelled.
- lodash `_.get`/`_.set` deep paths. `ENTITY_REF_PROP` is a single top-level
  key.
- The other network helpers of the test class are not modelled: `add`,
  `delete`, `not_found`, `duplicate`, `bad_request`, `unauthorized`,
  `forbidden`, `server_error`, `add_del`, `headers` and `delete_all`. Each is
  one request followed by status assertions. `update` is covered by the
  status check that `Crud.OkResponseExists` states.
- tests/consumer.js, tests/connector.js, tests/lib/shared.js and tests/all.js
  are live-server scripts and a test runner. They are not part of this model.
- Catalog.BBKCatalog.Action: requires `page > 0`. With `page <= 0` the
  loop in `action` never ends.
- Explorer.Explorer.Page: requires that the previous URL is not a timeseries
  call. The timeseries branch (apps/explorer/index.js:597-633) is date
  arithmetic with moment and is left out.
- Explorer.Explorer.ConsumerApiFetch: stops at the `fetch`. Reading the
  response, `latestTimeseries`/`earliestTimeseries` and the rendering are not
  modelled.
- Explorer.Explorer.HandleUrlParams: the drop-down click that sets the token
  and policy is the separate method `SelectPolicy`. The query is not
  percent-encoded.
- Explorer.CatalogRoundTrip, Explorer.EntityTypeRoundTrip,
  Explorer.EntityInstanceRoundTrip, Explorer.TimeseriesRoundTrip: the round
  trips are stated only for a base URL without `?` and for values that are
  non-empty path segments without `/` or `?`. A catalog query must also have
  no `&`. Other values need the percent-encoding that is not modelled.
- Crud.SubsetReflexive, Crud.DeepMatchIsSubsetMatch: `containSubset` is
  modelled on JSON values. An expected object's properties must be contained
  property by property. Each expected array element must be contained in some
  actual element. Index and `length` properties of arrays, dates and functions
  are not modelled.
- Webhook.Reply: the `etag` and `x-powered-by` headers are not modelled.
- Repeated query keys in webhook requests. A query value is a single
  string here. The query parser of express makes a repeated key an array
  and `a[b]=` an object. Such values would reach the timeseries handler as
  its start, end or limit.
- Crud.CheckError: the reason phrases come from a table of the codes the
  tests use (200, 201, 204, 400, 401, 403, 404, 409, 500). For any other
  code the model's check fails. `getReasonPhrase` knows more codes, such as
  422 and 503, and for those the real check can pass.
- Explorer.AppParamsNames: stated of the corrected `Explorer.ClearParams`
  from the Findings table. As written (`Explorer.ClearParamsAsWritten`),
  every second old parameter survives the clearing loop and stays in the app
  URL.
- Explorer.Explorer.BbkUrlToAppUrl: built on the corrected
  `Explorer.ClearParams`. As written, every second old parameter of the
  address bar survives the clearing loop.
- Explorer.Explorer.ConsumerApiFetch: the address bar it writes is the app
  URL with the corrected clearing. As written, the old parameters the
  clearing loop skips stay in it.
- Explorer.Explorer.Page: its fetch writes the app URL with the corrected
  clearing, as for `ConsumerApiFetch`.
- Explorer.Explorer.HandleUrlParams: its fetch writes the app URL with the
  corrected clearing, as for `ConsumerApiFetch`.
- FileConnector.RowToBBKDataSpec: the only `Object.prototype` name a column
  can shadow harmfully here is `hasOwnProperty`, which is modelled. A
  `__proto__` column, which an assignment would not create as an own
  property, is treated as an ordinary name.
- MapApp.MapWindow.GetData: the markers are given already built from the
  Consumer API answers. Their construction from `getValue` results and the
  popups is not modelled.
- MapApp.MapWindow.RefreshEntities: the fetch answer is a parameter.
  `res.json()` failures are not modelled.

## Findings

| source | as written | input that shows it | evidently intended | confidence | as-written member | corrected member |
|---|---|---|---|---|---|---|
| apps/explorer/index.js:722-724 | `appUrl.searchParams.forEach((v, k) => appUrl.searchParams.delete(k))` deletes while it iterates. A `URLSearchParams` iteration re-reads the live list by position, so after each deletion the next entry moves into the visited slot and is skipped. | the address bar `?policy=p&entity=country&id=x`: the loop leaves `entity=country` | every old parameter cleared before the app parameters are written | not executed | Explorer.ForEachDeleteSkipsEntries (over Explorer.ClearParamsAsWritten) | Explorer.ClearParams |
