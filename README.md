# DemiLens query builder, modelled in Dafny

DemiLens lets a signed-in user build a query over Google Trends data kept in
BigQuery, look at the result, and save it. This project models the two halves
of that feature.

**The backend.** Six analytical endpoints exist. Each one fills a fixed query
template with the request's path parameters, bound as named `STRING` query
parameters. It runs the template on the worker's cached warehouse client and
normalises the outcome:
- an error anywhere becomes a 500 carrying the error text;
- an empty result becomes a 404 with `No data found`;
- otherwise the rows become a list of mappings, in row order, with status 200.

**The frontend.** The query-builder page is a nine-step wizard:
- 0 welcome, 1 country, 2 query type, 3 loading the date bounds;
- 4 date type, 5 date entry, 6 loading the result;
- 7 result, 8 save form.

Each handler moves the `step` and updates the selections. The execution
handler turns the selections into an endpoint URL, fetches it, and decides
where the page lands.

Modules:

- `SqlQuery` (sql_query.dfy): the templates' SQL as a small syntax tree and
  its rendering to tokens, with parameters as `@name` placeholders. Request
  values stay out of the text because every template is built without the
  request (`QueryTemplates.TextIndependentOfInputs`), not because of the
  token set: an identifier token may hold any string.
- `QueryTemplates` (query_templates.dfy): the six templates, their parameter
  lists, and the rendered query of each request.
- `ResultNormalizer` (result_normalizer.dfy): `dict(row.items())` and the
  three-way result branch.
- `ClientPool` (client_pool.dfy): the per-worker client cache, as a class
  holding a map from worker to client.
- `Gateway` (gateway.dfy): the endpoints end to end. This is
  `process_query` and each view's `get`.
- `DateOrder` (date_order.dfy): string `<` on the ASCII values a date input
  produces, and the `YYYY-MM-DD` form of a date. It proves that on dates with
  four-digit years string order is calendar order, and exhibits a five-digit
  year on which it is not.
- `Routes` (routes.dfy): the URL pattern table of the six endpoints. It
  serves as the independent reference for the URLs the wizard builds.
- `QueryBuilderPage` (query_builder.dfy): the wizard, as a class with one
  method per handler.

Calls into code outside the model are parameters:
- the warehouse is a function from client and query to an outcome;
- client creation either succeeds or fails with a message;
- the network is a function from each requested URL to what fetching it
  produced, so every fetch result is tied to the URL the page built.

## Model

| member | source | states |
|---|---|---|
| QueryTemplates.QueryOf | backend/query_builder_backend/bigQueryQueries.py:59-253 | The six f-strings: each template reads the configured dataset and its own table (the rising-terms table exactly for the rising templates). Only the two date-bounds templates have no filter, and among the others `percent_gain` is grouped exactly in the rising ones. |
| QueryTemplates.BindingsOf | backend/query_builder_backend/bigQueryQueries.py:53-184 | The `query_params` lists: one binding per path parameter, each typed `STRING` and carrying the value of the path parameter of its name. |
| QueryTemplates.Render | backend/query_builder_backend/bigQueryQueries.py:73 | What each `get` hands to `process_query`: the text names only the endpoint's configured table, its placeholders are the template's filter parameters in order, and the bindings are the endpoint's `query_params`. |
| SqlQuery.TextPlaceholders | backend/query_builder_backend/bigQueryQueries.py:59-70 | The placeholders in a rendered query are exactly the parameters its WHERE filters name, in filter order. The text names exactly one table, the configured `dataset.table`. |
| SqlQuery.ConditionsTextParams | backend/query_builder_backend/bigQueryQueries.py:107-112 | Filters joined with AND carry their placeholders in filter order. |
| QueryTemplates.RenderBindingsAgree | backend/query_builder_backend/bigQueryQueries.py:35-256 | For every request, the parameter list binds exactly the names that appear in the query text as placeholders, each once, typed `STRING`. Each binding carries the value of the path parameter of that name, and every path parameter is bound. |
| QueryTemplates.DayBindingsAgree | backend/query_builder_backend/bigQueryQueries.py:53-73 | For the two single-day endpoints, `date` and `country_name` are bound to the request's date and country, and both appear in the text. |
| QueryTemplates.RangeBindingsAgree | backend/query_builder_backend/bigQueryQueries.py:95-118 | For the two range endpoints, `init_date`, `finish_date` and `country_name` are bound to the request's values, and all three appear in the text. |
| QueryTemplates.RangeParams | backend/query_builder_backend/bigQueryQueries.py:180-184 | The range parameter list is `init_date`, `finish_date`, `country_name` in that order. The names are distinct, and each is bound to its own path parameter. |
| QueryTemplates.TextIndependentOfInputs | backend/query_builder_backend/bigQueryQueries.py:144-159 | Two requests to the same endpoint render the same query text, whatever their country and dates. The text's only table is that endpoint's configured table. |
| QueryTemplates.SingleDayShape | backend/query_builder_backend/bigQueryQueries.py:64-69 | The single-day templates filter `refresh_date = @date AND country_name = @country_name` and order by `rank` ascending. |
| QueryTemplates.RangeShape | backend/query_builder_backend/bigQueryQueries.py:107-114 | The range templates filter `rank = 1`, `refresh_date BETWEEN @init_date AND @finish_date` and `country_name = @country_name`, and order by `Day` descending. |
| QueryTemplates.RisingAddsPercentGain | backend/query_builder_backend/bigQueryQueries.py:144-155 | Each rising-terms template is its top-terms counterpart with `percent_gain` added to the selected and grouped columns, reading the rising-terms table. |
| QueryTemplates.BoundsShape | backend/query_builder_backend/bigQueryQueries.py:222-256 | The two date-bounds templates bind no parameters, have no filter, grouping or ordering, and select `MIN(refresh_date)` and `MAX(refresh_date)`. They differ only in their table. |
| QueryTemplates.GroupByIsOutputColumns | backend/query_builder_backend/bigQueryQueries.py:60-68 | In the four parameterised templates, the grouping columns are exactly the output columns, after aliasing. These are `Top_Term, rank` (day), `Day, Top_Term` (range), and the same plus `percent_gain` for rising terms. |
| ResultNormalizer.Insert | backend/query_builder_backend/bigQueryQueries.py:279 | Python's `d[k] = v` on an insertion-ordered dict: afterwards `k` maps to `v`, and the dict grows by one entry exactly when `k` was absent. |
| ResultNormalizer.DictOf | backend/query_builder_backend/bigQueryQueries.py:279 | `dict(items)`: the result has each key once and no more entries than there were items. |
| ResultNormalizer.ToMappings | backend/query_builder_backend/bigQueryQueries.py:279 | The list comprehension: one mapping per row, each with distinct keys and no more entries than the row has items. |
| ResultNormalizer.InsertKeepsKeysDistinct | backend/query_builder_backend/bigQueryQueries.py:279 | Adding a key to a mapping keeps its keys distinct. Afterwards the key maps to the new value and every other key is unchanged. |
| ResultNormalizer.DictOfLookup | backend/query_builder_backend/bigQueryQueries.py:279 | In a mapping built from a row's items, each key maps to the last value the row gives it. |
| ResultNormalizer.DictOfIdentity | backend/query_builder_backend/bigQueryQueries.py:279 | A row whose keys are already distinct becomes the same mapping, in the same order. |
| ResultNormalizer.Normalize | backend/query_builder_backend/bigQueryQueries.py:279-289 | Status 500 exactly on failure, with the error text. Status 404 exactly on an empty result, with `No data found`. Status 200 exactly on a non-empty result. Nothing else is possible, and an error body occurs exactly when the status is not 200. |
| ResultNormalizer.NormalizeRows | backend/query_builder_backend/bigQueryQueries.py:279-286 | A non-empty result gives status 200 and one mapping per row, in row order. Each mapping maps every column to the last value the row gives it. |
| ResultNormalizer.NormalizeRowsExact | backend/query_builder_backend/bigQueryQueries.py:279-286 | When each row's column names are distinct, the response body is exactly the rows, with status 200. |
| ClientPool.WorkerClients.constructor | backend/query_builder_backend/bigQueryQueries.py:9 | No worker has a client at start. |
| ClientPool.WorkerClients.Acquire | backend/query_builder_backend/bigQueryQueries.py:21-33 | A worker with a client gets the same client back, and the cache is unchanged. A worker without one gets a new, distinct client, which is cached for it. A creation error propagates and leaves the cache unchanged. No two workers ever share a client. |
| Gateway.ProcessQuery | backend/query_builder_backend/bigQueryQueries.py:259-289 | The response is the normalisation of the run on the worker's client. A client-creation error becomes a 500 with its text. The new cache is stated in every case: unchanged for a worker that had a client or on a creation error, and otherwise extended with the newly created client. |
| Gateway.Get | backend/query_builder_backend/bigQueryQueries.py:35-73 | Each endpoint's response is the normalisation of running its rendered template and bindings on the worker's client, and the cache changes exactly as in `ProcessQuery`. |
| Gateway.ConsecutiveRequests | backend/query_builder_backend/bigQueryQueries.py:28-33 | Two requests served in turn by one worker: once the first has a client, cached before or created then, both run on that same client, and the worker keeps it. |
| DateOrder.LexLess | frontend/src/pages/querybuilder.js:164 | String `<` as the date-range guard uses it: a string is never less than itself. |
| DateOrder.LexLessAsymmetric | frontend/src/pages/querybuilder.js:164 | Of two strings, at most one is less than the other. |
| DateOrder.LexLessAppend | frontend/src/pages/querybuilder.js:164 | Take two concatenations whose first parts have equal length. They compare by their first parts, and by their second parts when the first parts are equal. |
| DateOrder.DigitsOrder | frontend/src/pages/querybuilder.js:164 | Zero-padded decimal strings of equal width compare as the numbers they write. |
| DateOrder.FormatOrder | frontend/src/pages/querybuilder.js:164 | On `YYYY-MM-DD` dates with four-digit years, string `<` holds exactly when the first date is earlier in the calendar. |
| DateOrder.WideYearMisordered | frontend/src/pages/querybuilder.js:164 | With a five-digit year the agreement fails: `10000-01-01` is later in the calendar than `9999-12-31` but less as a string. |
| Routes.Route | backend/bigquery_query_builder/urls.py:18-23 | Whatever request the table matches a path to, that path is exactly the request's own path, and its path parameters are single segments. |
| Routes.JoinSplit | backend/bigquery_query_builder/urls.py:18-23 | Joining the segments of a path with '/' gives the path back. |
| Routes.SplitJoin | backend/bigquery_query_builder/urls.py:18-23 | Splitting segments joined with '/' gives the segments back. |
| Routes.PathOfText | backend/bigquery_query_builder/urls.py:18-23 | A request's path is `api/bigquery/get/`, then its endpoint name, then each path parameter after a '/'. |
| Routes.RouteOfPath | backend/bigquery_query_builder/urls.py:18-23 | When a request's parameters are single path segments, the URL table routes the request's own path back to that request. |
| QueryBuilderPage.QueryUrl | frontend/src/pages/querybuilder.js:190-198 | The URL the execution handler builds: empty exactly when the date type is neither `date_interval` nor `single_date`, and otherwise the proxy followed by an endpoint path. |
| QueryBuilderPage.IntervalUrl | frontend/src/pages/querybuilder.js:57-95 | A date-bounds URL exists exactly for the `top_terms` and `top_rising_terms` query types, and starts with the proxy. |
| QueryBuilderPage.PreviousStep | frontend/src/pages/querybuilder.js:277-285 | Where Return leads from steps 1 to 8: strictly back, never below 0, and never to a loading step (3 or 6). |
| QueryBuilderPage.AfterExecution | frontend/src/pages/querybuilder.js:186-211 | The page after execution: step 7 exactly after a success or a 404, step 6 otherwise. The stored URL is the built one, and the result changes only to a fetched one. No other field changes. |
| QueryBuilderPage.FetchOf | frontend/src/pages/querybuilder.js:224 | axios's rule: a response resolves exactly on a 2xx status, carrying its body, and rejects with a 404 exactly when the status is 404. |
| QueryBuilderPage.QueryBuilder.constructor | frontend/src/pages/querybuilder.js:18-29 | The page starts at step 0 with every selection empty and no result. |
| QueryBuilderPage.QueryBuilder.Load | frontend/src/pages/querybuilder.js:33-47 | Loading records the user name and moves to step 1. A missing user name asks for a redirect to login, and the page still moves to step 1. |
| QueryBuilderPage.QueryBuilder.StartBuildingQuery | frontend/src/pages/querybuilder.js:103-106 | Moves to step 1 and changes nothing else. |
| QueryBuilderPage.QueryBuilder.CountrySelect | frontend/src/pages/querybuilder.js:115-120 | Records the country and moves to step 2, changing nothing else. |
| QueryBuilderPage.QueryBuilder.QueryTypeSelect | frontend/src/pages/querybuilder.js:131-144 | Records the query type, fetches that type's date-bounds URL and ends at step 4 whatever the fetch gave. The date bounds change only when a known type's fetch of that URL succeeded, and then become the fetched ones. |
| QueryBuilderPage.QueryBuilder.DateTypeSelect | frontend/src/pages/querybuilder.js:154-159 | Records the date type and moves to step 5, changing nothing else. |
| QueryBuilderPage.QueryBuilder.SetStartDate | frontend/src/pages/querybuilder.js:332 | The start-date input sets only the start date. |
| QueryBuilderPage.QueryBuilder.SetEndDate | frontend/src/pages/querybuilder.js:334 | The end-date input sets only the end date. |
| QueryBuilderPage.QueryBuilder.ExecuteQuery | frontend/src/pages/querybuilder.js:222-240 | The outcome is that of fetching the given URL. A fetched result replaces the stored result. A 404 is swallowed with the no-results alert, leaving everything unchanged. Any other failure is rethrown, leaving everything unchanged. |
| QueryBuilderPage.QueryBuilder.QueryExecution | frontend/src/pages/querybuilder.js:186-211 | Stores the URL built from the selections and fetches that URL. The page lands on step 7 after a success or a 404, and stays on step 6 after any other failure. The result changes only on success. |
| QueryBuilderPage.QueryBuilder.DateRangeSelection | frontend/src/pages/querybuilder.js:161-169 | A missing date gives the both-dates alert, and an end before the start (as strings) gives the order alert. Neither changes anything. Otherwise the query is executed. |
| QueryBuilderPage.QueryBuilder.SingleDateSelection | frontend/src/pages/querybuilder.js:171-177 | A missing date gives the select-a-date alert and changes nothing. Otherwise the query is executed. |
| QueryBuilderPage.QueryBuilder.SaveQuery | frontend/src/pages/querybuilder.js:242-244 | Moves to step 8 and changes nothing else. |
| QueryBuilderPage.QueryBuilder.ReturnStep | frontend/src/pages/querybuilder.js:272-287 | From step 0 it navigates to the user's home page and changes nothing. Otherwise it moves from 4 to 2, from 7 to 5, and from any other step to the one before; on the page's steps 1 to 8 that is strictly back and never to a loading step. |
| QueryBuilderPage.ReturnUndoesMove | frontend/src/pages/querybuilder.js:272-287 | Return from the step each forward move lands on leads back to the screen that offered that move. |
| QueryBuilderPage.DateRangeAcceptsOrderedDates | frontend/src/pages/querybuilder.js:161-169 | On `YYYY-MM-DD` dates with four-digit years, the range check passes exactly when the start is on or before the end in the calendar. |
| QueryBuilderPage.QueryUrlRoutesToSelection | frontend/src/pages/querybuilder.js:186-198 | A known query type and date type give the proxy followed by that endpoint's path. When the country and dates are single segments, the backend routes the URL to that endpoint with those values. |
| QueryBuilderPage.IntervalUrlRoutes | frontend/src/pages/querybuilder.js:57-95 | Each query type's date-bounds URL is the proxy followed by the path of that type's bounds endpoint, and the backend routes it there. |
| QueryBuilderPage.ExecutionAgainstBackend | frontend/src/pages/querybuilder.js:203-240 | Against the backend's normaliser: rows reach step 7 and become the result. An empty result reaches step 7 with the previous result kept, and it alone raises the alert. A warehouse failure leaves the page on step 6. |

## Left out

- The BigQuery client library is not modelled: constructing a client, submitting a job and reading its result. The warehouse is a function parameter from client and query to an outcome.
- Reading the configuration and the service-account file is not modelled. The dataset and table identifiers are a `Config` value, and a credential failure is the `CreationError` case of client creation.
- Threads are not modelled. The thread-local slot is a map from worker identity to client, and each `Acquire` runs to completion.
- Result values are not converted to JSON. Dates, integers and decimals are kept as abstract scalars, and decimals are `real`, not floating point.
- The view docstrings mention 400 responses for invalid requests. The code never produces one, so the model has none.
- The admin, database and comment endpoints and their ORM models and serializers are not part of this model.
- The routing table appears only as the reference for the URLs the wizard builds. URL percent-encoding, and path converters other than `<str:…>`, are not modelled.
- The page's JSX rendering is not modelled. The model does not capture that step 7 displays the result only once one exists.
- The country list loaded from configuration is not modelled.
- The save form's name and comment inputs are not modelled. `handleSaveQuery`'s POST is a network call with no effect on the page's state.
- `router.push`, `alert`, `setTimeout` and `console.error` are not performed. Navigation targets and alert texts are returned instead.
- QueryBuilderPage.QueryBuilder.QueryTypeSelect: the handler runs as one step, together with its awaited fetch. A Return pressed while the fetch is pending is not modelled.
- QueryBuilderPage.QueryBuilder.QueryExecution: likewise, the handler runs as one step. So do the date handlers that start it, which do not await it in the source.
- QueryBuilderPage.QueryBuilder.QueryTypeSelect: a successful bounds fetch is given as the two dates from the first row. A 200 response whose first row lacks them is not modelled.
- QueryBuilderPage.QueryBuilder.Load: an absent user name is modelled as the empty string. In the page it is `undefined`, so Return from step 0 goes to `/home?username=undefined`, where the model's `ReturnStep` gives `/home?username=`.
- QueryBuilderPage.DateRangeAcceptsOrderedDates: proved for four-digit years only. A date input may also hold a year of five or more digits. On such values the string guard is not calendar order (`DateOrder.WideYearMisordered`): a later end date can draw the order alert.
- DateOrder.LexLess: compares characters, not JavaScript's UTF-16 code units. The two orders differ only on characters above U+FFFF, which a date input's ASCII value never contains; the model does not capture the difference for other strings.
- Pages other than the query builder are not part of this model: the query list, the query view, comments, home, login, the navigation bar and the result table.
