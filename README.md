# Data-access layer of the frontend, modelled in Dafny

The frontend talks to its API through a small data-access layer:

- an `HttpAdapter` answers every request with an envelope `{ isOk, error, data }`. There are two adapters: one over an axios client, one over the platform `fetch`;
- `CustomApiError` is the one error type both adapters produce;
- `BaseService` prefixes each resource's base endpoint to request paths, and turns raw envelopes into typed models;
- `Pagination` and `PaginationMetaModel` decode paged payloads.

This project models that layer in Dafny and proves what each piece promises.

| file | models |
|---|---|
| `js.dfy` | JavaScript building blocks: `undefined`/`null`/value, truthiness, `Array.prototype.map`, `${n}` for a natural number, object spread as ordered assignment |
| `json.dfy` | parsed JSON bodies and `body?.key` |
| `api_error.dfy` | `ApiErrorResponse`, `CustomApiError` and the synthesised `HTTP Error: <status>` / `HTTP_ERROR_<status>` |
| `http_interface.dfy` | `HttpAdapterOptions`, `HttpAdapterResponse`, and the "unmixed envelope" invariant |
| `pagination_meta.dfy`, `pagination.dfy`, `example_model.dfy` | the pagination models; `Example` as a concrete item factory |
| `base_service.dfy` | `item`, `collection`, `paginated` and the four verb helpers |
| `axios_adapter.dfy` | the request interceptor, the response interceptor's error classification, `execute`, `headersConfig` and the verbs |
| `web_headers.dfy`, `web_url.dfy` | the platform `Headers` and `URL`/`searchParams` objects the fetch-based adapter mutates |
| `fetcher_adapter.dfy` | `getHeaders`, `executeRequest`, `buildUrl` and the verbs of the fetch-based adapter |
| `adapter_comparison.dfy` | how the two adapters differ on the same exchange |

Transport is not executed in the model, so each adapter call receives its outcome as a parameter:

- axios: `Received(status, body)`, `NoReply` or `SetupFailed(message)`;
- `fetch`: `FetchRejected` or `Response(status, parsed body)`, where a body that is not JSON is `None`.

The cookie token is an `Option<string>` input. It is "truthy" when it is present and non-empty.

The pure parts of the layer are datatypes and functions. The parts that change objects in place are classes with `modifies` clauses:

- the axios request interceptor's write to `config.headers`;
- `headers.set` on a built `Headers`;
- the `searchParams.append` loop of `buildUrl`.

### Behaviour of the code that the model keeps

- The fetch-based adapter never returns `isOk: false`. Every non-ok response is thrown as a `CustomApiError`, so the error arm of its returned literal cannot be reached (`FetcherAdapter.SettleNeverReturnsFailure`). Two things are passed through untouched and are not `CustomApiError`s: a rejected `fetch`, and an ok response whose body is not JSON.
- The fetch-based verbs build a `Headers` object and put it in `init.headers`. `executeRequest` then spreads that object into a fresh literal. Spreading a `Headers` copies none of its entries, so custom headers never reach `fetch`. Only `Content-Type: application/json` and the bearer token do (`HeadersInstanceSpreadsNothing`, `OnlyDefaultHeadersReachFetch`, the verbs' `ensures`).
- A record that spells `Content-Type` another way, such as `content-type`, does not replace the default. The `Headers` object appends both values under the one name, giving `application/json, <value>` (`FetcherAdapter.LowerCaseContentTypeAppends`). The same happens to any header a record spells in two ways.
- `buildUrl` parses `baseUrl + path` with `new URL`, so a query already in the path, like the example service's `/example?<query>`, comes first among the search parameters. The `params` are appended after it (`FetcherAdapter.FetcherAdapter.BuildUrl`, `WebUrl.ParsedQueryOfPairs`).
- On a failed response with a `null` body, the axios adapter keeps `null` as `errorData`, but the fetch-based adapter stores nothing (`AdapterComparison.NullBodyDiffers`).
- On a body that is not JSON, axios hands the raw text on, but `response.json()` rejects in the fetch-based adapter. Axios then returns the text as data on success, or keeps it as `errorData` on failure. The fetch-based adapter lets the parse failure through on success and stores no `errorData` on failure (`AdapterComparison.NonJsonBodyDiffers`).
- Without a reply, the axios adapter answers with a `NETWORK_ERROR` envelope, but the fetch-based adapter lets the rejection through (`AdapterComparison.NoReplyDiffers`).
- The fetch-based `post`/`put` take the body as a separate argument. The `HttpAdapter` interface passes it in `options.data`, which is what the axios adapter and `BaseService` use. Each adapter's verbs are modelled with the adapter's own signature.

## Model

| member | source | states |
|---|---|---|
| ApiErrorType.NewCustomApiError | packages/frontend/src/shared/types/custoa-api-error.type.ts:12-19 | name is always "CustomApiError"; message and errorData are stored as given; a missing code becomes "UNKNOWN_ERROR", a supplied one is kept |
| ApiErrorType.AsApiErrorResponse | packages/frontend/src/shared/libs/fetcher/adapters/axios.adapter.ts:46-47 | a body counts as a server error exactly when both `code` and `message` hold non-empty strings; the extracted values are those members |
| ApiErrorType.HttpErrorMessage | packages/frontend/src/shared/libs/fetcher/adapters/fetcher.adapter.ts:46 | the "HTTP Error: " prefix followed by a numeral whose value is the status and which starts with "0" only for status 0, so there is no leading zero |
| ApiErrorType.HttpErrorCode | packages/frontend/src/shared/libs/fetcher/adapters/fetcher.adapter.ts:47 | the "HTTP_ERROR_" prefix followed by a numeral whose value is the status and which starts with "0" only for status 0, so there is no leading zero |
| ApiErrorType.HttpErrorCodeRoundTrip | packages/frontend/src/shared/libs/fetcher/adapters/axios.adapter.ts:52-58 | the status can be read back from a synthesised `HTTP_ERROR_<status>` code |
| ApiErrorType.HttpErrorCodeInjective | packages/frontend/src/shared/libs/fetcher/adapters/fetcher.adapter.ts:45-48 | distinct statuses give distinct synthesised codes |
| PaginationMeta.New | packages/frontend/src/shared/models/pagination/pagination-meta.model.ts:14-19 | the constructor copies all four fields verbatim |
| PaginationMeta.FromJson | packages/frontend/src/shared/models/pagination/pagination-meta.model.ts:21-27 | total, perPage, currentPage and lastPage carry total, per_page, current_page and last_page unchanged |
| PaginationMeta.ToJson | packages/frontend/src/shared/models/pagination/pagination-meta.model.ts:21-27 | the reverse remap, field by field |
| PaginationMeta.ToJsonFromJson | packages/frontend/src/shared/models/pagination/pagination-meta.model.ts:21-27 | the reverse remap recovers the JSON meta |
| PaginationMeta.FromJsonToJson | packages/frontend/src/shared/models/pagination/pagination-meta.model.ts:21-27 | the remap of the reverse gives back the model |
| PaginationMeta.FromJsonInjective | packages/frontend/src/shared/models/pagination/pagination-meta.model.ts:21-27 | distinct JSON metas give distinct models |
| PaginationModel.New | packages/frontend/src/shared/models/pagination/pagination.model.ts:15-18 | the constructor stores data and meta unchanged |
| PaginationModel.FromJson | packages/frontend/src/shared/models/pagination/pagination.model.ts:24-35 | an array `data` is converted element by element, same length and order; a non-array gives []; meta is the meta remap of `json.meta`, which must be present |
| PaginationModel.FromJsonUsesFactoryOnElementsOnly | packages/frontend/src/shared/models/pagination/pagination.model.ts:28-30 | two factories that agree on the array's elements give the same page, and for a non-array the factory is never consulted |
| PaginationModel.FromJsonIdentity | packages/frontend/src/shared/models/pagination/pagination.model.ts:28-29 | with the identity factory the items are the input array |
| ExampleModel.TwoItemPageDecodes | packages/frontend/src/features/example/model/example.model.ts:12-16 | a concrete two-item page decodes to models with ids 1 and 2 and the remapped meta |
| ExampleModel.FromJson | packages/frontend/src/features/example/model/example.model.ts:12-16 | the model's id is the JSON id |
| BaseService.Item | packages/frontend/src/shared/services/base.service.ts:31-44 | failed or data-less: the input's isOk and error with data null; otherwise isOk true, error null and data the converted payload |
| BaseService.Propagated | packages/frontend/src/shared/services/base.service.ts:36 | a propagated failure keeps isOk and error and holds no data, so an unmixed failure stays unmixed |
| BaseService.Collection | packages/frontend/src/shared/services/base.service.ts:52-66 | isOk and error are copied on both paths; failed or data-less gives []; otherwise one converted item per raw element, in order |
| BaseService.Paginated | packages/frontend/src/shared/services/base.service.ts:74-87 | failure as for item; success is isOk true, error null and the decoded page |
| BaseService.ItemKeepsUnmixed | packages/frontend/src/shared/services/base.service.ts:35-43 | an unmixed envelope stays unmixed through item |
| BaseService.PaginatedKeepsUnmixed | packages/frontend/src/shared/services/base.service.ts:78-86 | an unmixed envelope stays unmixed through paginated |
| BaseService.CollectionOfUnmixed | packages/frontend/src/shared/services/base.service.ts:56-65 | collection of an unmixed envelope: ok carries no error; failed carries the input's error and [] |
| BaseService.CollectionIdentity | packages/frontend/src/shared/services/base.service.ts:59-65 | with the identity factory, collection returns the raw array with isOk and error untouched |
| BaseService.PaginatedItems | packages/frontend/src/shared/services/base.service.ts:82-86 | a successful page holds one converted item per raw element, in order |
| BaseService.BaseService.Endpoint | packages/frontend/src/shared/services/base.service.ts:94 | the request URL is the base endpoint followed by the path |
| BaseService.BaseService.Get | packages/frontend/src/shared/services/base.service.ts:90-95 | the adapter gets GET on `baseEndpoint + path` with the options unchanged |
| BaseService.BaseService.Post | packages/frontend/src/shared/services/base.service.ts:97-102 | as Get, with POST |
| BaseService.BaseService.Put | packages/frontend/src/shared/services/base.service.ts:104-109 | as Get, with PUT |
| BaseService.BaseService.Delete | packages/frontend/src/shared/services/base.service.ts:111-116 | as Get, with DELETE |
| BaseService.BaseService.DefaultPathIsBase | packages/frontend/src/shared/services/base.service.ts:91 | with the default path the URL is the base endpoint |
| BaseService.BaseService.EndpointInjective | packages/frontend/src/shared/services/base.service.ts:94 | distinct paths reach the adapter as distinct URLs |
| AxiosAdapter.Dispatch | packages/frontend/src/shared/libs/fetcher/adapters/axios.adapter.ts:40-74 | a 2xx reply resolves with its body; any other reply is rejected with its status and body; no reply and a setup failure are rejected as such |
| AxiosAdapter.IsSuccessStatus | packages/frontend/src/shared/libs/fetcher/adapters/axios.adapter.ts:83-96 | the statuses that resolve are exactly those of the 2xx class: a three-digit numeral starting with 2 |
| AxiosAdapter.NormalizeError | packages/frontend/src/shared/libs/fetcher/adapters/axios.adapter.ts:44-74 | a server body gives its message and code with the body as errorData; another reply gives HTTP_ERROR_<status> with the body; no reply gives NETWORK_ERROR; a setup failure gives REQUEST_SETUP_ERROR with the prefixed message |
| AxiosAdapter.ErrorBranchesPartition | packages/frontend/src/shared/libs/fetcher/adapters/axios.adapter.ts:45-73 | every rejection falls into exactly one of the four branches |
| AxiosAdapter.HttpStatusErrorNamesStatus | packages/frontend/src/shared/libs/fetcher/adapters/axios.adapter.ts:52-58 | the HTTP-status branch's code names the reply's status |
| AxiosAdapter.Execute | packages/frontend/src/shared/libs/fetcher/adapters/axios.adapter.ts:80-97 | isOk exactly for a 2xx reply; success carries the body and no error; failure carries the normalised error and no data; never mixed |
| AxiosAdapter.NoReplyIsNetworkError | packages/frontend/src/shared/libs/fetcher/adapters/axios.adapter.ts:60-66 | without a reply the envelope fails with NETWORK_ERROR and no errorData |
| AxiosAdapter.HeadersConfig | packages/frontend/src/shared/libs/fetcher/adapters/axios.adapter.ts:99-106 | the headers are passed on exactly when they are a plain record, else undefined |
| AxiosAdapter.ConfigFor | packages/frontend/src/shared/libs/fetcher/adapters/axios.adapter.ts:112-115 | the config carries the caller's params unchanged, and headers exactly when they are a plain record, with that record's entries |
| AxiosAdapter.Get | packages/frontend/src/shared/libs/fetcher/adapters/axios.adapter.ts:108-117 | GET on the URL with the params and filtered headers, no body; the envelope is execute's |
| AxiosAdapter.Post | packages/frontend/src/shared/libs/fetcher/adapters/axios.adapter.ts:119-128 | POST with `options.data` as the body |
| AxiosAdapter.Put | packages/frontend/src/shared/libs/fetcher/adapters/axios.adapter.ts:130-139 | PUT with `options.data` as the body |
| AxiosAdapter.Delete | packages/frontend/src/shared/libs/fetcher/adapters/axios.adapter.ts:141-150 | DELETE with no body |
| AxiosAdapter.WithBearer | packages/frontend/src/shared/libs/fetcher/adapters/axios.adapter.ts:28-31 | a truthy token sets Authorization to "Bearer " + token, adds only that key and keeps every other header; otherwise the headers are unchanged |
| AxiosAdapter.InterceptRequest | packages/frontend/src/shared/libs/fetcher/adapters/axios.adapter.ts:26-38 | returns the same config; its headers become those of WithBearer |
| WebHeaders.ToLower | packages/frontend/src/shared/libs/fetcher/adapters/fetcher.adapter.ts:16-24 | the lower-cased name has the same length and no upper-case letter; each upper-case letter becomes its lower-case partner and every other character is kept |
| WebHeaders.HeaderNamesLowered | packages/frontend/src/shared/libs/fetcher/adapters/fetcher.adapter.ts:17 | "Content-Type" and "Authorization" are stored as "content-type" and "authorization" |
| WebHeaders.FillHeadersUntouched | packages/frontend/src/shared/libs/fetcher/adapters/fetcher.adapter.ts:16-19 | a name no entry spells is left as it was |
| WebHeaders.FillHeadersKeys | packages/frontend/src/shared/libs/fetcher/adapters/fetcher.adapter.ts:16-19 | a name ends up present exactly when it was already present or some entry spells it |
| WebHeaders.FillHeadersSingle | packages/frontend/src/shared/libs/fetcher/adapters/fetcher.adapter.ts:16-19 | a name spelt by one distinct key holds that key's last value |
| WebHeaders.AppendHeader | packages/frontend/src/shared/libs/fetcher/adapters/fetcher.adapter.ts:16-19 | the lower-cased name is added and nothing is removed; an existing value is joined with ", " and the new value; every other header is unchanged |
| WebHeaders.FillHeaders | packages/frontend/src/shared/libs/fetcher/adapters/fetcher.adapter.ts:16-19 | filling from a record removes no header and adds at most one name per entry |
| WebHeaders.Headers.constructor | packages/frontend/src/shared/libs/fetcher/adapters/fetcher.adapter.ts:16-19 | the entries are those of appending every record entry in order |
| WebHeaders.Headers.Set | packages/frontend/src/shared/libs/fetcher/adapters/fetcher.adapter.ts:24 | the lower-cased name is replaced and nothing else changes |
| WebHeaders.SpreadEntries | packages/frontend/src/shared/libs/fetcher/adapters/fetcher.adapter.ts:18 | a record spreads its entries; a Headers object or undefined spreads none; an array spreads one entry per pair, entry i keyed by the numeral of i and holding the pair's name and value joined by "," |
| WebUrl.SearchParams.Append | packages/frontend/src/shared/libs/fetcher/adapters/fetcher.adapter.ts:81 | the pair goes last and the earlier pairs are kept |
| WebUrl.SearchParams.AppendEntries | packages/frontend/src/shared/libs/fetcher/adapters/fetcher.adapter.ts:80-82 | every entry goes after the parameters already there, in entry order |
| WebUrl.Url.constructor | packages/frontend/src/shared/libs/fetcher/adapters/fetcher.adapter.ts:78 | the location is the given string; the search parameters start as the query parsed out of it |
| WebUrl.Url.ToValue | packages/frontend/src/shared/libs/fetcher/adapters/fetcher.adapter.ts:84 | the rendered URL holds the location and the current search parameters |
| WebUrl.QueryText | packages/frontend/src/shared/libs/fetcher/adapters/fetcher.adapter.ts:78 | the query is empty for a string without "?" and never contains "#" |
| WebUrl.Join | packages/frontend/src/shared/libs/fetcher/adapters/fetcher.adapter.ts:78 | the joined text holds only the separator and characters of the pieces |
| WebUrl.Split | packages/frontend/src/shared/libs/fetcher/adapters/fetcher.adapter.ts:78 | the query is cut into at least one piece, none of which contains the separator, and joining the pieces with the separator gives back the text; a text without the separator is one piece |
| WebUrl.SplitJoin | packages/frontend/src/shared/libs/fetcher/adapters/fetcher.adapter.ts:78 | splitting pieces without the separator after joining them gives back the pieces |
| WebUrl.ParamPair | packages/frontend/src/shared/libs/fetcher/adapters/fetcher.adapter.ts:78 | a segment splits at its first "=": the name has no "=", and name, "=" and value rebuild the segment; without "=" the value is empty |
| WebUrl.ParamPairs | packages/frontend/src/shared/libs/fetcher/adapters/fetcher.adapter.ts:78 | there are no more pairs than segments; only empty segments give no pairs; non-empty segments give one pair each, in order, the pair ParamPair makes of that segment |
| WebUrl.ParamPairsAppend | packages/frontend/src/shared/libs/fetcher/adapters/fetcher.adapter.ts:78 | the pairs of two runs of segments are the pairs of the first run followed by those of the second |
| WebUrl.ParamPairsSkipsEmpty | packages/frontend/src/shared/libs/fetcher/adapters/fetcher.adapter.ts:78 | an empty segment anywhere in the list contributes no pair |
| WebUrl.ParsedQuery | packages/frontend/src/shared/libs/fetcher/adapters/fetcher.adapter.ts:78 | a string without "?" has no search parameters; a query of one non-empty segment with no "&" gives that segment's pair |
| WebUrl.ParsedQueryOfPairs | packages/frontend/src/shared/libs/fetcher/adapters/fetcher.adapter.ts:78 | a location with no "?" or "#", followed by "?" and the pairs written as name=value joined by "&", parses back to exactly those pairs, in order. This holds when no name is empty or holds "=", "&" or "#", and no value holds "&" or "#" |
| FetcherAdapter.RequestHeaders | packages/frontend/src/shared/libs/fetcher/adapters/fetcher.adapter.ts:15-28 | a truthy token puts "Bearer " + token under authorization |
| FetcherAdapter.HeaderLiteral | packages/frontend/src/shared/libs/fetcher/adapters/fetcher.adapter.ts:16-19 | the literal's keys are distinct, and are Content-Type plus the custom keys; a custom key's value is its last custom value; an uncovered Content-Type is application/json |
| FetcherAdapter.LiteralHolds | packages/frontend/src/shared/libs/fetcher/adapters/fetcher.adapter.ts:16-19 | a name spelt one way in the custom entries holds its last custom value, and an untouched Content-Type holds application/json |
| FetcherAdapter.ContentTypeDefault | packages/frontend/src/shared/libs/fetcher/adapters/fetcher.adapter.ts:16-19 | without a custom Content-Type the header is application/json |
| FetcherAdapter.ContentTypeOverride | packages/frontend/src/shared/libs/fetcher/adapters/fetcher.adapter.ts:16-19 | a record whose only spelling of the name is exactly "Content-Type" overrides the default with that entry's value; another spelling appends instead (LowerCaseContentTypeAppends) |
| FetcherAdapter.LowerCaseContentTypeAppends | packages/frontend/src/shared/libs/fetcher/adapters/fetcher.adapter.ts:16-19 | a record's lower-case "content-type" does not override: the header becomes "application/json, " followed by its value |
| FetcherAdapter.CustomHeaderKept | packages/frontend/src/shared/libs/fetcher/adapters/fetcher.adapter.ts:16-25 | any other record header, when all the record's keys for that name share one spelling, is kept with that key's value, unless it is an Authorization that a token replaces |
| FetcherAdapter.TokenTouchesOnlyAuthorization | packages/frontend/src/shared/libs/fetcher/adapters/fetcher.adapter.ts:21-25 | the token changes no header other than authorization |
| FetcherAdapter.NoTokenNoAuthorization | packages/frontend/src/shared/libs/fetcher/adapters/fetcher.adapter.ts:21-25 | without a token, authorization is present exactly when a custom header spells it |
| FetcherAdapter.HeadersInstanceSpreadsNothing | packages/frontend/src/shared/libs/fetcher/adapters/fetcher.adapter.ts:36 | rebuilding headers from a Headers object gives the headers of no custom headers at all |
| FetcherAdapter.OnlyDefaultHeadersReachFetch | packages/frontend/src/shared/libs/fetcher/adapters/fetcher.adapter.ts:36 | apart from content-type and authorization, no header reaches fetch |
| FetcherAdapter.FailureError | packages/frontend/src/shared/libs/fetcher/adapters/fetcher.adapter.ts:39-60 | an unparseable body gives HTTP_ERROR_<status> with no errorData; a server body gives its message and code with the body as errorData; any other body gives HTTP_ERROR_<status> with the body, or none for null |
| FetcherAdapter.IsOkStatus | packages/frontend/src/shared/libs/fetcher/adapters/fetcher.adapter.ts:39 | the ok statuses are exactly those of the 2xx class: a three-digit numeral starting with 2 |
| FetcherAdapter.Settle | packages/frontend/src/shared/libs/fetcher/adapters/fetcher.adapter.ts:34-75 | it returns exactly for an ok response with a JSON body, as isOk true, error null and that body; a rejected fetch and an unparseable ok body are passed through; a non-ok response throws FailureError |
| FetcherAdapter.SettleNeverReturnsFailure | packages/frontend/src/shared/libs/fetcher/adapters/fetcher.adapter.ts:39-74 | a returned envelope is always ok and unmixed, and every non-ok response throws |
| FetcherAdapter.FetcherAdapter.GetHeaders | packages/frontend/src/shared/libs/fetcher/adapters/fetcher.adapter.ts:15-28 | a fresh Headers object holding RequestHeaders |
| FetcherAdapter.FetcherAdapter.ExecuteRequest | packages/frontend/src/shared/libs/fetcher/adapters/fetcher.adapter.ts:30-75 | fetch receives the URL, the method, the headers rebuilt from init.headers, and the body; the result is Settle of the outcome |
| FetcherAdapter.FetcherAdapter.BuildUrl | packages/frontend/src/shared/libs/fetcher/adapters/fetcher.adapter.ts:77-85 | the location is baseUrl + path; the query parsed from it comes first, then the params in entry order; with no params it is the parsed query alone, and with no "?" in the string it is the params alone |
| FetcherAdapter.FetcherAdapter.Get | packages/frontend/src/shared/libs/fetcher/adapters/fetcher.adapter.ts:87-98 | GET with no body, the built URL (parsed query, then params) and only the default headers; the result is Settle of the outcome |
| FetcherAdapter.FetcherAdapter.Post | packages/frontend/src/shared/libs/fetcher/adapters/fetcher.adapter.ts:100-113 | POST with the body argument |
| FetcherAdapter.FetcherAdapter.Put | packages/frontend/src/shared/libs/fetcher/adapters/fetcher.adapter.ts:115-128 | PUT with the body argument |
| FetcherAdapter.FetcherAdapter.Delete | packages/frontend/src/shared/libs/fetcher/adapters/fetcher.adapter.ts:130-141 | DELETE with no body |
| AdapterComparison.SuccessAgrees | packages/frontend/src/shared/libs/fetcher/adapters/fetcher.adapter.ts:62-74 | on a 2xx reply with a JSON body both adapters give the same envelope |
| AdapterComparison.FailureAgrees | packages/frontend/src/shared/libs/fetcher/adapters/fetcher.adapter.ts:51-59 | on a failed reply with a non-null body, the error the axios adapter returns is the one the fetch-based adapter throws |
| AdapterComparison.NullBodyDiffers | packages/frontend/src/shared/libs/fetcher/adapters/fetcher.adapter.ts:55-59 | on a null error body, message and code agree but only the axios adapter keeps errorData |
| AdapterComparison.NoReplyDiffers | packages/frontend/src/shared/libs/fetcher/adapters/fetcher.adapter.ts:34-37 | without a reply, axios answers NETWORK_ERROR while the fetch rejection is passed through |
| AdapterComparison.NonJsonBodyDiffers | packages/frontend/src/shared/libs/fetcher/adapters/fetcher.adapter.ts:42-49 | for a body that is not JSON, axios returns the text as data or errorData; the fetch-based adapter lets the parse failure through when ok, and otherwise throws HTTP_ERROR with no errorData |
| HttpInterface.SuccessClass | packages/frontend/src/shared/libs/fetcher/adapters/fetcher.adapter.ts:39 | a status is in 200..299 exactly when its numeral has three digits and starts with 2 |
| Js.Map | packages/frontend/src/shared/services/base.service.ts:59-61 | one result per element, in order |
| Js.NatToString | packages/frontend/src/shared/libs/fetcher/adapters/fetcher.adapter.ts:46-47 | a non-empty decimal numeral, with a leading zero only for zero |
| Js.NatToStringValue | packages/frontend/src/shared/libs/fetcher/adapters/fetcher.adapter.ts:46-47 | reading the numeral back gives the number |
| Js.NatToStringInjective | packages/frontend/src/shared/libs/fetcher/adapters/fetcher.adapter.ts:46-47 | distinct numbers render differently |
| Js.LastValue | packages/frontend/src/shared/libs/fetcher/adapters/fetcher.adapter.ts:16-19 | absent exactly when no entry has the key; otherwise the value of the last entry with that key |
| Js.Assign | packages/frontend/src/shared/libs/fetcher/adapters/fetcher.adapter.ts:16-19 | assigning a property: the keys gain the assigned key; distinct keys stay distinct; the assigned key then reads the new value and every other key reads as before |
| Js.AssignAll | packages/frontend/src/shared/libs/fetcher/adapters/fetcher.adapter.ts:16-19 | the keys are the union; a key of the later object takes its value, any other keeps the earlier one; keys stay distinct |
| Json.Get | packages/frontend/src/shared/libs/fetcher/adapters/fetcher.adapter.ts:52 | a member is found exactly when the body is an object with that key; of repeated names the last one's value is returned |

## Left out

- Transport: axios itself, `fetch`, interceptor registration and Promise sequencing are left out. Each call receives its outcome as a parameter.
- `Cookies.get("token")` is left out; each call receives the token as a parameter. The fetch-based adapter reads the cookie once per `getHeaders`, so twice per request, and the model assumes both reads return the same token.
- WebUrl.Url.constructor: `new URL` throws a `TypeError` on a relative or invalid location. That throw is not modelled; every location is taken to parse. Nor is the normalisation `new URL` applies to the rest of the string.
- FetcherAdapter.FetcherAdapter.BuildUrl: the query already in `baseUrl + path` is split into pairs, but not percent-decoded, and `+` is not read as a space. The same holds for WebUrl.ParsedQuery.
- Axios reads a body that is not JSON as its raw text, which the model writes as a JSON string. Axios's other response types are left out.
- Serialisation is left out. `JSON.stringify` of a body is the body value itself. `response.json()` is the parsed body it yields, or `None`. The URL's string form, percent-encoding and `qs` are not modelled: `url.toString()` is the string the URL was parsed from, plus its complete ordered list of search parameters.
- JSON numbers are integers; floating point is left out.
- ApiErrorType.AsApiErrorResponse: a `code` or `message` that is a non-string truthy value (a number, `true`, an object) is treated as absent, although the source's `code && message` would accept it.
- Unchecked TypeScript casts (`as ApiErrorResponse`, `as CustomApiError`) are not modelled. The classifier's output is what is caught.
- The axios client's own merging of its default `Content-Type` into each request is library behaviour and is left out. So is the case-insensitive handling of `AxiosHeaders`. The interceptor is modelled as a plain property write of `Authorization`.
- `Headers` name validation and value whitespace trimming are left out. Names are ASCII-lower-cased.
- JavaScript also lists integer-like keys first when it spreads an object. The model ignores that order, which cannot change the resulting header map. An integer-like key has no letters, so it is the only key that lower-cases to its name. Keys that spell one name in different ways are all non-integer-like, so their relative order, and with it the order in which their values are joined, is kept.
- PaginationModel.FromJson: a missing `meta` is a precondition. The source dereferences it unguarded and would throw a `TypeError`, which is not modelled. The same holds for BaseService.Paginated.
- `Object.setPrototypeOf` and the `Error` stack of `CustomApiError` are left out.
- `BaseService` keeps the injected adapter in a field. Each verb helper instead returns the call it hands to the adapter.
- `example.service.ts`, the router, the pages, the layout and the date-library setup are not part of this model.
