# Endpoint base of the Cheshire Cat Node.js SDK, in Dafny

This project models `AbstractEndpoint`, the base class every REST endpoint of the SDK builds on
(`src/endpoints/abstract.ts`). It covers two things:

- **Path formatting** (`formatUrl`): the path `"/" + prefix + "/" + endpoint` with every run of
  `/` replaced by one `/`. Module `Paths` defines this as the recursive function `Collapse` and
  proves what it means. The result starts with `/` and has no doubled separator. Collapsing again
  changes nothing. Every other character is kept, in order. The result is the normal form of
  rewriting `//` to `/`.
- **The verb helpers** `get`, `postJson`, `postMultipart`, `put` and `delete`. Each builds an
  options record step by step, resolves a transport for `(agentId, userId)`, issues exactly one
  request with a fixed verb, and deserializes the reply's data. Module `Requests` holds JavaScript
  truthiness (`Truthy`), the options each helper produces and how a reply becomes a result. Module
  `Endpoints` holds the classes. `CatClient` stands for the SDK client: a log `sent` of issued
  requests, the backend's reply function `respond` and the serializer `deserialize`.
  `AbstractEndpoint` has the five helpers as methods. Each method's contract says that the log
  grows by exactly the request it issues, and that its result is that request's reply passed
  through the serializer.

Two details of the code the model keeps:

- `get` drops every falsy query (`undefined`, `null`, `false`, `0`, `""`), not only an absent one
  (line 33); `postJson` and `delete` do the same with their payload (lines 48, 83).
- The helpers pass `endpoint` to the transport unchanged and never call `formatUrl` (lines 37, 52,
  67, 72, 87); a concrete endpoint formats the path itself. `Endpoints.ReadMemoryPoints` and
  `Endpoints.UploadPlugin` show this for a "memory" read and a "plugins" upload.

## Model

| member | source | states |
|---|---|---|
| `Paths.Collapse` | src/endpoints/abstract.ts:16 | the collapsed string has no two consecutive `/`, keeps the first character and is no longer than its input |
| `Paths.FormatUrl` | src/endpoints/abstract.ts:15-17 | every path is non-empty, starts with `/` and has no two consecutive `/` |
| `Paths.CollapseKeepsNonSlashes` | src/endpoints/abstract.ts:16 | collapsing removes only `/`: the other characters are kept, in order |
| `Paths.CollapseFixesExactlyNormalForms` | src/endpoints/abstract.ts:16 | a string is left unchanged by collapsing if and only if it has no doubled `/` |
| `Paths.CollapseIdempotent` | src/endpoints/abstract.ts:16 | collapsing twice equals collapsing once |
| `Paths.CollapseStep` | src/endpoints/abstract.ts:16 | replacing one `//` by `/` anywhere does not change the collapsed result, so the result is the normal form of that rewriting (the meaning of the global `/\/+/` replacement) |
| `Paths.FormatUrlKeepsSegments` | src/endpoints/abstract.ts:16 | deleting `/` from the path gives prefix and endpoint with `/` deleted, concatenated |
| `Paths.FormatUrlIsCollapsed` | src/endpoints/abstract.ts:16 | collapsing a formatted path changes nothing |
| `Paths.FormatUrlIgnoresEdgeSlashes` | src/endpoints/abstract.ts:16 | a `/` added before the endpoint, after the prefix or before the prefix gives the same path |
| `Paths.FormatUrlOfCleanSegments` | src/endpoints/abstract.ts:16 | for a non-empty prefix without edge or doubled `/` and an endpoint not starting with or doubling `/`, the path is literally `/prefix/endpoint` (`/prefix/` for an empty endpoint) |
| `Paths.FormatUrlExamples` | src/endpoints/abstract.ts:15-17 | prefix `memory` gives `/memory/points` for `points` and `/points`, and `/memory/` for the empty endpoint; prefix `plugins` gives `/plugins/upload` |
| `Requests.Truthy` | src/endpoints/abstract.ts:33 | `if (x)` fails exactly for `undefined`, `null`, `false`, `0` and `""`; every object and array passes, including `{}` and `[]` |
| `Requests.QueryOptions` | src/endpoints/abstract.ts:32-35 | `get` attaches `query` if and only if it is truthy, unchanged, and never `json` or `multipart` |
| `Requests.JsonOptions` | src/endpoints/abstract.ts:47-50 | `postJson` and `delete` send the empty record exactly when the payload is falsy, otherwise `json` is the payload; never `query` or `multipart` |
| `Requests.MultipartOptions` | src/endpoints/abstract.ts:62-65 | `postMultipart` sends the empty record exactly when no array is given, otherwise `multipart` is the given array, even when empty; never `query` or `json` |
| `Requests.PutOptions` | src/endpoints/abstract.ts:72 | `put` always sends the payload as `json`, falsy or not, and nothing else |
| `Requests.Complete` | src/endpoints/abstract.ts:37-38 | a transport failure is the helper's result unchanged; a reply's data goes through the serializer (`deserialize`, lines 27-29), whose result (or failure) is returned unchanged |
| `Requests.NoBodyDiffersFromEmptyBody` | src/endpoints/abstract.ts:47-50 | `undefined`, `null`, `0` and `""` give an options record with no `json` key while `{}` gives `json: {}`; an empty multipart array is kept as `multipart`; `put` puts even `undefined` under `json` |
| `Endpoints.AbstractEndpoint.constructor` | src/endpoints/abstract.ts:11-13 | the endpoint keeps the client it is given |
| `Endpoints.AbstractEndpoint.GetHttpClient` | src/endpoints/abstract.ts:19-21 | the transport is resolved for exactly the given agent and user |
| `Endpoints.AbstractEndpoint.Get` | src/endpoints/abstract.ts:31-39 | exactly one GET of `endpoint` unchanged, scoped to `(agentId, userId)`, with `QueryOptions(query)` is appended to the log; the result is that request's reply deserialized |
| `Endpoints.AbstractEndpoint.PostJson` | src/endpoints/abstract.ts:41-54 | exactly one POST of `endpoint` unchanged, scoped to `(agentId, userId)`, with `JsonOptions(payload)`; the result is its reply deserialized |
| `Endpoints.AbstractEndpoint.PostMultipart` | src/endpoints/abstract.ts:56-69 | exactly one POST of `endpoint` unchanged, scoped to `(agentId, userId)`, with `MultipartOptions(payload)`; the result is its reply deserialized |
| `Endpoints.AbstractEndpoint.Put` | src/endpoints/abstract.ts:71-74 | exactly one PUT of `endpoint` unchanged, scoped to `(agentId, userId)`, with `{json: payload}`; the result is its reply deserialized |
| `Endpoints.AbstractEndpoint.Delete` | src/endpoints/abstract.ts:76-89 | exactly one DELETE of `endpoint` unchanged, scoped to `(agentId, userId)`, with `JsonOptions(payload)`; the result is its reply deserialized |

## Left out

- The axios transport (lines 3, 19-21) is a foreign library. It is modelled only as a request log plus a reply function `respond` from request to data or transport failure.
- What the transport does with the options record is not modelled: which key becomes the request body, the query string or the config, and what is sent when a key is absent. The model states only which keys the record holds.
- The backend's state is not modelled: `respond` gives the reply as a function of the request alone, so the same request always gets the same reply.
- The WebSocket client factory `getWsClient` (lines 23-25) manages connections and is used by no verb helper.
- The serializer's format (lines 27-29) is not modelled. It is a function field `deserialize` from data to a value or a deserialization failure.
- The type parameter `T` of the helpers is a static cast only. Results are the serializer's `JsValue`.
- `async`/`Promise` are not modelled. Each helper is one sequential step, and no claim is made about ordering between calls in flight.
- The field `prefix` is declared at line 8 but assigned only by subclasses. It is a parameter of `Paths.FormatUrl`.
- The unused field `systemId` (line 9) and the internals of `CheshireCatClient` are not modelled, including authentication.
- `Requests.Truthy`: numbers are integers, so fractional numbers, `NaN`, `-0` and BigInt `0n` are not modelled. In JavaScript the last three are falsy.
- `src/endpoints/types.ts` is not part of this model. The fields of `MultipartItem` are name, content bytes, and optional file name and content type.
