# MycoPet customer-update relay — a Dafny model

The relay (`server.js`) receives a POST with a customer email and a list of
profile metafields, looks the customer up on the Shopify Admin GraphQL API,
coerces each field to the metafield type the platform expects, and writes the
fields back with `metafieldsSet`. Every path answers HTTP 200 with a JSON
status, so a checkout that calls it is never blocked. A CORS middleware in
front of every route admits only the shop's own origin and ends every
preflight with 204.

This model covers the decision logic of that file as pure functions:

- `js_values.dfy` (`JsValues`): the JavaScript semantics the code relies on,
  written out: truthiness, `String(v)`, `String(v ?? '')`, `slice(0, 10)`,
  and `replace(',', '.')`, which replaces only the first comma.
- `metafields.dfy` (`Metafields`): the `metafields.map(...)` coercion, with the
  two fixed key sets, the `"profile"` default namespace, and the two error
  messages a throwing element produces.
- `handler.dfy` (`Handler`): the handler's validate → lookup → coerce → write →
  catch sequence. It returns the outcome, status 200, and the upstream calls
  made, with their arguments.
- `cors.dfy` (`Cors`): the middleware's choice of headers and whether it ends
  the request with 204.
- `server.dfy` (`Server`): the middleware and the handler composed for the
  update route.
- `wrappers.dfy` (`Wrappers`): `Option` and `Result`.

The JavaScript built-ins with floating-point or calendar semantics are
parameters. `Builtins.dateToIso` stands for `new Date(s).toISOString()` and
gives None where that throws. `Builtins.numberToString` stands for
`String(Number(s))` and gives None where the number is not finite. The two
GraphQL calls are parameters as well (`Upstream.lookup`,
`Upstream.metafieldsSet`). Each one either returns a value or throws a
message. The shop domain is a plain `string` parameter.

Two details of `server.js` that the model keeps:

- `server.js` performs no host-header or proxy check. Any caller that gets
  past the body parser reaches the handler.
- A request whose `metafields` is not an array is skipped (`Array.isArray`),
  the same as one whose list is empty.

## Model

| member | source | states |
|---|---|---|
| `JsValues.ToJsStringOrEmpty` | server.js:68 | `String(v ?? '')` is "" exactly for null, undefined and the empty string; otherwise it is `String(v)` |
| `JsValues.ToJsString` | server.js:61-65 | `String(v)` gives "null" and "undefined" for those two values and a value's own text otherwise, so it is "" only for an empty text |
| `JsValues.SliceFromStart` | server.js:61 | `slice(0, n)` is a prefix of its input, of length n or the whole input if shorter |
| `JsValues.FirstIndexOf` | server.js:65 | the index found holds the character, and no earlier index does; the length of the string means "absent" |
| `JsValues.ReplaceFirst` | server.js:65 | `replace` with a one-character pattern keeps the length, sets the first occurrence to the replacement, and keeps every other character |
| `JsValues.ReplaceFirstAbsent` | server.js:65 | without an occurrence, the string is unchanged |
| `JsValues.ReplaceFirstSplits` | server.js:65 | with an occurrence, the result is the text before the first one, the replacement, then the rest unchanged |
| `JsValues.ReplaceFirstCount` | server.js:65 | exactly one occurrence disappears, so later commas survive |
| `Metafields.TypeName` | server.js:62-68 | each type has its own platform name: `date`, `number_decimal`, `single_line_text_field`, and no two types share one |
| `Metafields.NamespaceOf` | server.js:58 | a truthy namespace is kept; otherwise the namespace is "profile"; never empty |
| `Metafields.DecimalInput` | server.js:65 | the number parser's input has the length of the value's text, a period at its first comma, and every other character unchanged |
| `Metafields.DecimalInputReplacesFirstComma` | server.js:65 | the number parser sees the value's text with only its first comma made a period |
| `Metafields.CoerceOne` | server.js:57-69 | one element: fails exactly for a null element (TypeError) or a date key whose date is invalid (RangeError); otherwise keeps the key, defaults the namespace, sets `date` iff the key is `pet_date_of_birth` and `number_decimal` iff it is `pet_weight_kg` or `pet_age_years`, and gives the 10-character ISO prefix, the parsed number or "0", or `String(value ?? '')` |
| `Metafields.CoerceAll` | server.js:57-69 | the map succeeds iff every element coerces; then output i is the coercion of input i and the lengths agree; otherwise the error is that of the first failing element |
| `Metafields.CoerceAllKeepsKeys` | server.js:57-69 | after a successful map, output i has the key of input i, its defaulted namespace, and the type its key selects; the type name sent is "date" iff the key is `pet_date_of_birth`, "number_decimal" iff it is `pet_weight_kg` or `pet_age_years`, else "single_line_text_field" |
| `Metafields.KindOfKey` | server.js:55-68 | the type chosen by the key alone: date iff `pet_date_of_birth`, decimal iff `pet_weight_kg` or `pet_age_years` |
| `Metafields.TypeDependsOnlyOnKey` | server.js:55-68 | the type of a coerced field depends on its key and never on its value |
| `Metafields.NullishValues` | server.js:65-68 | a null or absent value is "" in a text field, but reaches the number parser as "null" or "undefined" in a decimal field |
| `Metafields.InvalidDateFailsAll` | server.js:60-62 | one unparseable date fails the whole map; it gives the RangeError when no earlier element can throw |
| `Metafields.NonFiniteDecimalIsZero` | server.js:66 | a decimal whose text is not a finite number is sent as "0" |
| `Metafields.CommaDecimalExample` | server.js:64-66 | `pet_weight_kg` "12,5" is sent as `number_decimal` "12.5" in namespace "profile" |
| `Metafields.DateExample` | server.js:60-62 | `pet_date_of_birth` "2020-03-15T10:00:00Z" is sent as `date` "2020-03-15" |
| `Metafields.TextExample` | server.js:58-68 | `favorite_toy` "ball" with no namespace is a `single_line_text_field` in "profile" |
| `Handler.Query` | server.js:50 | the lookup's search string is the six characters `email:` followed by the email |
| `Handler.HasInput` | server.js:44 | a request passes the guard only with an email present, so the lookup never searches for an empty email |
| `Handler.Handle` | server.js:41-85 | status is always 200; skipped-missing and no upstream call happen exactly when the input is missing; the first call is always the lookup for that email; at most two calls, the second being the write |
| `Handler.ToBody` | server.js:45-83 | `ok` is false only for a caught error; each body has exactly one of `skipped`, `result`, `error`; the two skip reasons are the literal strings; `result` is the write's payload unchanged and `error` is the thrown message |
| `Handler.MissingInputSkips` | server.js:43-46 | an absent or empty email, or a non-array or empty list, answers `{ok:true, skipped:'missing email or metafields'}` with no upstream call |
| `Handler.NotFoundSkipsWrite` | server.js:50-52 | a lookup with no truthy id answers skipped customer-not-found after the lookup alone |
| `Handler.WriteCalledIff` | server.js:50-80 | the write is called iff the input is present, the lookup returned a truthy id, and every field coerced; it gets that id and the coerced fields |
| `Handler.UpdatedPassesResultThrough` | server.js:79-80 | an `Updated` outcome carries the write's payload unchanged |
| `Handler.FailuresAreCaught` | server.js:42-84 | `ok:false` happens exactly when the lookup, the coercion or the write throws, with status 200; the error is the lookup's thrown message, the first failing field's error, or the write's thrown message, and the body carries it |
| `Handler.InvalidDateFailsRequest` | server.js:57-83 | an unparseable date, once the customer is found, fails the request without calling the write |
| `Cors.AllowedOrigin` | server.js:13 | the allowed origin is `https://` followed by the shop domain |
| `Cors.CorsHeaders` | server.js:17-21 | five headers with distinct names, the first echoing the allowed origin, and the allowed methods `POST,OPTIONS` |
| `Cors.Middleware` | server.js:14-25 | it ends with 204 iff the method is OPTIONS; it sets the five CORS headers iff the Origin header exactly equals the allowed origin, else none; the first header echoes that origin |
| `Cors.PreflightAlways204` | server.js:23 | every preflight ends with 204; an origin that is not allowed gets no header |
| `Cors.OnlyExactOriginGetsHeaders` | server.js:16 | another shop's origin, the shop's `http://` origin, or a missing Origin header gets no CORS header |
| `Server.UpdateRoute` | server.js:14-85 | OPTIONS answers 204 with no body and no upstream call; POST answers 200 with the handler's outcome as its JSON body and the handler's calls; the CORS headers are present iff the origin matches |
| `Server.NeverAnErrorStatus` | server.js:14-85 | no POST or OPTIONS request to the update route whose body the parser accepted gets a status outside 2xx |

## Left out

- Express setup, body parsing, route registration, `app.listen` and the `GET /` health check (server.js:2-7, 87-88): HTTP plumbing.
- The `gql` helper, `fetch`, the GraphQL documents and the upstream JSON shapes (server.js:32-39, 49, 72-78): network I/O. The two calls are abstract parameters, and the lookup gives only the id at `data.customers.edges[0].node.id`.
- Environment loading and the startup exit when `SHOPIFY_SHOP` or `SHOPIFY_ADMIN_TOKEN` is unset (server.js:9-10, 27-30): the shop domain is a parameter; the token is not modelled.
- The internals of `Date` parsing, `toISOString`, `Number()` and number-to-string formatting (server.js:61, 65-66): floating point and calendar built-ins, left as the `Builtins` parameters.
- `async`/`await` scheduling and `console.error` logging: not behaviour of the relay.
- `JsValues.ToJsString`: `String(v)` of a value other than null or undefined is taken as given (`Defined(text)`), including objects, arrays and booleans; a `toString` that throws is not modelled.
- `Metafields.RawField`: `namespace` and `key` are modelled as absent or a string. A non-string truthy namespace is passed on as it is in the source, but it is not representable here.
- `Handler.Request`: `email` is modelled as absent or a string. A non-string truthy email, such as a number, is not representable.
- `Metafields.NullElementError`: the TypeError text for a null list element is the wording of the V8 engine. Other engines word it differently.
- `Server.UpdateRoute`: only the OPTIONS and POST methods are modelled. Other methods never reach this handler; a GET to the route ends in Express's 404.
- `Server.NeverAnErrorStatus`: the JSON body parser (server.js:7) runs before the middleware and answers 400 for a malformed or non-object body and 413 for a body over 128kb. Those statuses are not modelled, so the lemma covers only bodies the parser accepted.
- A failure of `res.json` itself, such as a payload that cannot be serialised, is not modelled.
