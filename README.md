# URL-shortener frontend client, modelled in Dafny

This project models the logic of the URL-shortener frontend's API client
(`Frontend/src/services/api.js`) and its two form validators
(`Frontend/src/utils/validators.js`). Both are pure functions here.

- **Response bodies** are JavaScript values (`JsValues.Value`): what a JSON body
  parses to, plus `undefined` for a missing property. `Truthy` is JavaScript
  truthiness. Empty strings, zero, `false`, `null` and `undefined` are falsy.
  Arrays and objects are truthy, even when empty. `Or` is `||`: it returns the
  operand itself, not a boolean.
- **What an operation throws** is `Thrown`. It is either an `Error` built from
  a value, or the runtime `TypeError`. The client meets a `TypeError` when it
  reads a property of `null`/`undefined`, or calls `.split` or `.map` on a value
  without that method.
- **The transport** is the parameter `send: Request -> Outcome`. Each operation
  builds its `Request` (method, path, body, query), calls `send` once and
  decodes the `Outcome`. An outcome is either the body of a 2xx response or one
  of the three rejections the error interceptor tells apart.
- **Code extraction** `shortUrl.split('/').pop()` is `Segments.Split` followed
  by taking the last piece. `Split` and `Join` are proved mutual inverses.
  `LastSegment` is characterised as the longest slash-free tail of the string.
- **`isValidCode`** models the regular expression `/^[a-zA-Z0-9_-]+$/` as a
  recursive matcher, proved equal to "every character is in the class".
- **`validateUrl`** receives the URL Standard's parser as the parameter `parse`,
  which gives the scheme or `None` on failure. It compares the `protocol`
  (scheme followed by `:`) with `http:` and `https:`.

Three facts about the code that shape the model:
- The `success` gate is `!data.success` (`api.js:55`): JavaScript falsiness, so
  `success: 1` or `success: "yes"` passes.
- The list is `data.urls || data.items || []` (`api.js:100`): the first truthy
  of the two, so `urls: null` or `urls: ""` falls through to `items`, and a
  truthy non-array there makes `.map` throw.
- Every failure the client raises itself is a plain `Error` carrying a message
  (`api.js:39-43`, `56`, `74`, `96`, `123`, `133`).

## Model

| member | source | states |
|---|---|---|
| JsValues.Or | Frontend/src/services/api.js:38 | `a \|\| b` yields `a` when truthy, else `b`; the result is truthy iff either operand is |
| JsValues.Member | Frontend/src/services/api.js:55 | reading a property throws `TypeError` exactly on null/undefined, and otherwise yields the own field or `undefined` |
| Segments.Split | Frontend/src/services/api.js:61 | `split('/')` yields at least one piece, and no piece contains `/` |
| Segments.JoinSplit | Frontend/src/services/api.js:61 | joining the pieces of `split('/')` with `/` gives back the string |
| Segments.SplitJoin | Frontend/src/services/api.js:61 | splitting joined slash-free pieces gives back the same pieces |
| Segments.LastSegment | Frontend/src/services/api.js:59-61 | `split('/').pop()` has no `/`, is a tail of the input, is preceded by `/` unless it is the whole input, and is the whole input when the input has no `/` |
| Segments.LastSegmentUnique | Frontend/src/services/api.js:59-61 | those properties determine the extracted code uniquely |
| Api.RejectionError | Frontend/src/services/api.js:34-45 | with a response, the message is its body's truthy `error`, else its truthy `message`, else "Server error occurred"; with only a request, the connection message; otherwise "Request failed. Please try again." |
| Api.CheckSuccess | Frontend/src/services/api.js:55-57 | passes exactly when the body has a truthy `success`; otherwise throws `error \|\| fallback` (TypeError on a null body) |
| Api.SplitPop | Frontend/src/services/api.js:61 | succeeds exactly on strings, giving their last `/`-delimited segment (a slash-free tail); throws TypeError otherwise |
| Api.ShortenUrl | Frontend/src/services/api.js:49-68 | succeeds iff the response has truthy `success` and a string `shortUrl`; returns that `shortUrl`, the body's `originalUrl`, and as code the last `/`-delimited segment of the short URL; a truthy `success` with a non-string `shortUrl` throws TypeError |
| Api.GetUrlByCode | Frontend/src/services/api.js:70-84 | succeeds iff the body has truthy `success`; the record echoes the argument code, copies `originalUrl`/`shortUrl`/`createdAt`, and `clicks` is the body's when truthy, else 0 |
| Api.GetUrlStats | Frontend/src/services/api.js:129-143 | succeeds iff the body has truthy `success`; the record echoes the argument code, copies `originalUrl`/`shortUrl`/`createdAt`, and `clicks` is the body's when truthy, else 0 |
| Api.ListEntry | Frontend/src/services/api.js:100-108 | succeeds iff the element is not null/undefined and its `shortUrl` is falsy or a string, else throws TypeError; code is the last segment of a truthy `shortUrl`, else the element's `code`; `originalUrl`/`shortUrl`/`createdAt` copied; `clicks` the element's when truthy, else 0 |
| Api.MapEntries | Frontend/src/services/api.js:100-109 | `.map` succeeds iff every element does, with one record per element in order; otherwise it throws the first element's error |
| Api.GetAllUrls | Frontend/src/services/api.js:86-117 | succeeds iff the body has truthy `success`, an array source and every element maps; record i comes from source element i; `totalPages`, `currentPage`, `totalCount` are the body's when truthy, else 1, the requested page (1 by default), the record count |
| Api.DeleteUrl | Frontend/src/services/api.js:119-127 | succeeds iff the body has truthy `success`, and then returns the body unchanged |
| ApiProperties.RejectionFailsEveryOperation | Frontend/src/services/api.js:34-45 | whichever operation's one call is rejected fails with the interceptor's error; no response gives the connection message |
| ApiProperties.RejectionMessageNonEmpty | Frontend/src/services/api.js:36-44 | a rejection's message is never falsy; only an error response without a body throws TypeError instead |
| ApiProperties.FalsySuccessFails | Frontend/src/services/api.js:55-57 | with a falsy `success`, each operation throws the body's truthy `error`, else its own fixed message (shorten, not found ×2, fetch, delete) |
| ApiProperties.StatsAgreesWithLookup | Frontend/src/services/api.js:129-142 | `getUrlStats` makes the same request as `getUrlByCode` (`"/" + code`), returns the identical result, and echoes the argument code |
| ApiProperties.ListSourceChoice | Frontend/src/services/api.js:100 | the list comes from `urls` whenever it is an array (even empty), else from a truthy `items`, else from the empty array |
| ApiProperties.ListRecordsFollowSource | Frontend/src/services/api.js:100-109 | record i comes from source element i: code from truthy `shortUrl`'s last segment or own `code`, `clicks` truthy or 0, other fields copied |
| ApiProperties.PagingDefaults | Frontend/src/services/api.js:111-116 | `totalPages` falls back to 1, `currentPage` to the requested page (1 by default), and `totalCount` to the number of records |
| ApiProperties.NonArrayListThrows | Frontend/src/services/api.js:100 | a truthy non-array list source makes `getAllUrls` throw TypeError |
| ApiProperties.ExampleCodeExtraction | Frontend/src/services/api.js:59-61 | "http://localhost:5000/tf73lk" yields "tf73lk" |
| ApiProperties.ExampleShorten | Frontend/src/services/api.js:49-68 | a successful shorten body yields its short URL, the code "tf73lk" and its original URL |
| ApiProperties.ExampleShortenRejected | Frontend/src/services/api.js:55-57 | `{success: false, error: "bad url"}` throws "bad url" |
| ApiProperties.ExampleItemsList | Frontend/src/services/api.js:86-117 | an `items`-only list with one element gives one record, one page, page 1 and a count of 1 |
| Validators.CodePatternExact | Frontend/src/utils/validators.js:11 | `/^[a-zA-Z0-9_-]+$/` matches exactly the non-empty strings drawn from the class |
| Validators.IsValidCode | Frontend/src/utils/validators.js:10-12 | true iff 5 ≤ length ≤ 10 and every character is in `[a-zA-Z0-9_-]` |
| Validators.CodeLengthBounds | Frontend/src/utils/validators.js:11 | any string shorter than 5 (the empty one included) or longer than 10 is rejected |
| Validators.OneBadCharRejects | Frontend/src/utils/validators.js:11 | one character outside the class, at any position, rejects the code |
| Validators.CodeExamples | Frontend/src/utils/validators.js:11 | "ab_12", "_abc-" and "-x9Z_0aaaa" are accepted; "ab", "abcde!" and an 11-character code are rejected |
| Validators.Protocol | Frontend/src/utils/validators.js:4 | a URL's `protocol` is its scheme followed by `:` |
| Validators.ValidateUrl | Frontend/src/utils/validators.js:1-8 | true iff the parse succeeds with scheme `http` or `https`; a parse failure gives false instead of throwing |
| Validators.ProtocolInjective | Frontend/src/utils/validators.js:4 | two protocols are equal iff their schemes are |
| Validators.OtherSchemesRejected | Frontend/src/utils/validators.js:3-4 | any other scheme, such as `ftp`, gives false |

## Left out

- Client configuration: the axios instance, the base URL from the environment or `http://localhost:5293`, the 10000 ms timeout and the JSON headers (`api.js:3-14`). The transport is the parameter `send`.
- Logging in both interceptors (`api.js:5`, `19`, `23`, `31`, `35`). It is a side channel that callers cannot observe. The request interceptor otherwise passes the request through unchanged.
- Asynchrony and the HTTP calls themselves. A call is one application of `send`, and concurrency and timeouts are inside it.
- How axios serialises the query (`page`, `pageSize`) and the JSON request body. The model keeps them as values in `Request`.
- The URL Standard's parser behind `new URL(...)` (`validators.js:3`). It is the parameter `parse`.
- Numbers are integers. NaN (falsy), fractions and `-0` are not modelled.
- `new Error(v)` converts `v` to a string. `Thrown.Error` keeps `v` itself, and the text of a runtime `TypeError` is not modelled.
- JavaScript strings count UTF-16 code units, while the model counts characters. `isValidCode` gives the same answer either way, because a character outside the Basic Multilingual Plane is never in `[a-zA-Z0-9_-]`.
