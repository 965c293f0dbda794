# AuthN request clients and store-viewer path helpers, modelled in Dafny

This project models the HTTP client `AuthNClient` in two versions. The
`packages/vanilla-js` version polls on a 202 reply; the `packages/react-auth`
version does not. It also models two small helpers of
`packages/react-mui-store-file-viewer`: `parseErrorFromPangea`, and the
segment and breadcrumb paths of `FolderPath`.

A client checks its configuration when it is built. It sends each request to
`{scheme}://authn.{domain}/v2/{endpoint}`, where the scheme is `http` only for
domains that match `^local\.?host(:\d{2,5})?$`. It folds every reply or
rejection into a `{success, response}` envelope, unless `getError` itself
throws while reading the rejection. When the first reply is a
202 (accepted), the vanilla client polls `request/{request_id}` with GET up
to three times. Right before each check it waits: 4000, 9000 and then 16000 ms. If
every check is still a 202, it returns the last 202 reply as the result.

How things are modelled:

- `Js` models the JavaScript values the code works with. It covers
  truthiness, `?.` versus `.` (which throws on `null`/`undefined`), `??`, and
  the text a template literal produces (`undefined` prints as "undefined").
- `AuthN.Environment` stands in for axios and `delay`. The n-th request gets
  the scripted outcome `script(n)`: a reply `(status, body)` or a rejection
  value. `sent` logs every request, and its length numbers the next reply.
  `trace` logs the requests and the waits together, in the order they
  happen; `delay` only adds the wait it is given to it.
- The window's origin is a parameter `origin: Option<string>`. `None` means
  there is no `window`.
- The constructors throw, so each is a static `New` that returns either the
  thrown `Error` or a fresh client. The caller's config is a class whose
  `callbackUri` `New` may write. The client keeps its copy as a datatype
  value, so later changes to the caller's object cannot reach it.
- Each `post` is specified by a function `PostRun`. It gives the call's
  result, the requests it sends, and the trace of those requests with the
  waits between them. The methods
  (`Post`, `HandleAsync`, `Get`, the five wrappers) are proved against it,
  and the lemmas state the properties of `PostRun`.

Behaviour of the code worth knowing:

- `handleAsync` increments `retryCount` from 1 before it computes the wait.
  So it sends at most three status checks, each after a wait: 4000, 9000 and
  16000 ms.
- `getError` reads `error.reqest` (misspelt) for a request sent without a
  reply, so that branch's `result` is undefined.
- `post` can throw. In `packages/vanilla-js` it throws when the rejection is
  `null`/`undefined`, or when it is an axios error whose reply's decoded body
  (`data`) is `null` or `undefined` (see Findings). In `packages/react-auth` it throws only for a
  `null`/`undefined` rejection.
- The `!response` test in `parseErrorFromPangea` can be reached. `??` keeps
  a falsy `error.response` such as `false`, `0` or `""`. In that case it
  returns the same text as the code after it.
- `FolderPath` cuts the folder at every `/` and drops the empty pieces, so
  `a//b/` and `/a/b` have the same segments `a` and `b`.

## Model

| member | source | states |
|---|---|---|
| `AuthN.LoopbackMatchesPattern` | packages/vanilla-js/src/AuthNClient/index.ts:118-120 | the domain matcher accepts exactly the language of `^local\.?host(:\d{2,5})?$`: "localhost" or "local.host", then nothing or ":" and 2 to 5 ASCII digits (both directions) |
| `AuthN.IsLoopbackDomain` | packages/vanilla-js/src/AuthNClient/index.ts:118 | the body is the matcher the clients run: a `localhost`/`local.host` prefix, then the end or ":" and 2 to 5 digits; `AuthN.LoopbackMatchesPattern` proves it equal to the pattern |
| `AuthN.GetUrl` | packages/vanilla-js/src/AuthNClient/index.ts:117-122 | the body is the definition, `{scheme}://authn.{domain}/v2/{endpoint}`; `AuthN.UrlShape` and `AuthN.UrlEndpointInjective` state its properties |
| `AuthN.UrlShape` | packages/vanilla-js/src/AuthNClient/index.ts:117-122 | `getUrl` gives a URL that starts with "http://" iff the domain matches the loopback pattern and with "https://" otherwise; it ends with "/v2/" + endpoint |
| `AuthN.UrlEndpointInjective` | packages/react-auth/src/AuthNClient/index.ts:118-123 | for a fixed config, two endpoints that give the same URL are equal |
| `AuthN.Route` | packages/vanilla-js/src/AuthNClient/index.ts:28-61 | the body is the definition: the path and payload each wrapper hands to `post`; `AuthN.RouteInjective` states that they are pairwise distinct |
| `AuthN.Fold` | packages/vanilla-js/src/AuthNClient/index.ts:78-80 | the body is the definition, `{success: data?.status === "Success", response: data}`; `AuthNVanilla.SuccessIffFinalStatus` and `AuthNReact.NoPolling` state what it gives |
| `AuthN.RouteInjective` | packages/react-auth/src/AuthNClient/index.ts:33-86 | the five wrappers send pairwise distinct (path, payload) pairs, and the payload carries the wrapper's arguments |
| `AuthNVanilla.GetOptions` | packages/vanilla-js/src/AuthNClient/index.ts:124-133 | the headers are exactly Content-Type `application/json` and Authorization `Bearer {clientToken}` |
| `AuthNVanilla.AsyncRun` | packages/vanilla-js/src/AuthNClient/index.ts:100-115 | the body is the definition of `handleAsync`, built on `Polls`, `Repeat` and `Rounds`; `AuthNVanilla.AuthNClient.HandleAsync` is proved against it, and `AuthNVanilla.PollingBounded`, `AuthNVanilla.PollingStopsAtFirstTerminal` and `AuthNVanilla.ExhaustedReturnsLastAccepted` state its properties |
| `AuthNVanilla.ErrorMessage` | packages/vanilla-js/src/AuthNClient/index.ts:135-156 | the body is the definition of `getError`, throws included; `AuthNVanilla.ErrorMessageShape`, `AuthNVanilla.ErrorMessageBranches` and `AuthNVanilla.NullBodyMakesPostThrow` state its properties |
| `AuthNVanilla.PostRun` | packages/vanilla-js/src/AuthNClient/index.ts:66-84 | the body is the definition of one `post` call: its result, its requests, and the trace of its requests and waits; `AuthNVanilla.AuthNClient.Post` is proved against it, and the lemmas below state its properties |
| `AuthNVanilla.Rounds` | packages/vanilla-js/src/AuthNClient/index.ts:105-112 | k rounds of polling are 2k events; round i is a wait of (i+2)²·1000 ms followed directly by the status check |
| `AuthNVanilla.Polls` | packages/vanilla-js/src/AuthNClient/index.ts:102-105 | the number of status checks is between 1 and 3; every check before the last answered 202; with fewer than 3 checks, the last did not answer 202 |
| `AuthNVanilla.PollsUnique` | packages/vanilla-js/src/AuthNClient/index.ts:105 | those three conditions fix the number of status checks uniquely |
| `AuthNVanilla.ErrorMessageShape` | packages/vanilla-js/src/AuthNClient/index.ts:135-156 | `getError` throws iff the error is nullish or is an axios error whose reply's decoded body (`data`) is `null` or `undefined`; otherwise it gives an object with exactly status/summary/result, and status is "Error" unless a server reply supplied it |
| `AuthNVanilla.ErrorMessageBranches` | packages/vanilla-js/src/AuthNClient/index.ts:142-153 | reply branch: status/summary/result copied from the body; request-only branch: "Error", "{status} {statusText}", `error.reqest`; otherwise "Error", "Unhandled error", the raw error |
| `AuthNVanilla.NoReplyResultUndefined` | packages/vanilla-js/src/AuthNClient/index.ts:146-148 | an error with a request, no reply and no `reqest` property gets an undefined result |
| `AuthNVanilla.NoPollingUnlessAccepted` | packages/vanilla-js/src/AuthNClient/index.ts:74-80 | a first outcome that is not a 202 reply means one POST and no wait, so the trace is that POST alone; a reply is returned verbatim with `success` iff its body's status is "Success" |
| `AuthNVanilla.PollingBounded` | packages/vanilla-js/src/AuthNClient/index.ts:100-112 | one POST, then at most 3 GETs, only after a 202, all to `request/{request_id}` of the first body; the trace starts with the POST, and the i-th GET comes directly after a wait of (i+1)²·1000 ms, which comes directly after the request before it |
| `AuthNVanilla.PollingStopsAtFirstTerminal` | packages/vanilla-js/src/AuthNClient/index.ts:105-114 | if status check k is the first that does not answer 202, exactly k checks are sent, the trace is the POST followed by `Rounds(check, k)`, and check k's outcome decides the result |
| `AuthNVanilla.ExhaustedReturnsLastAccepted` | packages/vanilla-js/src/AuthNClient/index.ts:102-114 | when all replies are 202: the requests are the POST and three identical GETs, the trace is exactly POST, wait 4000, GET, wait 9000, GET, wait 16000, GET, and the third 202 reply is folded as the normal result, not an error |
| `AuthNVanilla.ResultFromLastRequest` | packages/vanilla-js/src/AuthNClient/index.ts:74-83 | the result of `post` is decided by the outcome of its last request |
| `AuthNVanilla.PostThrowsOnlyOnUnreadableError` | packages/vanilla-js/src/AuthNClient/index.ts:81-83 | `post` throws iff its last request was rejected with a value `getError` cannot read; a failed status check is caught like a failed POST |
| `AuthNVanilla.SuccessIffFinalStatus` | packages/vanilla-js/src/AuthNClient/index.ts:78-80 | `success` is true iff the last request got a reply whose body's status is "Success" |
| `AuthNVanilla.NullBodyMakesPostThrow` | packages/vanilla-js/src/AuthNClient/index.ts:143 | an axios error with a `null` reply body makes `post` throw the TypeError from reading `null.status` |
| `AuthNVanilla.AuthNClient.New` | packages/vanilla-js/src/AuthNClient/index.ts:11-22 | throws "A token is required" without a token, and only then "A domain is required"; otherwise fills the caller's blank `callbackUri` with the origin when a window exists, and keeps a copy of the config in a fresh client |
| `AuthNVanilla.AuthNClient.Logout` | packages/vanilla-js/src/AuthNClient/index.ts:28-33 | behaves as `post("client/session/logout", {token})` |
| `AuthNVanilla.AuthNClient.Validate` | packages/vanilla-js/src/AuthNClient/index.ts:35-40 | behaves as `post("client/token/check", {token})` |
| `AuthNVanilla.AuthNClient.Userinfo` | packages/vanilla-js/src/AuthNClient/index.ts:42-47 | behaves as `post("client/userinfo", {code})` |
| `AuthNVanilla.AuthNClient.Refresh` | packages/vanilla-js/src/AuthNClient/index.ts:49-56 | behaves as `post("client/session/refresh", {user_token, refresh_token})` |
| `AuthNVanilla.AuthNClient.Jwks` | packages/vanilla-js/src/AuthNClient/index.ts:58-61 | behaves as `post("client/jwks", {})` |
| `AuthNVanilla.AuthNClient.Post` | packages/vanilla-js/src/AuthNClient/index.ts:66-84 | the result, the requests logged and the trace recorded are those of `PostRun` |
| `AuthNVanilla.AuthNClient.Get` | packages/vanilla-js/src/AuthNClient/index.ts:87-98 | sends one GET to `getUrl(endpoint)` with the client's headers, adds only that GET to the trace, with no wait, and passes its outcome (a rejection too) through |
| `AuthNVanilla.AuthNClient.HandleAsync` | packages/vanilla-js/src/AuthNClient/index.ts:100-115 | the loop's outcome, the GETs logged and the trace recorded are those of the poll specification; in that trace each GET comes directly after its own wait |
| `AuthNVanilla.AuthNClient.GetError` | packages/vanilla-js/src/AuthNClient/index.ts:135-156 | filling the message object branch by branch gives `ErrorMessage(error)`, including its throws |
| `AuthNReact.GetOptions` | packages/react-auth/src/AuthNClient/index.ts:129-137 | the headers are exactly Content-Type `application/json`, the fixed User-Agent and Authorization `Bearer {clientToken}` |
| `AuthNReact.ErrorMessage` | packages/react-auth/src/AuthNClient/index.ts:144-166 | the body is the definition of `getError` with optional chaining; `AuthNReact.ErrorMessageTotal`, `AuthNReact.MissingBodyGivesUndefined` and `AuthNReact.ErrorMessageWithoutReply` state its properties |
| `AuthNReact.PostRun` | packages/react-auth/src/AuthNClient/index.ts:98-111 | the body is the definition of one `post` call; `AuthNReact.AuthNClient.Post` is proved against it, and `AuthNReact.NoPolling`, `AuthNReact.PostNeverThrows` and `AuthNReact.ClientsAgreeWithoutPolling` state its properties |
| `AuthNReact.ErrorMessageTotal` | packages/react-auth/src/AuthNClient/index.ts:144-166 | `getError` throws iff the error is nullish; otherwise it gives an object with exactly status/summary/result, with status "Error" unless a server reply supplied it |
| `AuthNReact.MissingBodyGivesUndefined` | packages/react-auth/src/AuthNClient/index.ts:151-155 | a reply whose decoded body (`data`) is `null` or `undefined` gives undefined status, summary and result instead of failing |
| `AuthNReact.ErrorMessageWithoutReply` | packages/react-auth/src/AuthNClient/index.ts:156-163 | request-only: "Error", "{status} {statusText}", `error.reqest`; otherwise "Error", "Unhandled error", the raw error |
| `AuthNReact.NoPolling` | packages/react-auth/src/AuthNClient/index.ts:98-107 | exactly one POST and no wait, so the trace is that POST alone; any reply, a 202 included, is returned verbatim with `success` iff its status is "Success" |
| `AuthNReact.PostNeverThrows` | packages/react-auth/src/AuthNClient/index.ts:108-110 | `post` throws iff the transport rejects with null/undefined; any other rejection becomes `{success: false, response: getError(err)}` |
| `AuthNReact.ClientsAgreeWithoutPolling` | packages/react-auth/src/AuthNClient/index.ts:98-111 | without a 202 and with a readable rejection, both clients give the same result and send the same URL and payload; their headers differ only in User-Agent |
| `AuthNReact.AuthNClient.New` | packages/react-auth/src/AuthNClient/index.ts:11-22 | token checked before domain, with the same messages; otherwise fills a blank `callbackUri` from the origin and keeps a copy in a fresh client |
| `AuthNReact.AuthNClient.Logout` | packages/react-auth/src/AuthNClient/index.ts:33-38 | behaves as `post("client/session/logout", {token})` |
| `AuthNReact.AuthNClient.Validate` | packages/react-auth/src/AuthNClient/index.ts:45-50 | behaves as `post("client/token/check", {token})` |
| `AuthNReact.AuthNClient.Userinfo` | packages/react-auth/src/AuthNClient/index.ts:57-62 | behaves as `post("client/userinfo", {code})` |
| `AuthNReact.AuthNClient.Refresh` | packages/react-auth/src/AuthNClient/index.ts:70-77 | behaves as `post("client/session/refresh", {user_token, refresh_token})` |
| `AuthNReact.AuthNClient.Jwks` | packages/react-auth/src/AuthNClient/index.ts:83-86 | behaves as `post("client/jwks", {})` |
| `AuthNReact.AuthNClient.Post` | packages/react-auth/src/AuthNClient/index.ts:98-111 | the result, the single request logged and the trace (that request alone) are those of `PostRun` |
| `AuthNReact.AuthNClient.GetError` | packages/react-auth/src/AuthNClient/index.ts:144-166 | filling the message object branch by branch gives `ErrorMessage(error)` |
| `StoreUtils.ParseErrorFromPangea` | packages/react-mui-store-file-viewer/src/utils/index.ts:34-45 | throws exactly when the error is `null`/`undefined` (reading `error.response`); `StoreUtils.ParseErrorCases` states what it returns otherwise |
| `StoreUtils.ParseErrorCases` | packages/react-mui-store-file-viewer/src/utils/index.ts:34-45 | throws iff the error is nullish; gives "{status}: {summary}" when either is truthy, and otherwise the error's own text; the `!response` test changes nothing |
| `StoreUtils.NoResponseGivesErrorText` | packages/react-mui-store-file-viewer/src/utils/index.ts:35-38 | a missing or falsy `error.response` always gives the error's own text |
| `StoreUtils.MissingPartRendersUndefined` | packages/react-mui-store-file-viewer/src/utils/index.ts:41 | when only one of status and summary is present, the other prints as "undefined" |
| `FolderPath.Split` | packages/react-mui-store-file-viewer/src/components/StoreDataGrid/FolderPath.tsx:41 | splitting yields at least one piece, and no piece holds the separator |
| `FolderPath.JoinSplit` | packages/react-mui-store-file-viewer/src/components/StoreDataGrid/FolderPath.tsx:41 | joining the pieces of a split with the separator gives back the string |
| `FolderPath.SplitJoin` | packages/react-mui-store-file-viewer/src/components/StoreDataGrid/FolderPath.tsx:63 | splitting the join of separator-free pieces gives back the pieces |
| `FolderPath.SplitSplice` | packages/react-mui-store-file-viewer/src/components/StoreDataGrid/FolderPath.tsx:41 | a separator between two strings separates their pieces: `split` of `a/t` is `split(a)` followed by `split(t)` |
| `FolderPath.NonEmpty` | packages/react-mui-store-file-viewer/src/components/StoreDataGrid/FolderPath.tsx:41 | the filter keeps exactly the non-empty pieces: every kept piece is non-empty and comes from the input, and every non-empty piece of the input is kept |
| `FolderPath.NonEmptyAppend` | packages/react-mui-store-file-viewer/src/components/StoreDataGrid/FolderPath.tsx:41 | the filter distributes over concatenation, so it keeps the non-empty pieces in their order |
| `FolderPath.Segments` | packages/react-mui-store-file-viewer/src/components/StoreDataGrid/FolderPath.tsx:41 | no segment is empty or holds "/" |
| `FolderPath.SegmentsOfName` | packages/react-mui-store-file-viewer/src/components/StoreDataGrid/FolderPath.tsx:41 | a slash-free folder name is a single segment, or none when it is empty |
| `FolderPath.SegmentsSplice` | packages/react-mui-store-file-viewer/src/components/StoreDataGrid/FolderPath.tsx:41 | the segments of `a/b` are those of `a` followed by those of `b`; with `FolderPath.SegmentsOfName` this fixes the segments of every folder |
| `FolderPath.SegmentsKeepEveryCharacter` | packages/react-mui-store-file-viewer/src/components/StoreDataGrid/FolderPath.tsx:41 | the segments, concatenated, are the folder with its slashes removed: dropping empty pieces loses no character |
| `FolderPath.View` | packages/react-mui-store-file-viewer/src/components/StoreDataGrid/FolderPath.tsx:43-64 | nothing is shown iff `defaultHidden` is set and there are no segments; otherwise the home control targets "/" and breadcrumb i is segment i with target `Target(segments, i)` |
| `FolderPath.Target` | packages/react-mui-store-file-viewer/src/components/StoreDataGrid/FolderPath.tsx:63 | the body is the definition, `"/" + folders.slice(0, idx + 1).join("/")`; `FolderPath.TargetSegments`, `FolderPath.TargetsGrow` and `FolderPath.LastTargetIsFolder` state its properties |
| `FolderPath.HomeIsRoot` | packages/react-mui-store-file-viewer/src/components/StoreDataGrid/FolderPath.tsx:50 | the home target "/" has no segments |
| `FolderPath.TargetSegments` | packages/react-mui-store-file-viewer/src/components/StoreDataGrid/FolderPath.tsx:57-64 | breadcrumb idx's target splits into the root and the first idx+1 segments, so its segments are exactly those |
| `FolderPath.TargetsGrow` | packages/react-mui-store-file-viewer/src/components/StoreDataGrid/FolderPath.tsx:57-64 | each target is the previous one plus "/" and the next segment, so it is a strictly longer extension of it |
| `FolderPath.LastTargetIsFolder` | packages/react-mui-store-file-viewer/src/components/StoreDataGrid/FolderPath.tsx:63 | the last target is "/" + segments joined with "/", and its own segments are the folder's segments (normalisation is idempotent) |

## Left out

- The transport is not modelled. HTTP, headers on the wire and which status codes axios rejects are unknown here; axios is a scripted oracle of outcomes.
- `delay` only records the milliseconds it is given. Elapsed time and cancellation are not modelled.
- `window.location.origin` is a parameter of `New`, and `console.log` is dropped.
- Calls are run one at a time. Two overlapping calls on one client cannot interfere, because they share only the immutable config, and the model does not state that.
- `AuthNVanilla.AuthNClient.New`: the unused `useJwt` argument is not modelled.
- `AuthNReact.AuthNClient.New`: the unused `useJwt` argument is not modelled, and neither are config fields other than `clientToken`, `domain` and `callbackUri`. The spread copies them too, but nothing in the core reads them.
- `AuthNVanilla.GetOptions`: returns the headers map; the `{headers: ...}` object around it is not modelled.
- `AuthNReact.GetOptions`: returns the headers map; the `{headers: ...}` object around it is not modelled.
- JavaScript numbers are integers here, and a primitive has no properties (the properties it inherits, such as a string's `length`, are not modelled). `${v}` of a plain object is "[object Object]", and `${v}` of an `Error` follows `Error.prototype.toString`.
- `FolderPath.View`: the `setFolder`/`setParentId` callbacks and the rendering are not modelled; each control keeps only the folder it opens.
- `formatBytes` and `abbreviateNumber` are not modelled: they use floating point (`Math.log`, `Math.pow`, `toFixed`) and `Intl.NumberFormat`.
- `passwordGenerator` is not modelled: it uses `Math.random` and a random sort comparator.
- `ComponentAuthProvider`, and every other React/MUI view and control of the repository, is not part of this model.

## Findings

| source | as written | input that shows it | evidently intended | confidence | as-written member | corrected member |
|---|---|---|---|---|---|---|
| packages/vanilla-js/src/AuthNClient/index.ts:142-145 | `getError` reads `error.response.data.status` without `?.`, so it throws a TypeError inside `post`'s `catch`, and `post` rejects | an axios error whose reply (status 500) has the JSON body `null` | `getError` returns `{status: undefined, summary: undefined, result: undefined}` and `post` resolves with `success: false`, as the optional-chaining copy in packages/react-auth/src/AuthNClient/index.ts:151-155 does (`AuthNReact.ErrorMessage`) | not executed; low, because axios yields `""` for an empty body and `null` only for a literal `null` body | `AuthNVanilla.NullBodyMakesPostThrow` | `AuthNReact.ErrorMessageTotal` |
