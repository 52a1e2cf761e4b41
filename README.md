# GameJolt game-API client: signed requests and the session state machine

This project models the core of a Unity client for the GameJolt game API in two
revisions of the same module: the callback/coroutine class `GameJoltAPI`
(`Runtime/GameJoltAPI.cs`) and the async static class `GameJolt`
(`Runtime/GameJolt.cs`), plus the `TrophyData` record and the `TrophyEventType`
enumeration (`Runtime/Classes.cs`).

What is modelled:

- **Signed requests** (`signing.dfy`). The request string is the base URL, the
  endpoint, `?game_id=<id>`, then `&<query>` for each query in order; it is built by
  a loop (`BuildRequest`) proved equal to `CanonicalRequest`. `Md5Sum` renders each
  digest byte with `Convert.ToString(b, 16).PadLeft(2, '0')` and pads to 32; it is
  proved equal to `HexString`, and `HexDecode` reads it back. `AddSignature` appends
  `&signature=` and the digest of the request followed by the game key; a receiver
  that splits the URL gets back the request and that digest. MD5 (with UTF-8
  encoding) is a parameter `md5: string -> Digest` of sixteen bytes.
- **Response envelope** (`envelope.dfy`). A reply fails only when `success` is
  exactly `"false"`; the failure carries `message`. Any other value passes, and so
  does a missing field. In the callback revision only a successful transfer reaches
  a continuation. Connection, protocol and data-processing errors run neither.
- **Session and operations** (`callback_client.dfy`, `async_client.dfy`). Each
  operation is split at its single network round trip. The operation checks its
  guard, updates the flags and issues the signed request. The request is appended
  to `requests`, and the continuation it waits for is recorded in `inFlight` under
  a ticket. A `Complete…` method then runs that continuation for a transport
  outcome. The object invariant `Valid` says four things:
  - credentials are empty unless authenticated;
  - every ticket names an issued request;
  - at most one authentication is in flight, and only while `isAuthenticating` holds;
  - an authentication ticket belongs to the `users/auth/` request of the current
    attempt, and each attempt sends at most one (ghost field `authSent`).
  A session is `Wedged` when it is authenticating, its attempt's request was sent,
  and no reply to it is awaited. Every operation keeps `Wedged`, and
  `CompleteAuthenticate` needs an authentication in flight, so a wedged session stays
  authenticating for good. Two client methods show the guard refusing a second
  authentication, and a transport failure wedging the session.
- **Query lists** (`requests.dfy`), with what a receiver reads from them (`Lookup`,
  `Occurrences`). **Records** (`classes.dfy`): the one-line `TrophyData.ToString`,
  which splits back into its five labelled fields and never shows the image URL.

The model follows the code: `difficulty` and `achieved` are unvalidated strings,
not enumerations. A reply
without a `response` object reads as an empty node and passes the envelope check.
A transport failure during authentication leaves `isAuthenticating` set. C# `null`
strings (the initial credentials) are modelled as `""`: string interpolation renders
both the same.

## Model

| member | source | states |
|---|---|---|
| Text.PadLeft | Runtime/GameJoltAPI.cs:253-256 | pads on the left with the fill character up to the width; a string already that long is returned unchanged |
| Text.IntToDecimal | Runtime/Classes.cs:19 | the decimal rendering of an int uses only digits and a leading minus sign exactly for negatives, and has no leading zeros |
| Text.IntDecimalRoundTrip | Runtime/GameJoltAPI.cs:102 | the rendering of every integer (a trophy id) parses back to the same integer |
| Text.SplitJoin | Runtime/GameJolt.cs:68-75 | a comma-joined (or `&`-joined) list of parts free of the separator splits back into exactly those parts |
| Signing.ByteHex | Runtime/GameJoltAPI.cs:253 | each byte is two lowercase hex digits |
| Signing.PaddedByteHex | Runtime/GameJoltAPI.cs:253 | `Convert.ToString(b, 16).PadLeft(2, '0')` is the two-digit rendering of b, high nibble first |
| Signing.HexString | Runtime/GameJoltAPI.cs:249-254 | a digest renders as twice as many characters, all lowercase hex |
| Signing.HexRoundTrip | Runtime/GameJoltAPI.cs:239-257 | the hex rendering decodes back to the digest bytes in order |
| Signing.Md5Sum | Runtime/GameJolt.cs:202-220 | the result is the hex rendering of the digest of the input, exactly 32 characters (the final pad changes nothing) |
| Signing.BuildRequest | Runtime/GameJolt.cs:168-183 | the URL loop yields base URL, endpoint, `?game_id=`, then `&` and each query in the given order |
| Signing.QueryStringLayout | Runtime/GameJoltAPI.cs:195-200 | `game_id` is the first query, followed by exactly the caller's queries in order |
| Signing.SignedURL | Runtime/GameJoltAPI.cs:234-237 | the signed URL is the request unchanged followed by 43 characters |
| Signing.AddSignature | Runtime/GameJolt.cs:195-198 | appends `&signature=` and the Md5Sum of the request followed by the key |
| Signing.SignatureRoundTrip | Runtime/GameJoltAPI.cs:234-237 | a receiver splitting a signed URL recovers the request and the digest of request plus key |
| Signing.SignedPrefixIndependentOfKey | Runtime/GameJoltAPI.cs:236 | the key only affects the 32 digest characters; it is never copied into the URL |
| Envelope.Gate | Runtime/GameJolt.cs:186-192 | raises `APIError(message)` exactly when `success` is the text "false", otherwise returns the node unchanged |
| Envelope.SuccessUnlessFalse | Runtime/GameJoltAPI.cs:203-210 | a missing `success` field, or any text other than "false", passes |
| Envelope.Dispatch | Runtime/GameJoltAPI.cs:201-231 | OnSuccess runs only for a successful transfer whose reply did not fail, OnError only for a successful transfer whose reply failed; connection, protocol and data-processing errors run neither |
| Envelope.FetchAgreesWithList | Runtime/GameJolt.cs:114-140 | the single fetch and the list read one reply consistently: a non-empty list's first record is the fetched one; a null array makes the fetch raise and the list empty; a missing array gives an empty list and a fetch of the empty placeholder |
| Envelope.DecodeArray | Runtime/GameJolt.cs:130-140 | one record per array element, in order; an empty list when the array is null or missing |
| Classes.SummaryLayout | Runtime/Classes.cs:17-20 | the summary is the five labelled fields ID, Title, Difficulty, Description, Achieved in that order, separated by ", " |
| Classes.SummaryRoundTrip | Runtime/Classes.cs:8-20 | every rendered field is recovered from the summary and the image URL is absent from it |
| Classes.SummaryIgnoresImageURL | Runtime/Classes.cs:14-19 | the summary does not depend on the image URL |
| Requests.AuthQueriesRead | Runtime/GameJoltAPI.cs:69 | the authentication request carries `username` and `user_token` once each with the given values |
| Requests.TrophyQueriesRead | Runtime/GameJolt.cs:96 | grant/revoke/fetch requests carry the cached credentials and a `trophy_id` that reads back as the id |
| Requests.ListQueriesRead | Runtime/GameJolt.cs:123-127 | the list request carries the credentials and exactly one `achieved=true/false` when not listing all, none when listing all |
| Requests.UserQueriesRead | Runtime/GameJolt.cs:64-76 | for every list of users, the user request is a single query under `user_id` or `username` holding the comma-joined list, and the other key is absent |
| Requests.UserQueriesSplitBack | Runtime/GameJolt.cs:64-76 | the query's value splits back at commas into exactly the users, when the list is non-empty and no user contains a comma |
| CallbackClient.GameJoltAPI.constructor | Runtime/GameJoltAPI.cs:27-35 | a fresh client is unauthenticated with empty credentials and nothing sent |
| CallbackClient.GameJoltAPI.APIRequest | Runtime/GameJoltAPI.cs:193-201 | sends exactly one signed URL for the endpoint and queries and waits for its continuation; an authentication continuation only waits on the attempt's own `users/auth/` request, once per attempt |
| CallbackClient.GameJoltAPI.Authenticate | Runtime/GameJoltAPI.cs:60-69 | refused with no request and no change when authenticated and not forced, or authenticating; otherwise sets `isAuthenticating` and sends one `users/auth/` request with username then user_token |
| CallbackClient.GameJoltAPI.CompleteAuthenticate | Runtime/GameJoltAPI.cs:69-87 | success stores name and token, authenticated and not authenticating, callback(true) and OnAuthenticate(true) once; error clears both credentials and flags, callback(false) and OnAuthenticate(false) once; a transport failure changes nothing |
| CallbackClient.GameJoltAPI.GrantTrophy | Runtime/GameJoltAPI.cs:94-106 | no request unless authenticated; otherwise one `trophies/add-achieved/` request with the credentials and id |
| CallbackClient.GameJoltAPI.RevokeTrophy | Runtime/GameJoltAPI.cs:113-125 | no request unless authenticated; otherwise one `trophies/remove-achieved/` request with the credentials and id |
| CallbackClient.GameJoltAPI.CompleteTrophyChange | Runtime/GameJoltAPI.cs:102-106 | OnTrophy(id, Grant or Revoke) fires once, and only on the success continuation |
| CallbackClient.GameJoltAPI.FetchTrophy | Runtime/GameJoltAPI.cs:133-141 | no request unless authenticated; otherwise one `trophies/` request with the credentials and id |
| CallbackClient.GameJoltAPI.CompleteFetchTrophy | Runtime/GameJoltAPI.cs:141-146 | on success the callback gets the decoded first trophy (the empty placeholder when `trophies` is missing or empty); it never runs when `trophies` is not an array or without success |
| CallbackClient.GameJoltAPI.ListTrophies | Runtime/GameJoltAPI.cs:155-168 | no request unless authenticated; the queries are the credentials plus `achieved` only when not listing all |
| CallbackClient.GameJoltAPI.CompleteListTrophies | Runtime/GameJoltAPI.cs:168-181 | on success the callback gets one record per array element in order, or an empty list |
| CallbackClient.GameJoltAPI.GetServerTime | Runtime/GameJoltAPI.cs:184-186 | not gated; one `time/` request with no queries |
| CallbackClient.GameJoltAPI.CompleteServerTime | Runtime/GameJoltAPI.cs:186-190 | the callback runs only on the success continuation, with the response node |
| CallbackClient.AuthenticationWedgesOnTransportFailure | Runtime/GameJoltAPI.cs:62-66 | a second authentication is refused while one is in flight; a transport failure leaves the session wedged, where even a forced attempt is refused and which no operation leaves |
| AsyncClient.GameJolt.constructor | Runtime/GameJolt.cs:14-24 | a fresh client is unauthenticated with empty credentials and nothing sent |
| AsyncClient.GameJolt.RequireAuthenticated | Runtime/GameJolt.cs:158-164 | raises `APIError(message)` iff not authenticated |
| AsyncClient.GameJolt.APIRequest | Runtime/GameJolt.cs:166-185 | a version other than 1.2 raises "Unsupported API version." before anything is built or sent; otherwise one signed URL is sent; an authentication continuation only waits on the attempt's own `users/auth/` request, once per attempt |
| AsyncClient.GameJolt.Authenticate | Runtime/GameJolt.cs:32-42 | raises with no change when authenticated and not forced, or authenticating; otherwise sets `IsAuthenticating` before the request; an unsupported version clears credentials and flags |
| AsyncClient.GameJolt.CompleteAuthenticate | Runtime/GameJolt.cs:42-56 | a passing reply stores name and token, authenticated, not authenticating, OnAuthenticated once; a failed reply clears both credentials and flags and re-raises the same APIError with no event; another exception leaves the session unchanged |
| AsyncClient.GameJolt.FetchUsers | Runtime/GameJolt.cs:64-76 | not gated; one `users/` request with `user_id=` or `username=` and the comma-joined list |
| AsyncClient.GameJolt.FetchUser | Runtime/GameJolt.cs:59-62 | the single-user fetch sends the one-element list |
| AsyncClient.GameJolt.CompleteFetchUsers | Runtime/GameJolt.cs:76-86 | one record per element of `users` in order, empty without the array; failures propagate |
| AsyncClient.GameJolt.CompleteFetchUser | Runtime/GameJolt.cs:61 | element 0 of the fetched list; an empty list raises |
| AsyncClient.GameJolt.GrantTrophy | Runtime/GameJolt.cs:92-96 | raises before any request unless authenticated; otherwise one `trophies/add-achieved/` request |
| AsyncClient.GameJolt.RevokeTrophy | Runtime/GameJolt.cs:101-105 | raises before any request unless authenticated; otherwise one `trophies/remove-achieved/` request |
| AsyncClient.GameJolt.CompleteTrophyChange | Runtime/GameJolt.cs:96-107 | OnTrophy(Grant or Revoke, id) is raised exactly once, and only when the request completed without raising |
| AsyncClient.GameJolt.FetchTrophy | Runtime/GameJolt.cs:110-114 | raises before any request unless authenticated; otherwise one `trophies/` request with the id |
| AsyncClient.GameJolt.CompleteFetchTrophy | Runtime/GameJolt.cs:114-117 | the decoded first element of `trophies` (the empty placeholder when it is missing or empty); a `trophies` value that is not an array raises `NullReference` |
| AsyncClient.GameJolt.ListTrophies | Runtime/GameJolt.cs:120-130 | raises before any request unless authenticated; credentials plus `achieved` only when not listing all |
| AsyncClient.GameJolt.CompleteListTrophies | Runtime/GameJolt.cs:130-140 | one record per element of `trophies` in order, empty without the array; failures propagate |
| AsyncClient.GameJolt.GetServerTime | Runtime/GameJolt.cs:145-147 | not gated; one `time/` request with no queries |
| AsyncClient.GameJolt.CompleteServerTime | Runtime/GameJolt.cs:147 | the response node when the reply passes the envelope check |
| AsyncClient.AuthenticationWedgesOnTransportFault | Runtime/GameJolt.cs:34-56 | a second authentication raises while one is awaited; a non-APIError failure leaves the session wedged, where even a forced attempt raises and which no operation leaves |

## Left out

- Unity host wiring: the `Instance` singleton, `Awake` and the GameObject it creates. Engine lifecycle, no logic.
- The transport: `UnityWebRequest`, coroutines, `AsyncWebRequest.GET` and task scheduling. Each outcome is an input to a `Complete…` method, and interleavings are whatever order those methods are called in. `AsyncWebRequest` is not part of this model. Its failure is assumed to raise an exception other than `APIError` (`Faulted`).
- MD5 and UTF-8 encoding are library calls. Together they are the `md5` parameter.
- JSON parsing (`JSON.Parse`, `AsArray`, `AsInt`). A parsed `response` object is a `Node` of string fields and named arrays, with no key in both. A missing `message` reads as the empty text.
- SimpleJSON is not part of this model. `Envelope.ArrayAt` follows its usual behaviour: a missing key reads as a fresh empty array, a key holding a non-array value reads as null, and an index past the end of an array yields an empty placeholder object.
- The source's default arguments (`forced = false`; `all = true`, `achieved = true`; `id = false`; `localTime = true`; `message = "Not authenticated."`; `callback = null`). Every argument is explicit in the model. `RequireAuthenticated` is always given the message of its caller.
- Process-wide static session state. Both revisions keep the game id, key, credentials and flags in static members shared by the whole process. The model keeps them in one client object, so it does not describe two clients that share a session.
- The `TrophyData(JSONNode)` and `UserData(JSONNode)` constructors are not part of this model. Trophies are decoded by a `decodeTrophy` parameter. A `UserData` keeps the JSON object it came from.
- GetServerTime's `DateTime`/`DateTimeOffset` construction and the local-time conversion (`localTime`). This is calendar library logic. The model delivers the response node.
- `Debug.Log`/`LogError` output.
- Event subscribers. The model records each event invocation in `notifications`. In the callback revision, the value handed to the optional callback is the `Complete…` method's result.
- Culture-specific formatting of negative numbers by `int.ToString()`. The model always uses a leading `-`.
- That changing one query or the key changes the signature. This rests on MD5 resisting collisions, which an arbitrary `md5` parameter cannot express. The model proves instead that the signed URL determines its request (`Signing.SignatureRoundTrip`). The request determines the queries in order only when no query contains `&` (`Signing.QueryStringLayout`): the source does not escape query values, so a value holding `&` reads back as several queries.
