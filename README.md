# Session and transfer core of the API examples, in Dafny

This project models the authentication and file-transfer core of the example
applications: the client session manager (`useAuth`), the upload client
(`useFileUpload`) and six server handlers: login, which writes the session;
session, profile, tasks and report download, which gate on it; and upload,
which does not read it.

- `api.dfy` (module `Api`): the `{ code, message, data }` envelope, the
  records carried in it (`UserInfo`, `AuthTokens`, `FileUploadResponse`,
  `LoginRequest`), and the two JavaScript truthiness rules the client code
  relies on (`!!s` for a nullable string, `message || fallback`).
- `decimal.dfy` (module `Decimal`): decimal spelling of non-negative numbers
  (`${status}`, the `'1024000'` header) and its inverse, with the round trip
  proved.
- `use_auth.dfy` (module `Auth`): the session manager. Its state is the token,
  the user record and the persisted `auth_token` storage entry. Each of
  `login`, `logout`, `fetchUserInfo` and `initAuth` is a pure transition over
  that state (`LoginStep`, `LogoutStep`, `FetchStep`, `InitStep`), which
  carries the promised properties, and a method of the class
  `SessionManager`, which performs the composable's assignments in its order
  and is proved equal to the transition. Each `$fetch` is an input `Reply`
  (a decoded envelope, or a thrown error); each request the code would issue
  is an output `Request`, so "no request" is provable; whether the code runs
  in a browser (`import.meta.client`) is the manager's `client` flag.
- `use_file_upload.dfy` (module `FileUpload`): the token guard, the request
  `uploadFile` builds (form, URL with the optional `category` parameter,
  bearer header) through small mutable `FormData` and `SearchParams`
  objects, and `Settle`, the decision the `load`, `error` and `abort`
  listeners make. `Classify` reads the kind of ending back from the settled
  promise, and `ClassifyRecoversKind` proves that it succeeds.
- `server_kit.dfy` (module `ServerKit`): the session user (`map<string,
  string>`) and the side-effect trace (`Sleep(ms)`, `SetHeader(name,
  value)`) the handlers produce. The trace is how the model states that the
  gate comes before any wait and the waits come before any header.
- `login_post.dfy`, `session_get.dfy`, `profile_get.dfy`, `tasks_get.dfy`,
  `upload_post.dfy`, `report_get.dfy`: one module per handler. The session,
  profile and tasks handlers answer an absent session with a `401` envelope.
  The report download raises a transport-level `401` instead
  (`Download.Raised`), and the model keeps that difference. Login checks
  credentials and writes the session; upload checks only for a file.

Behaviour of the code that the model keeps and a reader might not expect:

- `isAuthenticated` is `!!token && !!user`, so an empty-string token does not
  count as authenticated. The same falsiness makes `fetchUserInfo` skip the
  request for an empty token. A login whose envelope carries an empty
  `accessToken` therefore succeeds without becoming authenticated, and keeps
  whatever user the session already held
  (`Auth.EmptyAccessTokenLoginIsNotAuthenticated`).
- A login that fails at the login call itself clears token and user but does
  not remove the stored token; only a failure inside `fetchUserInfo` removes
  it.
- Upload errors are plain `Error` values told apart only by their messages.
  Cancellation is therefore distinguishable from the other endings only when
  the server's envelope message does not repeat one of the client's own
  messages (`FileUpload.CancellationIsDistinct`,
  `FileUpload.CancellationCanBeMimicked`).
- The client's `login` reads `data.accessToken`, while the auth example's own
  login handler answers with the user record. Each side is modelled as
  written.

## Model

| member | source | states |
|---|---|---|
| `Auth.SessionManager.IsAuthenticated` | examples/api-auth/composables/useAuth.ts:10 | authenticated exactly when the token is present and non-empty and a user is held |
| `Auth.SessionManager.constructor` | examples/api-auth/composables/useAuth.ts:7-8 | a fresh manager holds no token and no user, and storage keeps whatever it held |
| `Auth.FetchStep` | examples/api-auth/composables/useAuth.ts:63-94 | no token: returns null, issues no request, changes nothing; otherwise exactly one request bearing the token; success exactly when the envelope has code 0 and data, and then the user is replaced wholesale by that data with token and storage untouched; any failure (envelope or thrown) clears token, user and, on the client, storage, and raises the envelope message or the fallback; the invariant "no user without a token" is kept |
| `Auth.SessionManager.FetchUserInfo` | examples/api-auth/composables/useAuth.ts:63-94 | the method's new state, result and requests are those of `FetchStep`, and it keeps the invariant |
| `Auth.LoginStep` | examples/api-auth/composables/useAuth.ts:12-38 | a rejected or thrown login call raises, leaves token and user null and storage unchanged, and sends only the login request; an accepted one sets the token to `accessToken`, stores it on the client (off the client storage is untouched), fetches the user with it, and returns the token data exactly when that fetch succeeds or is skipped; with a non-empty token and an accepted user reply the new state is exactly that token, the fetched user and (on the client) the stored token, and the session is authenticated; with an empty token no user request is sent and the user is left as it was; every failure leaves token and user null; the invariant is kept |
| `Auth.SessionManager.Login` | examples/api-auth/composables/useAuth.ts:12-38 | the method's new state, result and requests are those of `LoginStep`; on failure token and user are null |
| `Auth.LogoutStep` | examples/api-auth/composables/useAuth.ts:40-61 | never raises; always ends with token and user null and, on the client, storage removed; contacts the server exactly when a token is held, with that token as bearer |
| `Auth.SessionManager.Logout` | examples/api-auth/composables/useAuth.ts:40-61 | the method's new state and requests are those of `LogoutStep`; token and user end null |
| `Auth.LogoutIdempotent` | examples/api-auth/composables/useAuth.ts:40-61 | a second logout sends nothing and leaves the state the first one produced |
| `Auth.InitStep` | examples/api-auth/composables/useAuth.ts:96-111 | never raises; off the client or with no saved token nothing changes and nothing is sent; with a saved token it adopts it and fetches the user with it, ending authenticated on success and fully anonymous with storage cleared on any failure; the invariant is kept |
| `Auth.SessionManager.InitAuth` | examples/api-auth/composables/useAuth.ts:96-111 | the method's new state and requests are those of `InitStep` |
| `Auth.LoginPersistsForInit` | examples/api-auth/composables/useAuth.ts:96-102 | a non-empty token that a successful client login persisted is adopted by `initAuth` in a fresh session; when the user-info reply is accepted again, the session ends authenticated with the same token |
| `Auth.LogoutThenInitStaysAnonymous` | examples/api-auth/composables/useAuth.ts:57-99 | after a client logout removed the stored token, a restart stays anonymous and sends nothing |
| `Auth.EmptyAccessTokenLoginIsNotAuthenticated` | examples/api-auth/composables/useAuth.ts:20-29 | from any session, on or off the client, an accepted login with an empty access token returns its tokens after sending only the login request, leaves the session unauthenticated with token `""`, and keeps the user the session held |
| `FileUpload.UploadFile` | examples/api-upload/composables/useFileUpload.ts:7-58 | without a (non-empty) token it rejects with the not-logged-in error and sends nothing; with a base URL that is not absolute it rejects with the URL `TypeError` and sends nothing; otherwise it sends one POST to the upload path with the file as the only form entry, the `category` parameter exactly when a non-empty category was given, and `Bearer <token>` as Authorization, and settles as `Settle` decides for the ending event |
| `FileUpload.SearchParams.Append` | examples/api-upload/composables/useFileUpload.ts:52 | appends one name/value pair after the existing ones |
| `FileUpload.FormData.Append` | examples/api-upload/composables/useFileUpload.ts:13 | appends one entry after the existing ones |
| `FileUpload.Settle` | examples/api-upload/composables/useFileUpload.ts:25-48 | resolves exactly for a status-200 load whose body is an envelope with code 0 and data, and then to exactly that data; a status-200 envelope without code 0 and data rejects with its message, or the default message when that is empty |
| `FileUpload.ClassifyRecoversKind` | examples/api-upload/composables/useFileUpload.ts:25-48 | from the settled promise alone one can tell data, envelope error, parse error, network error, cancellation and a failed status, and read that status back from the message, unless the server's envelope message mimics one of the client's messages |
| `FileUpload.CancellationIsDistinct` | examples/api-upload/composables/useFileUpload.ts:42-48 | an aborted transfer's rejection differs from that of every other ending, mimicking messages aside |
| `FileUpload.CancellationCanBeMimicked` | examples/api-upload/composables/useFileUpload.ts:31-47 | every undelivered status-200 envelope (any code, any data, unless code 0 with data) whose message is the cancellation text settles exactly as an abort does |
| `Decimal.Show` | examples/api-upload/composables/useFileUpload.ts:38 | a status is spelled with at least one digit, digits only, and no leading zero |
| `Decimal.ValueShow` | examples/api-upload/composables/useFileUpload.ts:38 | reading a spelled number back gives the number |
| `LoginHandler.LoginEnvelope` | examples/api-auth/server/api/auth/login.post.ts:5-31 | code 0 exactly when email and password both equal the configured pair, with message 'Login successful' and the admin user as data; every other body gets code 401, data null, 'Invalid credentials' |
| `LoginHandler.SessionAfterLogin` | examples/api-auth/server/api/auth/login.post.ts:5-13 | the session user is written only on success, and then equals the data the envelope returns |
| `LoginHandler.HandleLogin` | examples/api-auth/server/api/auth/login.post.ts:1-32 | waits once for 800 ms, returns `LoginEnvelope` and leaves the store as `SessionAfterLogin` says |
| `SessionHandler.SessionEnvelope` | examples/api-auth/server/api/auth/session.get.ts:4-16 | code 0 exactly when a session user exists; without one, code 401 with null data as an envelope; with one, message 'success' and that user unchanged as data |
| `SessionHandler.SessionAfterLoginEchoesLogin` | examples/api-auth/server/api/auth/session.get.ts:12-16 | after a successful login the session endpoint returns the same record the login envelope carried; after a failed one it answers as before |
| `ProfileHandler.ProfileReply` | examples/api-auth/server/api/profile.get.ts:4-23 | without a user: no wait and code 401 with null data; with one: one 500 ms wait, code 0, 'success', and data holding every field of the user not replaced by the added ones, plus bio 'A passionate developer', joinedAt '2024-01-01' and the current lastLogin |
| `ProfileHandler.ProfileKeepsLoggedInUser` | examples/api-auth/server/api/profile.get.ts:17-22 | the profile of the user a login stores keeps every one of that user's fields |
| `TasksHandler.TasksReply` | examples/api-dashboard/server/api/tasks.get.ts:4-22 | without a user: no wait and code 401 with null data; with one: one 500 ms wait, code 0, 'success', and exactly three tasks with ids 1, 2, 3 in order |
| `UploadHandler.HandleUpload` | examples/api-upload/server/api/upload.post.ts:5-27 | a missing file gets code 400, null data, 'No file provided' and no wait; otherwise exactly ten 200 ms waits, then code 0 with the received file's name, size and type |
| `ReportHandler.HandleReport` | examples/api-dashboard/server/api/download/report.get.ts:4-23 | without a user a raised 401 with no wait and no header; with one, exactly ten 200 ms waits, then Content-Type, Content-Disposition (attachment, report.pdf) and Content-Length in that order, agreeing with a blob of 1024000 zero bytes typed application/pdf |
| `ReportHandler.ContentLengthSpelling` | examples/api-dashboard/server/api/download/report.get.ts:16-21 | the literal Content-Length value is the decimal spelling of the payload size |

## Left out

- HTTP transport (`$fetch`, `XMLHttpRequest`, `readBody`, `readFormData`, `setHeader`): calls are inputs (`Reply`, `XhrEvent`, the handler's arguments) and outputs (`Request`, the effect trace).
- `localStorage` is the `stored` field of the session; `import.meta.client` is the manager's `client` flag.
- Timers: each `setTimeout` wait is a `Sleep(ms)` entry in the trace; no time passes.
- Upload progress (`Math.round(loaded / total * 100)` from browser events): floating point, with no ordering the code itself guarantees.
- Concurrency between awaits, such as the token being cleared during an in-flight `fetchUserInfo`: each operation runs atomically.
- Console logging in `logout`, `fetchUserInfo` and `initAuth`.
- The session cookie store behind `getUserSession`, `setUserSession` and `clearUserSession`: an abstract `Option` of the session user (`LoginHandler.SessionStore` for the write in login).
- `FileUpload.Settle`: the input distinguishes an unparseable body from a parsed envelope. A body that parses to `null` makes reading `code` throw inside the `try` and gets the parse-failure error, so it is given as `Unparseable`. Any other non-object JSON value (`5`, `"x"`, `true`, `[]`) reads `code` and `message` as undefined and gets the fallback upload-failure error; it is given as `Parsed(Envelope(c, "", None))` with `c != 0`. The model does not derive these from the response text.
- `FileUpload.UploadFile`: whether the base URL is absolute is an input (`baseIsAbsolute`); URL parsing and resolution are not modelled, and the request records the base and the path as given.
- Logout's server notification: its outcome is not an input, because a failure is caught and only logged (useAuth.ts:51-52) and the clearing in `finally` runs either way.
- `LoginHandler.LoginEnvelope`: body fields are absent or strings; a null body or non-string fields, on which the handler would throw or compare unequal, are not modelled.
- `UploadHandler.HandleUpload`: the `file` entry is present or absent; a plain string entry in its place is not modelled.
- Timestamps (`new Date().toISOString()`): the `now` argument of the upload and profile handlers.
- The logout handler, the user list and creation handlers, and the download-by-id handler (`download/[id].get.ts`, with its catalog and 404) are not part of this model; nor are the configuration and type-only files beyond the record shapes used here.
