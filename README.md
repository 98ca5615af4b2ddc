# The worldofpixels API layer, modelled in Dafny

This project models the HTTP API layer of the worldofpixels server
(nagalun/worldofpixels-server). The layer has three parts:

- **The exchange and dispatch engine** (src/ApiProcessor.cpp).
  - A `Request` buffers an HTTP/1.1 response head and hands bytes to the
    transport.
  - `exec` picks the first registered endpoint whose pattern verifies, and
    resolves a session from the `Authorization` header first.
  - The two `Endpoint::exec` defaults give the access-tier fallback.
  - The builder collects a route's pattern.
  - The hub callbacks manage the per-socket slot that holds the
    connection's `Request`.
- **The route table and the handlers' decisions**
  (src/ServerRestDefinitions.cpp). Every route is listed as data, in
  registration order. The handlers of `/auth/guest`, `/users/@me`,
  `/users/{id}`, `/worlds/{name}`, `/view/{w}/{x}/{y}` and `/debug` are
  pure decisions. Each decision yields the calls the handler makes on its
  request (a plan) and who holds the request afterwards.
- **Sessions and their clients** (src/Session.hpp, src/Client.cpp). A
  session keeps its live clients and an expiry time. A client registers
  with its session when built and unregisters when destroyed.

The modules are, in dependency order:

- `Wrappers`: Option and Result.
- `Json`: JSON values, treated as opaque.
- `Text`: `find`, `find_first_of` and `tokenize`.
- `Wire`: the bytes of a response head, and a reader that parses them back.
- `Exchange`: the `Request` class. Its abstract value is `ExchangeState`.
- `Collaborators`: the external managers and libraries, as uninterpreted
  functions in an `Env`.
- `Handlers`: the handler decisions and the asynchronous completions.
- `Dispatch`: endpoints, `exec`, `getSession`, the processor and the
  builder.
- `Routes`: the route list, registration, and what the registered table
  answers.
- `Hub`: the socket slot state machine.
- `Identity`: `Session` and `Client`.

Each `Request` method is proved against the `ExchangeState` function of the
same name. The framing lemmas then say what a peer reading the emitted bytes
gets back: the head lines, and a Content-Length that equals the body length.

Two behaviours of the code shape the contracts:

- **Writes after cancellation.** `end` and `writeAndEnd` dereference `res`
  unguarded (src/ApiProcessor.cpp:190-217), so every `end` variant here
  requires a live request. Callers must check `isCancelled()` first, as
  the asynchronous completions do.
- **An unmatched route** is answered `501 Not Implemented`; the 404 line
  is commented out (src/ApiProcessor.cpp:117-119).

## Model

| member | source | states |
|---|---|---|
| Text.FindFrom | src/ApiProcessor.cpp:126-128 | `find` from a position: the first position where the pattern occurs, with no earlier occurrence; none means it occurs nowhere from there on |
| Text.FirstOf | src/ServerRestDefinitions.cpp:46-49 | `find_first_of`: no character before the result is in the set, and the character at the result is (or the result is the length) |
| Text.Tokenize | src/ApiProcessor.cpp:38 | every piece is non-empty and holds no delimiter |
| Text.TokenizeKeepsContent | src/ApiProcessor.cpp:38 | the pieces joined back together are the input with every delimiter removed, so nothing but delimiters is lost |
| Text.TokenizeEmpty | src/ServerRestDefinitions.cpp:42-43 | there are no pieces exactly when the input consists of delimiters only |
| Text.TokenizeWhole | src/ApiProcessor.cpp:38 | a non-empty input without a delimiter is a single piece, itself |
| Text.TokenizeSplit | src/ApiProcessor.cpp:38 | every delimiter cuts: the pieces are those before it followed by those after it. With `TokenizeWhole` and `TokenizeEmpty` this fixes every piece boundary |
| Text.StripAppend | src/ApiProcessor.cpp:38 | removing delimiters distributes over concatenation |
| Wire.LinesSnoc | src/ApiProcessor.cpp:206-208 | appending a line to a head appends that line and a CRLF to its bytes |
| Wire.Decimal | src/ApiProcessor.cpp:173 | `std::to_string` of a size: non-empty decimal digits, with no leading zero |
| Wire.DecimalRoundTrip | src/ApiProcessor.cpp:173 | a reader parsing the written Content-Length digits gets the size back |
| Wire.ReadLines | src/ApiProcessor.cpp:154-169 | a head of good lines followed by the empty line reads back line for line, and the rest is the body |
| Wire.HeaderValueLast | src/ApiProcessor.cpp:173 | a header appended after lines that do not carry that name is the one a reader finds |
| Wire.LengthLineOk | src/ApiProcessor.cpp:173 | the Content-Length line holds no CR or LF |
| Wire.FramedReadsBack | src/ApiProcessor.cpp:171-178 | a head, the Content-Length line, the empty line and the body read back as that head plus the length line, and the length read equals the body's length |
| Exchange.ExchangeState.Run | src/ApiProcessor.cpp:100-105 | a handler's calls made in order keep the request live and leave its cancel handler and fired log alone |
| Exchange.WriteStatusAddsLine | src/ApiProcessor.cpp:158-162 | `writeStatus(s)` appends exactly `"HTTP/1.1 " + s + "\r\n"` to the buffer, changes nothing else, and the head gains that line |
| Exchange.WriteHeaderAddsLine | src/ApiProcessor.cpp:164-169 | `writeHeader(k, v)` appends exactly `k + ": " + v + "\r\n"`, and the head gains that line |
| Exchange.EndBytesFraming | src/ApiProcessor.cpp:171-178 | `end(buf, size)` emits once. With an empty buffer that is `buf` alone, with no head. Otherwise `hasHead` is set, and a reader finds the head, then a Content-Length equal to `|buf|`, then `buf` |
| Exchange.JsonHeadOk | src/ApiProcessor.cpp:180-186 | before ending, `end(json)` has written `200 OK` only if nothing was buffered, and then `Content-Type: application/json` |
| Exchange.EndJsonFraming | src/ApiProcessor.cpp:180-188 | `end(json)` keeps an earlier status. A reader finds that status (or `200 OK` when none was written), the JSON content type, and a Content-Length equal to the text's length |
| Exchange.EndFraming | src/ApiProcessor.cpp:190-196 | `end()` with an empty buffer emits no bytes and no head. Otherwise it closes the head with `Content-Length: 0` and the empty line |
| Exchange.StatusThenEnd | src/ApiProcessor.cpp:190-196 | a status and `end()` on a fresh buffer emit exactly the status line, `Content-Length: 0` and the empty line, with `hasHead` set |
| Exchange.StatusThenJson | src/ApiProcessor.cpp:180-188 | a status written before `end(json)` is the status a reader finds, not `200 OK` |
| Exchange.StatusJsonRun | src/ApiProcessor.cpp:43-46 | the plan "status, then end with JSON" frames that status, the JSON content type and the text's length |
| Exchange.JsonOnly | src/ApiProcessor.cpp:180-188 | `end(json)` on a fresh buffer is a `200 OK` response whose body is the dumped text |
| Exchange.Request.constructor | src/ApiProcessor.cpp:141-144 | a new request is live, has no cancel handler, has an empty buffer and has sent nothing |
| Exchange.Request.Write | src/ApiProcessor.cpp:206-208 | appends to the buffer |
| Exchange.Request.WriteStatus | src/ApiProcessor.cpp:154-162 | the new state is `WriteStatus` of the old one |
| Exchange.Request.WriteHeader | src/ApiProcessor.cpp:164-169 | the new state is `WriteHeader` of the old one |
| Exchange.Request.WriteAndEnd | src/ApiProcessor.cpp:210-218 | an empty buffer emits the bytes alone. Otherwise it emits buffer plus bytes with `hasHead` set |
| Exchange.Request.EndBytes | src/ApiProcessor.cpp:171-178 | the new state is `EndBytes` of the old one |
| Exchange.Request.EndJson | src/ApiProcessor.cpp:180-188 | the new state is `EndJson` of the old one, given the dumped text |
| Exchange.Request.End | src/ApiProcessor.cpp:190-196 | the new state is `End` of the old one |
| Exchange.Request.OnCancel | src/ApiProcessor.cpp:202-204 | registers the cancel handler, and nothing else |
| Exchange.Request.Cancel | src/ApiProcessor.cpp:220-226 | afterwards `isCancelled()` holds. The handler fires at most once, only when one is set, and earlier firings are kept |
| Exchange.Request.UpdateData | src/ApiProcessor.cpp:228-233 | the request is live again, with no cancel handler, an empty buffer and the new request data |
| Exchange.Request.InvalidateData | src/ApiProcessor.cpp:235-237 | forgets the request data and changes nothing else |
| Exchange.Request.Perform | src/ApiProcessor.cpp:100-105 | makes a plan's calls in order: the new state is `Run` of the plan |
| Dispatch.Captures | src/ApiProcessor.cpp:255-258 | one capture per `var()` marker, and the segment at each `var()` position is the capture numbered by the `var()`s before it |
| Dispatch.FirstMatch | src/ApiProcessor.cpp:97-98 | the result verifies and no earlier endpoint does; none means no endpoint verifies |
| Dispatch.FirstMatchAppend | src/ApiProcessor.cpp:97-115 | once an endpoint verifies, endpoints registered after it are never tried |
| Dispatch.FirstMatchAfter | src/ApiProcessor.cpp:97-115 | earlier endpoints that all fail to verify only shift the position of the match |
| Dispatch.DispatchFirstWins | src/ApiProcessor.cpp:86-120 | INVALID gives 400. Otherwise no match gives `501 Not Implemented`. Once the first endpoint answers, appending endpoints changes nothing |
| Dispatch.TierFallback | src/ApiProcessor.cpp:269-279 | with a session but no authenticated overload, an endpoint acts as without a session. Without an outsider handler that is `401 Unauthorized`. An authenticated overload, when present, runs |
| Dispatch.ExceptionResponse | src/ApiProcessor.cpp:106-112 | an exception is answered with one response. A reader finds `400 Bad Request`, the JSON content type and the length of `{"reason": msg}`'s text |
| Dispatch.NoToken | src/ApiProcessor.cpp:122-137 | no token without an Authorization header, or when the header has no `"owop "` in it |
| Dispatch.TokenAfterFirst | src/ApiProcessor.cpp:126-133 | the token is what follows the first occurrence of `"owop "` |
| Dispatch.TokenNotPrefix | src/ApiProcessor.cpp:126-133 | `"owop "` is searched for, not required as a prefix: `Bearer owop abc` gives `abc` |
| Dispatch.ApiProcessor.constructor | src/ApiProcessor.cpp:18-19 | a new processor has no endpoints |
| Dispatch.ApiProcessor.Add | src/ApiProcessor.cpp:82-84 | appends the endpoint to the endpoints of its method and leaves every other method alone |
| Dispatch.ApiProcessor.Exec | src/ApiProcessor.cpp:86-120 | the calls made on the request, and who holds it afterwards, are those `DispatchReply` gives (400 when INVALID, 501 without a match, the handler's reply, 400 with the reason) |
| Dispatch.Search | src/ApiProcessor.cpp:97-115 | the loop over the endpoints finds the first one that verifies |
| Dispatch.TemplatedEndpointBuilder.constructor | src/ApiProcessor.cpp:241-244 | a builder for a processor and a method, with an empty pattern |
| Dispatch.TemplatedEndpointBuilder.Path | src/ApiProcessor.cpp:246-253 | an empty section fails with `Path sections can't be empty!` and leaves the pattern alone. Otherwise the literal is appended |
| Dispatch.TemplatedEndpointBuilder.Var | src/ApiProcessor.cpp:255-258 | appends the empty marker |
| Dispatch.TemplatedEndpointBuilder.OnFriend | src/ApiProcessor.cpp:82-84 | adds one endpoint with the collected pattern and the authenticated handler to the builder's method |
| Dispatch.TemplatedEndpointBuilder.OnOutsider | src/ApiProcessor.cpp:82-84 | adds one endpoint with the collected pattern, the flag and the outsider handler |
| Dispatch.TemplatedEndpointBuilder.OnAny | src/ApiProcessor.cpp:82-84 | adds one endpoint with both handlers |
| Handlers.PreferredLanguage | src/ServerRestDefinitions.cpp:38-51 | `en` without the header. With pieces, the result is a prefix of the first piece, cut exactly at its first `-` or `;`, and holds neither |
| Handlers.LanguageCode | src/ServerRestDefinitions.cpp:38-51 | the handler's loop and `erase` compute `PreferredLanguage` |
| Handlers.FirstPiece | src/ServerRestDefinitions.cpp:42-44 | the first piece ends at the first delimiter |
| Handlers.OnlyPiece | src/ServerRestDefinitions.cpp:42-44 | an input without a delimiter is its own only piece |
| Handlers.LanguageOfBrowserHeader | src/ServerRestDefinitions.cpp:45-49 | `en-US,en;q=0.9` and `en-US;q=0.9` both give `en` |
| Handlers.LanguageDefault | src/ServerRestDefinitions.cpp:39-43 | a header with nothing between its commas leaves `en` |
| Handlers.LanguageWhole | src/ServerRestDefinitions.cpp:44-49 | a first piece with no `-` and no `;` is kept whole |
| Handlers.StatusReplyBytes | src/ApiProcessor.cpp:190-196 | a status reply on a fresh buffer sends exactly the status line and a zero Content-Length |
| Handlers.WorldResponse | src/ServerRestDefinitions.cpp:124-131 | a loaded world is answered `200 OK` with its JSON and length. Any other name gets `404 Not Found` and an empty body. Both finish the request |
| Handlers.ViewOrder | src/ServerRestDefinitions.cpp:355-371 | an invalid name gives 400 whatever is loaded. A valid, unloaded one gives 404. The chunk is requested exactly when the name is valid and loaded, and then the handler writes nothing |
| Handlers.ViewRefusalBytes | src/ServerRestDefinitions.cpp:355-366 | the bytes of the 400 and the 404 refusals |
| Handlers.CompleteUserLookup | src/ServerRestDefinitions.cpp:85-89 | a cancelled request is left untouched. Otherwise it ends with the user's JSON |
| Handlers.CompleteGuestLogin | src/ServerRestDefinitions.cpp:58-67 | a cancelled request is left untouched. Otherwise it ends with `{"token": base64(token)}` |
| Hub.DecodeAllSpec | src/ApiProcessor.cpp:40-50 | decoding succeeds exactly when every segment decodes, and then gives the decoded segments in order. A failure carries the first failing segment's message |
| Hub.RequestReplySpec | src/ApiProcessor.cpp:32-52 | a path whose segments all decode is dispatched on them. Otherwise the first failure is answered 400 with its reason, before any endpoint is consulted |
| Hub.HttpSocket.constructor | src/ApiProcessor.cpp:22-24 | a socket starts with an empty slot and nothing released |
| Hub.HttpSocket.OnHttpRequest | src/ApiProcessor.cpp:21-54 | the slot's request is created on the first request and reused afterwards. It gets `RequestReply`'s calls, and its data is invalidated before the callback returns. Nothing is released |
| Hub.HttpSocket.OnCancelledHttpRequest | src/ApiProcessor.cpp:56-64 | on a socket that is not gone (uWS's callback order, as the source assumes at lines 70-72), a held request is cancelled, released once and cleared from the slot. An empty slot is left alone |
| Hub.HttpSocket.OnHttpDisconnection | src/ApiProcessor.cpp:66-75 | with no outstanding responses, the held request (if any) is released and the socket is gone, and no holder has been released twice. Otherwise nothing is released and the cancel callback follows |
| Hub.Connection | src/ApiProcessor.cpp:21-75 | over two requests, a disconnection with outstanding work and the cancellation, one request serves both requests and is released exactly once |
| Routes.RouteEndpoint | src/ServerRestDefinitions.cpp:34-37 | the endpoint keeps the route's pattern |
| Routes.RouteEndpointOk | src/ServerRestDefinitions.cpp:76-84 | a route the C++ types accept gives a well-formed endpoint |
| Routes.Define | src/ServerRestDefinitions.cpp:81-84 | one `on().path()/var()...` chain adds exactly that route's endpoint to its method |
| Routes.ExtendEndpoints | src/ApiProcessor.cpp:82-84 | adding routes appends each method's own endpoints in order and leaves other methods alone, so same-shaped routes under different methods do not interfere |
| Routes.DefineAll | src/ServerRestDefinitions.cpp:16-404 | the registration statements add the routes one after the other |
| Routes.AllRoutesOk | src/ServerRestDefinitions.cpp:16-404 | every registered route passes the C++ type checks |
| Routes.RegisterEndpoints | src/ServerRestDefinitions.cpp:16-404 | every method's endpoints gain that method's routes, in source order |
| Routes.RouteTable | src/ServerRestDefinitions.cpp:16-404 | every registered endpoint is well-formed |
| Routes.RegisterOnFresh | src/ServerRestDefinitions.cpp:16-404 | a fresh processor holds exactly the route table after registration |
| Routes.NoneByHead | src/ServerRestDefinitions.cpp:121-308 | routes that all start with other literals never verify a request |
| Routes.MiddleHeaded | src/ServerRestDefinitions.cpp:121-308 | the `/worlds`, `/chats` and `/emotes` routes all start with their literal |
| Routes.MePriority | src/ServerRestDefinitions.cpp:73-90 | `GET /users/@me` matches the `@me` route, registered before `users/{}`, whatever `@me` converts to |
| Routes.UserLookupRoute | src/ServerRestDefinitions.cpp:80-90 | `GET /users/{x}` matches the lookup when `x` converts to a user id, and nothing otherwise |
| Routes.MeDispatch | src/ServerRestDefinitions.cpp:72-78 | `GET /users/@me` answers the session's user, or `401 Unauthorized` without a session |
| Routes.UserDispatch | src/ServerRestDefinitions.cpp:80-90 | `GET /users/{x}` gives 501 unless `x` converts. Then it gives 401 without a session, and with one the request waits for that user |
| Routes.DebugRoute | src/ServerRestDefinitions.cpp:386-388 | `GET /debug` matches the last GET endpoint, the one with both handlers |
| Routes.DebugDispatch | src/ServerRestDefinitions.cpp:386-403 | `/debug` answers `{"call":"outsider","body":j}` without a session and `{"call":"friend","body":j,"session":s}` with one |
| Routes.PatchUserRoute | src/ServerRestDefinitions.cpp:92-99 | `PATCH /users/{x}` matches the "Modify user" route, the first PATCH endpoint, exactly when `x` converts |
| Routes.PatchDispatch | src/ServerRestDefinitions.cpp:92-99 | with a session the PATCH is accepted and never answered. Without one it gets 401 |
| Routes.GuestRoute | src/ServerRestDefinitions.cpp:34-37 | `GET /auth/guest` is the first GET route |
| Routes.GuestDispatch | src/ServerRestDefinitions.cpp:34-58 | with or without a session, a guest session is asked for, with the caller's address, user agent (empty without the header) and language code. Nothing is written yet |
| Routes.WorldRoute | src/ServerRestDefinitions.cpp:121-124 | `GET /worlds/{name}` matches "Get world", the first endpoint after the `/auth` and `/users` routes |
| Routes.WorldDispatch | src/ServerRestDefinitions.cpp:121-131 | `GET /worlds/{name}` gives 401 without a session. With one it gives the world's JSON or `404 Not Found` |
| Routes.ViewRoute | src/ServerRestDefinitions.cpp:348-353 | `GET /view/{w}/{x}/{y}` matches the chunk route when its three captures convert, and nothing otherwise |
| Routes.ViewMiss | src/ServerRestDefinitions.cpp:348-353 | captures that do not all convert give `501 Not Implemented` |
| Routes.ViewDispatch | src/ServerRestDefinitions.cpp:348-372 | converting captures give 401 without a session. With one they give the 400/404/hand-over decision |
| Routes.DispatchAt | src/ApiProcessor.cpp:97-112 | the matched endpoint's reply, or the exception's, is the dispatch reply |
| Identity.WithoutSpec | src/Session.hpp:36 | removing a client removes every occurrence of it and keeps every other client, with the same multiplicity |
| Identity.Session.constructor | src/Session.hpp:32 | the user, creator data and allowance are the arguments. There are no clients, and the session expires one allowance after creation |
| Identity.Session.AddClient | src/Session.hpp:35 | the client is appended and is active, the expiry time is unchanged, and the session is not expired at any time |
| Identity.Session.DelClient | src/Session.hpp:36 | the client is no longer active, the others stay in order, and the expiry time is unchanged |
| Identity.Session.UpdateExpiryTime | src/Session.hpp:38 | the expiry becomes one allowance after `now`, and the clients are unchanged |
| Identity.Session.IsExpired | src/Session.hpp:39 | never expired while a client is active |
| Identity.SessionLifetime | src/Session.hpp:24-46 | the getters return the constructor's arguments. A client connected and later destroyed leaves no client. The session expires just after its expiry time and not at it |
| Identity.Client.constructor | src/Client.cpp:14-26 | both clocks read `now`, and the client is appended to its session's clients |
| Identity.Client.Destroy | src/Client.cpp:28-30 | the client leaves the same session and the expiry time is unchanged |
| Identity.Client.UpdateLastActionTime | src/Client.cpp:32-34 | only the last action time changes, to `now` |
| Identity.Client.InactiveKickEnabled | src/Client.cpp:36-38 | always true |
| Identity.Client.Equals | src/Client.cpp:76-79 | equal exactly when it is the same object |
| Identity.Connect | src/Client.cpp:14-26 | a null session fails with `Client session is null?!` and registers nothing. Otherwise a fresh client is registered with its session exactly once |

## Left out

- The world engine: src/World.hpp holds only declarations. `/view` hands
  the request over as a `ChunkRequested` outcome, and the rest of
  `sendChunk` is not modelled.
- The uWS transport: `res->end` is recorded in the `sent` log, with
  `hasHead`, and is never performed. User-data slots are class fields.
  Whether responses are outstanding is a parameter of the disconnection
  callback.
- nlohmann JSON: parsing and `dump()` are uninterpreted functions, and JSON
  built elsewhere is opaque.
- External helpers: `base64Encode` and `urldecode` are uninterpreted
  functions, and `urldecode` can fail with a message.
- `tokenize` (misc/utils) is not part of this model. It is assumed to split
  at every delimiter and drop empty pieces.
- `verify` and the typed conversion of captures live in the header, which
  is not part of this model. `verify` is modelled as a structural match plus
  an uninterpreted `converts`, and the i32 range of captures is inside
  `converts`.
- The `onOutsider` flag is recorded and never consulted, because its
  meaning is not visible. `AccessRules` is left out for the same reason.
- The account, world and ban managers and the HTTP client are uninterpreted
  functions in `Env`.
- `/status` and `/tokenlist` assemble JSON from clocks and manager state.
  Their JSON is an uninterpreted `reportJson`.
- The empty-bodied handlers contribute only their route shape, and are
  `Stub` handlers named by purpose.
- The commented-out `get` route at the top of `registerEndpoints` is dead
  code.
- Clocks: `steady_clock` and `system_clock` become integer seconds passed in
  by the caller, and `maxInactivity` is in minutes (×60).
- Identity.Client.GetSecondsConnected: the truncating `duration_cast` is not
  modelled; times are whole seconds already.
- Registration: the straight-line `api.on(...)` statements are modelled as a
  walk over the ordered route list (`DefineAll`). Each statement is one
  `Define` of one route.
- Header names are matched exactly; case-insensitive lookup is not modelled.
- An exception thrown by a handler closure is modelled as thrown before the
  handler writes anything (`Env.raises`).
- Session.cpp is not part of this model. Its bodies are assumed from the
  header:
  - `addClient` appends;
  - `delClient` removes every occurrence;
  - `isExpired` means no clients and the expiry time passed;
  - the constructor and `updateExpiryTime` set the expiry one allowance
    after `now`;
  - the creation time is `now`.
- Exchange.Request.EndBytes, Exchange.Request.EndJson, Exchange.Request.End
  and Exchange.Request.WriteAndEnd require a live request, because the code
  dereferences `res` unguarded.
- Routes.WorldDispatch is stated only for names that convert as a string
  capture, because the conversion is uninterpreted.
- Hub.HttpSocket.OnCancelledHttpRequest requires that the socket is not
  gone. This encodes the source's own assumption about uWS's callback order
  (src/ApiProcessor.cpp:70-72): after a disconnection with no outstanding
  responses, no cancel callback follows. The model does not promise what
  happens if uWS breaks that order.
- Identity.Client: the `Player::Builder` and `pl`/`getPlayer`, `send` and
  `close` are left out. They belong to the world engine or the transport.
- The `border` constant of src/World.hpp is left out, because nothing
  modelled uses it.
