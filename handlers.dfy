/** The handlers src/ServerRestDefinitions.cpp registers, as decisions: each
    handler yields the calls it makes on its request (a plan, made by
    `Request.Perform`) and who holds the request once the handler returns.
    The asynchronous completions of /users/{id} and /auth/guest are methods
    on the request, called later on the same loop. */
module Handlers {
  import opened Wrappers
  import opened Text
  import opened Wire
  import opened Json
  import opened Exchange
  import opened Collaborators

  /** Handlers that take no session (`onOutsider`, and the first half of `onAny`). */
  datatype OutsiderHandler =
    | GuestLogin     // GET auth/guest
    | ServerStatus   // GET status
    | TokenList      // GET tokenlist
    | DebugOutsider  // GET debug, without a session

  /** Handlers that take a session (`onFriend`, and the second half of `onAny`). */
  datatype FriendHandler =
    | LocalUser      // GET users/@me
    | LookupUser     // GET users/{id}
    | GetWorld       // GET worlds/{name}
    | ViewChunk      // GET view/{name}/{x}/{y}
    | DebugFriend    // GET debug, with a session
    /** A handler whose body is empty: it only gives its route a shape. */
    | Stub(purpose: Purpose, params: seq<CaptureType>)

  /** What each empty-bodied handler is registered for, as its route's
      comment names it. */
  datatype Purpose =
    | ModifyUser | KickUser | BanUser
    | ModifyWorld | SwitchWorld | TeleportToPos | TeleportToPlayer | KickOwnPlayer
    | GetWorldRoles | CreateWorldRole | ModifyWorldRole | DeleteWorldRole
    | AddUserToWorldRole | DeleteUserFromWorldRole
    | GetChat | GetMessages | SendMessage | GetMessage | EditMessage | DeleteMessage
    | GetEmote | GetEmoteImage

  /** The parameter types a friend handler takes after the session. */
  function Signature(h: FriendHandler): seq<CaptureType> {
    match h
    case LocalUser => []
    case LookupUser => [UserIdArg]
    case GetWorld => [StringArg]
    case ViewChunk => [StringArg, I32Arg, I32Arg]
    case DebugFriend => []
    case Stub(_, ps) => ps
  }

  /** Who holds the request once the handler has returned. */
  datatype Outcome =
    /** Nobody: the handler has ended the response (or never will). */
    | Finished
    /** Nobody, and no response was written: the request is dropped. */
    | Dropped
    /** The account manager, loading a user for `CompleteUserLookup`. */
    | AwaitingUser(uid: nat)
    /** The account manager, creating a guest session for `CompleteGuestLogin`. */
    | AwaitingGuestSession(ip: nat, userAgent: string, lang: string)
    /** The world, through `world.sendChunk(x, y, req)`. */
    | ChunkRequested(world: string, x: int, y: int)

  /** The calls a handler makes, and who holds the request after it. */
  datatype Reply = Reply(plan: seq<Call>, outcome: Outcome)

  /** A response made of a status line and `end()`. */
  function StatusReply(status: string): Reply {
    Reply([WriteStatusCall(status), EndCall], Finished)
  }

  function JsonReply(j: Json): Reply {
    Reply([EndJsonCall(j)], Finished)
  }

  // ---------------------------------------------------------------------
  // GET auth/guest

  /** The language code of an Accept-Language header: "en" when there is no
      header or no piece between its commas; otherwise the first piece, cut
      at its first '-' or ';' when it has one. */
  function PreferredLanguage(header: Option<string>): (lang: string)
    ensures header.None? ==> lang == "en"
    ensures header.Some? && Tokenize(header.value, ',') != [] ==>
      var first := Tokenize(header.value, ',')[0];
      HasPrefix(first, lang) && '-' !in lang && ';' !in lang
      && (|lang| == |first| || first[|lang|] in {'-', ';'})
  {
    if header.None? then "en"
    else
      var langs := Tokenize(header.value, ',');
      if langs == [] then "en"
      else
        var first := langs[0];
        first[..FirstOf(first, {'-', ';'})]
  }

  /** The language computation as the handler does it: start from "en",
      take the first token, and erase from its first '-' or ';' on. */
  method LanguageCode(header: Option<string>) returns (lang: string)
    ensures lang == PreferredLanguage(header)
  {
    lang := "en";
    if header.Some? {
      var langs := Tokenize(header.value, ',');
      if |langs| != 0 {
        lang := langs[0];
        var i := 0;
        while i < |lang| && lang[i] != '-' && lang[i] != ';'
          invariant 0 <= i <= |lang|
          invariant forall k :: 0 <= k < i ==> lang[k] !in {'-', ';'}
        {
          i := i + 1;
        }
        assert i == FirstOf(lang, {'-', ';'});
        if i < |lang| {
          lang := lang[..i];
        }
      }
    }
  }

  function GuestLoginReply(req: HttpRequest): Reply {
    var ua := req.Header("user-agent").GetOr([]);
    Reply([], AwaitingGuestSession(req.ip, ua, PreferredLanguage(req.Header("accept-language"))))
  }

  // ---------------------------------------------------------------------
  // GET worlds/{name} and GET view/{name}/{x}/{y}

  function WorldReply(name: string, env: Env): Reply {
    if env.worldLoaded(name) then JsonReply(env.worldJson(name))
    else StatusReply("404 Not Found")
  }

  function ViewReply(name: string, x: int, y: int, env: Env): Reply {
    if !env.validWorldName(name) then StatusReply("400 Bad Request")
    else if !env.worldLoaded(name) then StatusReply("404 Not Found")
    else Reply([], ChunkRequested(name, x, y))
  }

  // ---------------------------------------------------------------------
  // GET debug

  function DebugOutsiderJson(body: Json): Json {
    Obj([("call", Str("outsider")), ("body", body)])
  }

  function DebugFriendJson(body: Json, session: Json): Json {
    Obj([("call", Str("friend")), ("body", body), ("session", session)])
  }

  // ---------------------------------------------------------------------
  // The two overloads.

  /** The handler run without a session; outsider handlers take no captures. */
  function OutsiderReply(h: OutsiderHandler, body: Json, req: HttpRequest, env: Env): Reply {
    match h
    case GuestLogin => GuestLoginReply(req)
    case ServerStatus => JsonReply(env.reportJson(StatusReport))
    case TokenList => JsonReply(env.reportJson(TokenListReport))
    case DebugOutsider => JsonReply(DebugOutsiderJson(body))
  }

  /** The handler run with session `s`, given its converted captures. */
  function FriendReply(h: FriendHandler, s: SessionId, caps: seq<string>, body: Json, env: Env): Reply
    requires |caps| == |Signature(h)|
  {
    match h
    case LocalUser => JsonReply(env.userJson(s))
    case LookupUser => Reply([], AwaitingUser(env.userIdOf(caps[0])))
    case GetWorld => WorldReply(caps[0], env)
    case ViewChunk => ViewReply(caps[0], env.intOf(caps[1]), env.intOf(caps[2]), env)
    case DebugFriend => JsonReply(DebugFriendJson(body, env.sessionJson(s)))
    case Stub(_, _) => Reply([], Dropped)
  }

  // ---------------------------------------------------------------------
  // Properties of the decisions.

  /** The first piece ends at the first delimiter. */
  lemma FirstPiece(s: string, d: char, k: nat)
    requires 0 < k < |s| && s[k] == d
    requires forall i :: 0 <= i < k ==> s[i] != d
    ensures Tokenize(s, d) != [] && Tokenize(s, d)[0] == s[..k]
  {
    assert FirstOf(s, {d}) == k;
  }

  /** Without a delimiter the whole input is the one piece. */
  lemma OnlyPiece(s: string, d: char)
    requires s != []
    requires forall i :: 0 <= i < |s| ==> s[i] != d
    ensures Tokenize(s, d) == [s]
  {
    assert FirstOf(s, {d}) == |s|;
    assert s[..|s|] == s;
  }

  /** A browser's header: "en-US,en;q=0.9" gives "en", and so does the
      single piece "en-US;q=0.9". */
  lemma LanguageOfBrowserHeader(h: string, g: string)
    requires h == "en-US,en;q=0.9" && g == "en-US;q=0.9"
    ensures PreferredLanguage(Some(h)) == "en"
    ensures PreferredLanguage(Some(g)) == "en"
  {
    assert h[0] == 'e' && h[1] == 'n' && h[2] == '-' && h[3] == 'U' && h[4] == 'S' && h[5] == ',';
    FirstPiece(h, ',', 5);
    var first := h[..5];
    assert first[0] == 'e' && first[1] == 'n' && first[2] == '-';
    assert FirstOf(first, {'-', ';'}) == 2;
    assert first[..2] == "en";
    assert g[0] == 'e' && g[1] == 'n' && g[2] == '-';
    assert forall i :: 0 <= i < |g| ==> g[i] != ',';
    OnlyPiece(g, ',');
    assert FirstOf(g, {'-', ';'}) == 2;
    assert g[..2] == "en";
  }

  /** Without any piece between commas, the default "en" stands. */
  lemma {:induction false} LanguageDefault(v: string)
    requires forall i :: 0 <= i < |v| ==> v[i] == ','
    ensures PreferredLanguage(Some(v)) == "en"
  {
    TokenizeEmpty(v, ',');
  }

  /** A first piece with no '-' and no ';' is the language code unchanged. */
  lemma LanguageWhole(v: string)
    requires Tokenize(v, ',') != []
    requires '-' !in Tokenize(v, ',')[0] && ';' !in Tokenize(v, ',')[0]
    ensures PreferredLanguage(Some(v)) == Tokenize(v, ',')[0]
  {
    var first := Tokenize(v, ',')[0];
    assert forall i :: 0 <= i < |first| ==> first[i] !in {'-', ';'};
  }

  /** A status reply on a fresh buffer sends exactly the status line and a
      zero Content-Length. */
  lemma StatusReplyBytes(st: ExchangeState, status: string, dump: Json -> string)
    requires st.live && st.buffered == []
    ensures st.Run(StatusReply(status).plan, dump).sent
      == st.sent + [Emission(StatusOnly(status), true)]
  {
    RunTwo(st, WriteStatusCall(status), EndCall, dump);
    StatusThenEnd(st, status);
  }

  /** /worlds/{name}: a loaded world is answered `200 OK` with its JSON; any
      other name with `404 Not Found` and an empty body. */
  lemma WorldResponse(st: ExchangeState, name: string, env: Env)
    requires st.live && st.buffered == []
    ensures var rep := WorldReply(name, env);
      var after := st.Run(rep.plan, env.dump);
      rep.outcome == Finished && |after.sent| == |st.sent| + 1
      && (env.worldLoaded(name) ==>
            var e := after.sent[|st.sent|];
            var text := env.dump(env.worldJson(name));
            e.hasHead && ReadMessage(e.bytes) == Some(Message(
              [StatusLine("200 OK"), HeaderLine("Content-Type", "application/json"), LengthLine(text)], text)))
      && (!env.worldLoaded(name) ==>
            after.sent == st.sent + [Emission(StatusOnly("404 Not Found"), true)])
  {
    if env.worldLoaded(name) {
      RunOne(st, EndJsonCall(env.worldJson(name)), env.dump);
      JsonOnly(st, env.dump(env.worldJson(name)));
    } else {
      StatusReplyBytes(st, "404 Not Found", env.dump);
    }
  }

  /** /view: an invalid name is answered 400 whether or not a world of that
      name is loaded, so the load check is never consulted; an unloaded
      world is answered 404 before the world is asked for anything; only a
      valid, loaded world gets the request, and then the handler writes
      nothing of its own. */
  lemma ViewOrder(name: string, x: int, y: int, env: Env, loaded: string -> bool)
    ensures !env.validWorldName(name) ==>
      ViewReply(name, x, y, env) == ViewReply(name, x, y, env.(worldLoaded := loaded))
      == StatusReply("400 Bad Request")
    ensures env.validWorldName(name) && !env.worldLoaded(name) ==>
      ViewReply(name, x, y, env) == StatusReply("404 Not Found")
    ensures ViewReply(name, x, y, env).outcome.ChunkRequested?
      <==> env.validWorldName(name) && env.worldLoaded(name)
    ensures ViewReply(name, x, y, env).outcome.ChunkRequested? ==>
      ViewReply(name, x, y, env) == Reply([], ChunkRequested(name, x, y))
  {
  }

  /** The bytes of the two refusals of /view on a fresh buffer. */
  lemma ViewRefusalBytes(st: ExchangeState, name: string, x: int, y: int, env: Env)
    requires st.live && st.buffered == []
    ensures !env.validWorldName(name) ==>
      st.Run(ViewReply(name, x, y, env).plan, env.dump).sent
      == st.sent + [Emission(StatusOnly("400 Bad Request"), true)]
    ensures env.validWorldName(name) && !env.worldLoaded(name) ==>
      st.Run(ViewReply(name, x, y, env).plan, env.dump).sent
      == st.sent + [Emission(StatusOnly("404 Not Found"), true)]
  {
    if !env.validWorldName(name) {
      StatusReplyBytes(st, "400 Bad Request", env.dump);
    } else if !env.worldLoaded(name) {
      StatusReplyBytes(st, "404 Not Found", env.dump);
    }
  }

  // ---------------------------------------------------------------------
  // Asynchronous completions, run later on the same loop.

  /** The callback `am.getOrLoadUser` runs: end with the user's JSON, unless
      the request was cancelled in the meantime. */
  method CompleteUserLookup(r: Request, user: Json, dump: Json -> string)
    modifies r
    ensures r.data == old(r.data)
    ensures old(r.IsCancelled()) ==> r.State() == old(r.State())
    ensures !old(r.IsCancelled()) ==> r.State() == old(r.State()).EndJson(dump(user))
  {
    if !r.IsCancelled() {
      r.EndJson(user, dump);
    }
  }

  /** The JSON that answers a guest login. */
  function TokenJson(token: string, base64: string -> string): Json {
    Obj([("token", Str(base64(token)))])
  }

  /** The callback `am.createGuestSession` runs: end with the new token,
      base64-encoded, unless the request was cancelled in the meantime. */
  method CompleteGuestLogin(r: Request, token: string, base64: string -> string, dump: Json -> string)
    modifies r
    ensures r.data == old(r.data)
    ensures old(r.IsCancelled()) ==> r.State() == old(r.State())
    ensures !old(r.IsCancelled()) ==> r.State() == old(r.State()).EndJson(dump(TokenJson(token, base64)))
  {
    if !r.IsCancelled() {
      r.EndJson(TokenJson(token, base64), dump);
    }
  }
}
