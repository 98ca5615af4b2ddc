/** The route table of `Server::registerEndpoints`
    (src/ServerRestDefinitions.cpp): every route as data, in the order the
    source registers them, and the registration itself as the builder
    calls that put them into the processor's table. */
module Routes {
  import opened Wrappers
  import opened Json
  import opened Exchange
  import opened Collaborators
  import opened Handlers
  import opened Dispatch

  /** How a route's handlers were attached to the builder. */
  datatype Tier =
    | Outsider(flag: bool, outsiderHandler: OutsiderHandler)   // onOutsider(flag, f)
    | Friend(friendHandler: FriendHandler)                      // onFriend(f)
    | Any(anyOutsider: OutsiderHandler, anyFriend: FriendHandler)  // onAny(o, f)

  /** One `api.on(verb).path(...).var()...` chain: the pattern holds the
      literal of each `path` and "" for each `var`, in call order. */
  datatype Route = Route(verb: Method, pattern: seq<string>, tier: Tier)

  /** What the C++ types check at each registration: a friend handler takes
      one parameter per `var()`; outsider handlers take none. */
  predicate RouteOk(rt: Route) {
    match rt.tier
    case Outsider(_, _) => VarCount(rt.pattern) == 0
    case Friend(h) => |Signature(h)| == VarCount(rt.pattern)
    case Any(_, f) => VarCount(rt.pattern) == 0 && Signature(f) == []
  }

  /** The endpoint the builder makes of a route. */
  function RouteEndpoint(rt: Route): (ep: Endpoint)
    ensures ep.markers == rt.pattern
  {
    match rt.tier
    case Outsider(flag, h) => Endpoint(rt.pattern, [], Some(flag), Some(h), None)
    case Friend(h) => Endpoint(rt.pattern, Signature(h), None, None, Some(h))
    case Any(o, f) => Endpoint(rt.pattern, [], None, Some(o), Some(f))
  }

  predicate AllOk(routes: seq<Route>) {
    forall i :: 0 <= i < |routes| ==> RouteOk(routes[i])
  }

  /** A table after `add` of one route. */
  function AddRoute(t: map<Method, seq<Endpoint>>, rt: Route): map<Method, seq<Endpoint>>
  {
    t[rt.verb := EndpointsIn(t, rt.verb) + [RouteEndpoint(rt)]]
  }

  /** A table after the routes are added one after the other. */
  function Extend(t: map<Method, seq<Endpoint>>, routes: seq<Route>): map<Method, seq<Endpoint>>
    decreases |routes|
  {
    if routes == [] then t else Extend(AddRoute(t, routes[0]), routes[1..])
  }

  /** The endpoints of the routes of one method, in order. */
  function EndpointsOf(routes: seq<Route>, m: Method): seq<Endpoint>
    decreases |routes|
  {
    if routes == [] then []
    else (if routes[0].verb == m then [RouteEndpoint(routes[0])] else []) + EndpointsOf(routes[1..], m)
  }

  /** The builder makes a well-formed endpoint of every route the C++
      types accept. */
  lemma RouteEndpointOk(rt: Route)
    requires RouteOk(rt)
    ensures WellFormed(RouteEndpoint(rt))
  {
  }

  lemma {:induction false} EndpointsOfOk(routes: seq<Route>, m: Method)
    requires AllOk(routes)
    ensures forall i :: 0 <= i < |EndpointsOf(routes, m)| ==> WellFormed(EndpointsOf(routes, m)[i])
    decreases |routes|
  {
    if routes != [] {
      assert AllOk(routes[1..]) by {
        forall i | 0 <= i < |routes[1..]| ensures RouteOk(routes[1..][i]) {
          assert routes[1..][i] == routes[i + 1];
        }
      }
      EndpointsOfOk(routes[1..], m);
      RouteEndpointOk(routes[0]);
    }
  }

  // ---------------------------------------------------------------------
  // The routes, section by section.

  function AuthRoutes(): seq<Route> {
    [Route(GET, ["auth", "guest"], Outsider(true, GuestLogin))]
  }

  function UserRoutes(): seq<Route> {
    [ Route(GET, ["users", "@me"], Friend(LocalUser)),
      Route(GET, ["users", ""], Friend(LookupUser)),
      Route(PATCH, ["users", ""], Friend(Stub(ModifyUser, [UserIdArg]))),
      Route(POST, ["users", "", "kick"], Friend(Stub(KickUser, [UserIdArg]))),
      Route(POST, ["users", "", "ban"], Friend(Stub(BanUser, [UserIdArg]))) ]
  }

  function WorldRoutes(): seq<Route> {
    [ Route(GET, ["worlds", ""], Friend(GetWorld)),
      Route(PATCH, ["worlds", ""], Friend(Stub(ModifyWorld, [StringArg]))),
      Route(GET, ["worlds", "", "cursors", "", "move", "world", ""],
        Friend(Stub(SwitchWorld, [StringArg, PlayerIdArg, StringArg]))),
      Route(GET, ["worlds", "", "cursors", "", "move", "pos", "", ""],
        Friend(Stub(TeleportToPos, [StringArg, PlayerIdArg, I32Arg, I32Arg]))),
      Route(GET, ["worlds", "", "cursors", "", "move", "player", ""],
        Friend(Stub(TeleportToPlayer, [StringArg, PlayerIdArg, PlayerIdArg]))),
      Route(GET, ["worlds", "", "cursors", "", "kick"],
        Friend(Stub(KickOwnPlayer, [StringArg, PlayerIdArg]))) ]
  }

  function WorldRoleRoutes(): seq<Route> {
    [ Route(GET, ["worlds", "", "roles"], Friend(Stub(GetWorldRoles, [StringArg]))),
      Route(POST, ["worlds", "", "roles"], Friend(Stub(CreateWorldRole, [StringArg]))),
      Route(PATCH, ["worlds", "", "roles", ""], Friend(Stub(ModifyWorldRole, [StringArg, StringArg]))),
      Route(DELETE, ["worlds", "", "roles", ""], Friend(Stub(DeleteWorldRole, [StringArg, StringArg]))),
      Route(PUT, ["worlds", "", "roles", "", ""],
        Friend(Stub(AddUserToWorldRole, [StringArg, StringArg, UserIdArg]))),
      Route(DELETE, ["worlds", "", "roles", "", ""],
        Friend(Stub(DeleteUserFromWorldRole, [StringArg, StringArg, UserIdArg]))) ]
  }

  function ChatRoutes(): seq<Route> {
    [ Route(GET, ["chats", ""], Friend(Stub(GetChat, [StringArg]))),
      Route(GET, ["chats", "", "messages"], Friend(Stub(GetMessages, [StringArg]))),
      Route(POST, ["chats", "", "messages"], Friend(Stub(SendMessage, [StringArg]))),
      Route(GET, ["chats", "", "messages", ""], Friend(Stub(GetMessage, [StringArg, StringArg]))),
      Route(PATCH, ["chats", "", "messages", ""], Friend(Stub(EditMessage, [StringArg, StringArg]))),
      Route(DELETE, ["chats", "", "messages", ""], Friend(Stub(DeleteMessage, [StringArg, StringArg]))) ]
  }

  function EmoteRoutes(): seq<Route> {
    [ Route(GET, ["emotes", ""], Friend(Stub(GetEmote, [StringArg]))),
      Route(GET, ["emotes", "", "image"], Friend(Stub(GetEmoteImage, [StringArg]))) ]
  }

  function ExtraRoutes(): seq<Route> {
    [ Route(GET, ["status"], Outsider(false, ServerStatus)),
      Route(GET, ["view", "", "", ""], Friend(ViewChunk)),
      Route(GET, ["tokenlist"], Outsider(false, TokenList)),
      Route(GET, ["debug"], Any(DebugOutsider, DebugFriend)) ]
  }

  /** The sections before and after the extras. */
  function FrontRoutes(): seq<Route> { AuthRoutes() + UserRoutes() }
  function MiddleRoutes(): seq<Route> { WorldRoutes() + WorldRoleRoutes() + ChatRoutes() + EmoteRoutes() }

  /** Every route, in registration order. */
  function AllRoutes(): seq<Route> {
    FrontRoutes() + MiddleRoutes() + ExtraRoutes()
  }

  // ---------------------------------------------------------------------
  // Registration.

  /** One builder chain: `on(verb)`, then `path` or `var` for each segment,
      then the tier's terminal call. */
  method Define(api: ApiProcessor, rt: Route)
    requires api.Valid() && RouteOk(rt)
    modifies api
    ensures api.Valid()
    ensures api.definedEndpoints == AddRoute(old(api.definedEndpoints), rt)
  {
    var b := new TemplatedEndpointBuilder(api, rt.verb);
    var i := 0;
    while i < |rt.pattern|
      invariant 0 <= i <= |rt.pattern| && b.varMarkers == rt.pattern[..i]
      invariant api.definedEndpoints == old(api.definedEndpoints) && api.Valid()
    {
      if rt.pattern[i] == "" {
        b.Var();
      } else {
        var ok := b.Path(rt.pattern[i]);
      }
      assert rt.pattern[..i + 1] == rt.pattern[..i] + [rt.pattern[i]];
      i := i + 1;
    }
    assert b.varMarkers == rt.pattern;
    match rt.tier {
      case Outsider(flag, h) => b.OnOutsider(flag, h);
      case Friend(h) => b.OnFriend(h);
      case Any(o, f) => b.OnAny(o, f);
    }
  }

  /** Adding routes appends, to each method's endpoints, the endpoints of
      that method's routes in order, and leaves the other methods alone. */
  lemma {:induction false} ExtendEndpoints(t: map<Method, seq<Endpoint>>, routes: seq<Route>, m: Method)
    ensures EndpointsIn(Extend(t, routes), m) == EndpointsIn(t, m) + EndpointsOf(routes, m)
    decreases |routes|
  {
    if routes == [] {
      assert EndpointsIn(t, m) + [] == EndpointsIn(t, m);
    } else {
      var rt, rest := routes[0], routes[1..];
      var a, b := EndpointsIn(t, m), EndpointsOf(rest, m);
      assert Extend(t, routes) == Extend(AddRoute(t, rt), rest);
      ExtendEndpoints(AddRoute(t, rt), rest, m);
      AddRouteEndpoints(t, rt, m);
      if rt.verb == m {
        assert EndpointsOf(routes, m) == [RouteEndpoint(rt)] + b;
        assert a + [RouteEndpoint(rt)] + b == a + ([RouteEndpoint(rt)] + b);
      } else {
        assert EndpointsOf(routes, m) == [] + b;
        assert [] + b == b && a + [] == a;
      }
    }
  }

  lemma AddRouteEndpoints(t: map<Method, seq<Endpoint>>, rt: Route, m: Method)
    ensures EndpointsIn(AddRoute(t, rt), m)
      == EndpointsIn(t, m) + if rt.verb == m then [RouteEndpoint(rt)] else []
  {
  }

  lemma {:induction false} EndpointsOfAppend(a: seq<Route>, b: seq<Route>, m: Method)
    ensures EndpointsOf(a + b, m) == EndpointsOf(a, m) + EndpointsOf(b, m)
    decreases |a|
  {
    if a == [] {
      assert a + b == b;
    } else {
      EndpointsOfAppend(a[1..], b, m);
      assert (a + b)[0] == a[0];
      assert (a + b)[1..] == a[1..] + b;
      var h := if a[0].verb == m then [RouteEndpoint(a[0])] else [];
      var x, y := EndpointsOf(a[1..], m), EndpointsOf(b, m);
      assert EndpointsOf(a + b, m) == h + (x + y);
      assert h + (x + y) == (h + x) + y;
    }
  }

  /** Extending by one more route is one more `add`. */
  lemma {:induction false} ExtendSnoc(t: map<Method, seq<Endpoint>>, routes: seq<Route>, rt: Route)
    ensures Extend(t, routes + [rt]) == AddRoute(Extend(t, routes), rt)
    decreases |routes|
  {
    if routes == [] {
      assert routes + [rt] == [rt];
    } else {
      assert (routes + [rt])[1..] == routes[1..] + [rt];
      ExtendSnoc(AddRoute(t, routes[0]), routes[1..], rt);
    }
  }

  /** The registration statements, one builder chain per route, in order. */
  method DefineAll(api: ApiProcessor, routes: seq<Route>)
    requires api.Valid() && AllOk(routes)
    modifies api
    ensures api.Valid()
    ensures api.definedEndpoints == Extend(old(api.definedEndpoints), routes)
  {
    ghost var t0 := api.definedEndpoints;
    var i := 0;
    while i < |routes|
      invariant 0 <= i <= |routes| && api.Valid()
      invariant api.definedEndpoints == Extend(t0, routes[..i])
    {
      Define(api, routes[i]);
      ExtendSnoc(t0, routes[..i], routes[i]);
      assert routes[..i + 1] == routes[..i] + [routes[i]];
      i := i + 1;
    }
    assert routes[..i] == routes;
  }

  lemma AllOkAppend(a: seq<Route>, b: seq<Route>)
    requires AllOk(a) && AllOk(b)
    ensures AllOk(a + b)
  {
    forall i | 0 <= i < |a + b| ensures RouteOk((a + b)[i]) {
      if i < |a| { assert (a + b)[i] == a[i]; } else { assert (a + b)[i] == b[i - |a|]; }
    }
  }

  lemma AuthOk() ensures AllOk(AuthRoutes()) {}
  lemma UsersOk() ensures AllOk(UserRoutes()) {}
  lemma WorldsOkA() ensures var w := WorldRoutes(); RouteOk(w[0]) && RouteOk(w[1]) && RouteOk(w[2]) {}
  lemma WorldsOkB() ensures var w := WorldRoutes(); RouteOk(w[3]) {}
  lemma WorldsOkC() ensures var w := WorldRoutes(); RouteOk(w[4]) && RouteOk(w[5]) {}
  lemma Six(rs: seq<Route>)
    requires |rs| == 6 && RouteOk(rs[0]) && RouteOk(rs[1]) && RouteOk(rs[2])
    requires RouteOk(rs[3]) && RouteOk(rs[4]) && RouteOk(rs[5])
    ensures AllOk(rs)
  {
  }
  lemma WorldsOk() ensures AllOk(WorldRoutes()) {
    WorldsOkA(); WorldsOkB(); WorldsOkC();
    Six(WorldRoutes());
  }
  lemma WorldRolesOkA() ensures var w := WorldRoleRoutes(); RouteOk(w[0]) && RouteOk(w[1]) && RouteOk(w[2]) {}
  lemma WorldRolesOkB() ensures var w := WorldRoleRoutes(); RouteOk(w[3]) && RouteOk(w[4]) && RouteOk(w[5]) {}
  lemma WorldRolesOk() ensures AllOk(WorldRoleRoutes()) {
    WorldRolesOkA(); WorldRolesOkB();
    Six(WorldRoleRoutes());
  }
  lemma ChatsOkA() ensures var c := ChatRoutes(); RouteOk(c[0]) && RouteOk(c[1]) && RouteOk(c[2]) {}
  lemma ChatsOkB() ensures var c := ChatRoutes(); RouteOk(c[3]) && RouteOk(c[4]) && RouteOk(c[5]) {}
  lemma ChatsOk() ensures AllOk(ChatRoutes()) {
    ChatsOkA(); ChatsOkB();
    Six(ChatRoutes());
  }
  lemma EmotesOk() ensures AllOk(EmoteRoutes()) {}
  lemma ExtrasOk() ensures AllOk(ExtraRoutes()) {}

  /** Every route satisfies what the C++ types check. */
  lemma AllRoutesOk()
    ensures AllOk(AllRoutes())
  {
    AuthOk(); UsersOk(); WorldsOk(); WorldRolesOk(); ChatsOk(); EmotesOk(); ExtrasOk();
    AllOkAppend(AuthRoutes(), UserRoutes());
    AllOkAppend(WorldRoutes(), WorldRoleRoutes());
    AllOkAppend(WorldRoutes() + WorldRoleRoutes(), ChatRoutes());
    AllOkAppend(WorldRoutes() + WorldRoleRoutes() + ChatRoutes(), EmoteRoutes());
    AllOkAppend(FrontRoutes(), MiddleRoutes());
    AllOkAppend(FrontRoutes() + MiddleRoutes(), ExtraRoutes());
  }

  /** `registerEndpoints()`: every route, in source order. */
  method RegisterEndpoints(api: ApiProcessor)
    requires api.Valid()
    modifies api
    ensures api.Valid()
    ensures forall m :: api.Endpoints(m) == old(api.Endpoints(m)) + EndpointsOf(AllRoutes(), m)
  {
    ghost var t0 := api.definedEndpoints;
    AllRoutesOk();
    DefineAll(api, AllRoutes());
    forall m ensures api.Endpoints(m) == EndpointsIn(t0, m) + EndpointsOf(AllRoutes(), m) {
      ExtendEndpoints(t0, AllRoutes(), m);
    }
  }

  // ---------------------------------------------------------------------
  // Properties of the registered table.

  /** The endpoints a request of method `m` is matched against once every
      route is registered on an empty processor. */
  function RouteTable(m: Method): (eps: seq<Endpoint>)
    ensures forall i :: 0 <= i < |eps| ==> WellFormed(eps[i])
  {
    AllRoutesOk();
    EndpointsOfOk(AllRoutes(), m);
    EndpointsOf(AllRoutes(), m)
  }

  /** The table a freshly constructed processor holds after registration. */
  method RegisterOnFresh() returns (api: ApiProcessor)
    ensures api.Valid() && forall m :: api.Endpoints(m) == RouteTable(m)
  {
    api := new ApiProcessor();
    RegisterEndpoints(api);
  }

  /** Every route of a section begins with one of the literals. */
  predicate Headed(routes: seq<Route>, lits: set<string>) {
    forall i :: 0 <= i < |routes| ==> |routes[i].pattern| > 0 && routes[i].pattern[0] in lits
  }

  lemma HeadedAppend(a: seq<Route>, b: seq<Route>, lits: set<string>)
    requires Headed(a, lits) && Headed(b, lits)
    ensures Headed(a + b, lits)
  {
    forall i | 0 <= i < |a + b| ensures |(a + b)[i].pattern| > 0 && (a + b)[i].pattern[0] in lits {
      if i < |a| { assert (a + b)[i] == a[i]; } else { assert (a + b)[i] == b[i - |a|]; }
    }
  }

  function MiddleLiterals(): set<string> { {"worlds", "chats", "emotes"} }

  lemma WorldsHeaded() ensures Headed(WorldRoutes(), MiddleLiterals()) {}
  lemma WorldRolesHeaded() ensures Headed(WorldRoleRoutes(), MiddleLiterals()) {}
  lemma ChatsHeaded() ensures Headed(ChatRoutes(), MiddleLiterals()) {}
  lemma EmotesHeaded() ensures Headed(EmoteRoutes(), MiddleLiterals()) {}

  lemma MiddleHeaded()
    ensures Headed(MiddleRoutes(), MiddleLiterals())
  {
    WorldsHeaded(); WorldRolesHeaded(); ChatsHeaded(); EmotesHeaded();
    HeadedAppend(WorldRoutes(), WorldRoleRoutes(), MiddleLiterals());
    HeadedAppend(WorldRoutes() + WorldRoleRoutes(), ChatRoutes(), MiddleLiterals());
    HeadedAppend(WorldRoutes() + WorldRoleRoutes() + ChatRoutes(), EmoteRoutes(), MiddleLiterals());
  }

  /** Routes that all begin with other literals than the request's first
      segment have no endpoint that verifies it. */
  lemma {:induction false} NoneByHead(routes: seq<Route>, lits: set<string>, m: Method, args: seq<string>,
                                      converts: (CaptureType, string) -> bool)
    requires Headed(routes, lits) && |args| > 0 && args[0] !in lits && "" !in lits
    ensures FirstMatch(EndpointsOf(routes, m), args, converts) == None
    decreases |routes|
  {
    if routes != [] {
      assert Headed(routes[1..], lits) by {
        forall i | 0 <= i < |routes[1..]| ensures |routes[1..][i].pattern| > 0 && routes[1..][i].pattern[0] in lits {
          assert routes[1..][i] == routes[i + 1];
        }
      }
      NoneByHead(routes[1..], lits, m, args, converts);
      var head: seq<Endpoint> := if routes[0].verb == m then [RouteEndpoint(routes[0])] else [];
      if routes[0].verb == m {
        assert !Verify(head[0], args, converts) by {
          assert head[0].markers == routes[0].pattern;
          assert |head[0].markers[0]| != 0;
        }
      }
      assert FirstMatch(head, args, converts) == None;
      FirstMatchAfter(head, EndpointsOf(routes[1..], m), args, converts);
    }
  }

  function GuestEndpoint(): Endpoint { Endpoint(["auth", "guest"], [], Some(true), Some(GuestLogin), None) }
  function MeEndpoint(): Endpoint { Endpoint(["users", "@me"], [], None, None, Some(LocalUser)) }
  function UserIdEndpoint(): Endpoint { Endpoint(["users", ""], [UserIdArg], None, None, Some(LookupUser)) }
  function DebugEndpoint(): Endpoint { Endpoint(["debug"], [], None, Some(DebugOutsider), Some(DebugFriend)) }
  function ViewEndpoint(): Endpoint { Endpoint(["view", "", "", ""], [StringArg, I32Arg, I32Arg], None, None, Some(ViewChunk)) }
  function WorldEndpoint(): Endpoint { Endpoint(["worlds", ""], [StringArg], None, None, Some(GetWorld)) }

  /** The GET endpoints of the first two sections. */
  function FrontGet(): seq<Endpoint> { [GuestEndpoint(), MeEndpoint(), UserIdEndpoint()] }

  /** The GET endpoints of the extras. */
  function ExtraGet(): seq<Endpoint> {
    [ Endpoint(["status"], [], Some(false), Some(ServerStatus), None),
      ViewEndpoint(),
      Endpoint(["tokenlist"], [], Some(false), Some(TokenList), None),
      DebugEndpoint() ]
  }

  lemma FrontEnds() ensures EndpointsOf(FrontRoutes(), GET) == FrontGet() {}
  lemma ExtraEnds() ensures EndpointsOf(ExtraRoutes(), GET) == ExtraGet() {}

  /** The GET table: the first two sections, the middle, the extras. */
  lemma GetTable(m: Method)
    requires m == GET
    ensures RouteTable(m) == FrontGet() + EndpointsOf(MiddleRoutes(), m) + ExtraGet()
  {
    EndpointsOfAppend(FrontRoutes(), MiddleRoutes(), m);
    EndpointsOfAppend(FrontRoutes() + MiddleRoutes(), ExtraRoutes(), m);
    FrontEnds();
    ExtraEnds();
  }

  /** With `front` first, `mid` never verifying, `back` last: the match
      is `front`'s, or else `back`'s moved past `front` and `mid`. */
  lemma {:induction false} TableMatch(t: seq<Endpoint>, front: seq<Endpoint>, mid: seq<Endpoint>, back: seq<Endpoint>,
                                      args: seq<string>, converts: (CaptureType, string) -> bool)
    requires t == front + mid + back && FirstMatch(mid, args, converts) == None
    ensures var f := FirstMatch(front, args, converts);
      var b := FirstMatch(back, args, converts);
      FirstMatch(t, args, converts)
      == if f.Some? then f else if b.Some? then Some(|t| - |back| + b.value) else None
  {
    if FirstMatch(front, args, converts).Some? {
      FirstMatchAppend(front, mid, args, converts);
      FirstMatchAppend(front + mid, back, args, converts);
    } else {
      FirstMatchAfter(front, mid, args, converts);
      FirstMatchAfter(front + mid, back, args, converts);
    }
  }

  /** With neither `front` nor `mid` verifying, the table's match is
      `back`'s, moved past them. */
  lemma BackMatch(t: seq<Endpoint>, front: seq<Endpoint>, mid: seq<Endpoint>, back: seq<Endpoint>,
                  args: seq<string>, converts: (CaptureType, string) -> bool)
    requires t == front + mid + back
    requires FirstMatch(front, args, converts) == None && FirstMatch(mid, args, converts) == None
    ensures var b := FirstMatch(back, args, converts);
      FirstMatch(t, args, converts) == (if b.None? then None else Some(|front| + |mid| + b.value))
      && (b.Some? ==> t[|front| + |mid| + b.value] == back[b.value])
  {
    FirstMatchAfter(front, mid, args, converts);
    FirstMatchAfter(front + mid, back, args, converts);
  }

  /** A match in `front` is the table's match, whatever follows it. */
  lemma FrontMatch(t: seq<Endpoint>, front: seq<Endpoint>, mid: seq<Endpoint>, back: seq<Endpoint>,
                   args: seq<string>, converts: (CaptureType, string) -> bool)
    requires t == front + mid + back && FirstMatch(front, args, converts).Some?
    ensures var f := FirstMatch(front, args, converts);
      FirstMatch(t, args, converts) == f && t[f.value] == front[f.value]
  {
    FirstMatchAppend(front, mid, args, converts);
    FirstMatchAppend(front + mid, back, args, converts);
  }

  /** The middle sections never verify a request whose first segment is
      none of their literals. */
  lemma MiddleNone(m: Method, args: seq<string>, converts: (CaptureType, string) -> bool)
    requires |args| > 0 && args[0] !in MiddleLiterals()
    ensures FirstMatch(EndpointsOf(MiddleRoutes(), m), args, converts) == None
  {
    MiddleHeaded();
    NoneByHead(MiddleRoutes(), MiddleLiterals(), m, args, converts);
  }

  /** A GET that the first two sections verify is decided by them. */
  lemma GetFront(m: Method, args: seq<string>, converts: (CaptureType, string) -> bool)
    requires m == GET && FirstMatch(FrontGet(), args, converts).Some?
    ensures var t := RouteTable(m);
      var f := FirstMatch(FrontGet(), args, converts);
      FirstMatch(t, args, converts) == f && t[f.value] == FrontGet()[f.value]
  {
    GetTable(m);
    FrontMatch(RouteTable(m), FrontGet(), EndpointsOf(MiddleRoutes(), m), ExtraGet(), args, converts);
  }

  /** `GET /users/@me` is served by the `@me` route, registered before
      `users/{}`, whatever `@me` would convert to. */
  lemma {:induction false} MePriority(m: Method, converts: (CaptureType, string) -> bool)
    requires m == GET
    ensures var t := RouteTable(m);
      FirstMatch(t, ["users", "@me"], converts) == Some(1) && t[1] == MeEndpoint()
  {
    var args := ["users", "@me"];
    var front := FrontGet();
    assert !Verify(front[0], args, converts) by { assert front[0].markers[0] != args[0]; }
    assert Verify(front[1], args, converts);
    assert FirstMatch(front, args, converts) == Some(1);
    GetFront(m, args, converts);
  }

  lemma FrontUsers(x: string, converts: (CaptureType, string) -> bool)
    requires x != "@me"
    ensures FirstMatch(FrontGet(), ["users", x], converts)
      == if converts(UserIdArg, x) then Some(2) else None
  {
    var args := ["users", x];
    var front := FrontGet();
    assert !Verify(front[0], args, converts) by { assert front[0].markers[0] != args[0]; }
    assert !Verify(front[1], args, converts) by { assert front[1].markers[1] != args[1]; }
    assert Captures(front[2].markers, args) == [x];
  }

  /** No extra route has two segments. */
  lemma ExtraMissPairs(args: seq<string>, converts: (CaptureType, string) -> bool)
    requires |args| == 2
    ensures FirstMatch(ExtraGet(), args, converts) == None
  {
    var back := ExtraGet();
    forall j | 0 <= j < |back| ensures !Verify(back[j], args, converts) {
      assert |back[j].markers| != 2;
    }
  }

  /** `GET /users/{x}` for any other segment: the user lookup when `x`
      converts to a user id, and otherwise no endpoint at all. */
  lemma {:induction false} UserLookupRoute(m: Method, x: string, converts: (CaptureType, string) -> bool)
    requires m == GET && x != "@me"
    ensures var t := RouteTable(m);
      var r := FirstMatch(t, ["users", x], converts);
      (converts(UserIdArg, x) ==> r == Some(2) && t[2] == UserIdEndpoint())
      && (!converts(UserIdArg, x) ==> r == None)
  {
    FrontUsers(x, converts);
    if converts(UserIdArg, x) {
      GetFront(m, ["users", x], converts);
    } else {
      ExtraMissPairs(["users", x], converts);
      GetBack(m, ["users", x], converts);
    }
  }

  lemma DebugEnds(converts: (CaptureType, string) -> bool)
    ensures FirstMatch(FrontGet(), ["debug"], converts) == None
    ensures FirstMatch(ExtraGet(), ["debug"], converts) == Some(3)
  {
    var args := ["debug"];
    var front := FrontGet();
    var back := ExtraGet();
    forall j | 0 <= j < 3 ensures !Verify(front[j], args, converts) {
      assert |front[j].markers| == 2;
    }
    assert !Verify(back[0], args, converts) by { assert back[0].markers[0] != args[0]; }
    assert !Verify(back[1], args, converts) by { assert |back[1].markers| == 4; }
    assert !Verify(back[2], args, converts) by { assert back[2].markers[0] != args[0]; }
    assert Verify(back[3], args, converts);
  }

  /** `GET /debug` reaches the endpoint registered with both handlers, the
      last GET endpoint. */
  lemma {:induction false} DebugRoute(m: Method, converts: (CaptureType, string) -> bool)
    requires m == GET
    ensures var t := RouteTable(m);
      |t| > 0 && FirstMatch(t, ["debug"], converts) == Some(|t| - 1) && t[|t| - 1] == DebugEndpoint()
  {
    DebugEnds(converts);
    GetBack(m, ["debug"], converts);
  }

  /** A GET that the first two sections do not verify, with a first
      segment none of the middle's literals, is decided by the extras. */
  lemma GetBack(m: Method, args: seq<string>, converts: (CaptureType, string) -> bool)
    requires m == GET && |args| > 0 && args[0] !in MiddleLiterals()
    requires FirstMatch(FrontGet(), args, converts) == None
    ensures var t := RouteTable(m);
      var b := FirstMatch(ExtraGet(), args, converts);
      |t| >= 4
      && FirstMatch(t, args, converts) == (if b.None? then None else Some(|t| - 4 + b.value))
      && (b.Some? ==> t[|t| - 4 + b.value] == ExtraGet()[b.value])
  {
    GetTable(m);
    MiddleNone(m, args, converts);
    BackMatch(RouteTable(m), FrontGet(), EndpointsOf(MiddleRoutes(), m), ExtraGet(), args, converts);
  }

  function ModifyUserEndpoint(): Endpoint {
    Endpoint(["users", ""], [UserIdArg], None, None, Some(Stub(ModifyUser, [UserIdArg])))
  }

  lemma PatchEnds(m: Method)
    requires m == PATCH
    ensures EndpointsOf(FrontRoutes(), m) == [ModifyUserEndpoint()]
    ensures EndpointsOf(ExtraRoutes(), m) == []
  {
  }

  /** The PATCH table: the "Modify user" route, then the middle. */
  lemma PatchTable(m: Method)
    requires m == PATCH
    ensures RouteTable(m) == [ModifyUserEndpoint()] + EndpointsOf(MiddleRoutes(), m) + []
  {
    PatchEnds(m);
    EndpointsOfAppend(FrontRoutes(), MiddleRoutes(), m);
    EndpointsOfAppend(FrontRoutes() + MiddleRoutes(), ExtraRoutes(), m);
  }

  lemma ModifyUserMatch(x: string, converts: (CaptureType, string) -> bool)
    ensures FirstMatch([ModifyUserEndpoint()], ["users", x], converts)
      == if converts(UserIdArg, x) then Some(0) else None
  {
    assert Captures(ModifyUserEndpoint().markers, ["users", x]) == [x];
  }

  /** `PATCH /users/{x}` reaches the empty-bodied "Modify user" handler
      when `x` converts to a user id, and no endpoint otherwise. */
  lemma {:induction false} PatchUserRoute(m: Method, x: string, converts: (CaptureType, string) -> bool)
    requires m == PATCH
    ensures var t := RouteTable(m);
      var r := FirstMatch(t, ["users", x], converts);
      |t| > 0 && t[0] == ModifyUserEndpoint()
      && r == if converts(UserIdArg, x) then Some(0) else None
  {
    var args := ["users", x];
    PatchTable(m);
    MiddleNone(m, args, converts);
    var mid := EndpointsOf(MiddleRoutes(), m);
    ModifyUserMatch(x, converts);
    TableMatch(RouteTable(m), [ModifyUserEndpoint()], mid, [], args, converts);
    assert RouteTable(m)[0] == ([ModifyUserEndpoint()] + mid + [])[0];
  }

  // ---------------------------------------------------------------------
  // What the registered table answers.

  /** The reply of an authenticated handler, or the exception's. */
  function Friendly(rep: Reply, env: Env): Reply {
    if env.raises.Some? then ErrorReply(env.raises.value) else rep
  }

  /** A handler's result as the response it leads to. */
  function Answered(r: Result<Reply, string>): Reply {
    match r
    case Success(rep) => rep
    case Failure(msg) => ErrorReply(msg)
  }

  /** Dispatch to a known endpoint. */
  lemma DispatchAt(eps: seq<Endpoint>, k: nat, req: HttpRequest, body: Json, args: seq<string>, env: Env)
    requires forall i :: 0 <= i < |eps| ==> WellFormed(eps[i])
    requires req.verb != INVALID && FirstMatch(eps, args, env.converts) == Some(k)
    ensures k < |eps| && |Captures(eps[k].markers, args)| == |eps[k].captures|
    ensures DispatchReply(eps, req, body, args, env)
      == Answered(EndpointReply(eps[k], GetSession(req, env), Captures(eps[k].markers, args), body, req, env))
  {
  }

  lemma DebugAnswer(sess: Option<SessionId>, body: Json, req: HttpRequest, env: Env)
    ensures Answered(EndpointReply(DebugEndpoint(), sess, [], body, req, env))
      == match sess
         case None => Friendly(JsonReply(DebugOutsiderJson(body)), env)
         case Some(s) => Friendly(JsonReply(DebugFriendJson(body, env.sessionJson(s))), env)
  {
  }

  lemma ModifyUserAnswer(sess: Option<SessionId>, x: string, body: Json, req: HttpRequest, env: Env)
    ensures Answered(EndpointReply(ModifyUserEndpoint(), sess, [x], body, req, env))
      == match sess
         case None => StatusReply("401 Unauthorized")
         case Some(s) => Friendly(Reply([], Dropped), env)
  {
  }

  lemma LookupUserAnswer(sess: Option<SessionId>, x: string, body: Json, req: HttpRequest, env: Env)
    ensures Answered(EndpointReply(UserIdEndpoint(), sess, [x], body, req, env))
      == match sess
         case None => StatusReply("401 Unauthorized")
         case Some(s) => Friendly(Reply([], AwaitingUser(env.userIdOf(x))), env)
  {
  }

  /** `GET /users/@me`: the session's user, and `401 Unauthorized`
      without a session. */
  lemma MeDispatch(req: HttpRequest, body: Json, env: Env)
    requires req.verb == GET
    ensures DispatchReply(RouteTable(req.verb), req, body, ["users", "@me"], env)
      == match GetSession(req, env)
         case None => StatusReply("401 Unauthorized")
         case Some(s) => Friendly(JsonReply(env.userJson(s)), env)
  {
    MePriority(req.verb, env.converts);
  }

  /** `GET /users/{x}`: `501 Not Implemented` unless `x` converts to a
      user id; then `401 Unauthorized` without a session, and with one the
      request waits for that user. */
  lemma UserDispatch(x: string, req: HttpRequest, body: Json, env: Env)
    requires req.verb == GET && x != "@me"
    ensures DispatchReply(RouteTable(req.verb), req, body, ["users", x], env)
      == if !env.converts(UserIdArg, x) then StatusReply("501 Not Implemented")
         else match GetSession(req, env)
           case None => StatusReply("401 Unauthorized")
           case Some(s) => Friendly(Reply([], AwaitingUser(env.userIdOf(x))), env)
  {
    var t := RouteTable(req.verb);
    UserLookupRoute(req.verb, x, env.converts);
    if env.converts(UserIdArg, x) {
      DispatchAt(t, 2, req, body, ["users", x], env);
      assert Captures(UserIdEndpoint().markers, ["users", x]) == [x];
      LookupUserAnswer(GetSession(req, env), x, body, req, env);
    }
  }

  /** `GET /debug` runs the outsider handler without a session and the
      friend handler with one. */
  lemma DebugDispatch(req: HttpRequest, body: Json, env: Env)
    requires req.verb == GET
    ensures DispatchReply(RouteTable(req.verb), req, body, ["debug"], env)
      == match GetSession(req, env)
         case None => Friendly(JsonReply(DebugOutsiderJson(body)), env)
         case Some(s) => Friendly(JsonReply(DebugFriendJson(body, env.sessionJson(s))), env)
  {
    var t := RouteTable(req.verb);
    DebugRoute(req.verb, env.converts);
    DispatchAt(t, |t| - 1, req, body, ["debug"], env);
    assert Captures(DebugEndpoint().markers, ["debug"]) == [];
    DebugAnswer(GetSession(req, env), body, req, env);
  }

  /** `PATCH /users/{x}` with a session is accepted and never answered;
      without one it gets `401 Unauthorized`. */
  lemma PatchDispatch(x: string, req: HttpRequest, body: Json, env: Env)
    requires req.verb == PATCH && env.converts(UserIdArg, x)
    ensures DispatchReply(RouteTable(req.verb), req, body, ["users", x], env)
      == match GetSession(req, env)
         case None => StatusReply("401 Unauthorized")
         case Some(s) => Friendly(Reply([], Dropped), env)
  {
    PatchUserRoute(req.verb, x, env.converts);
    DispatchAt(RouteTable(req.verb), 0, req, body, ["users", x], env);
    assert Captures(ModifyUserEndpoint().markers, ["users", x]) == [x];
    ModifyUserAnswer(GetSession(req, env), x, body, req, env);
  }

  /** `GET /auth/guest` is the first GET route. */
  lemma {:induction false} GuestRoute(m: Method, converts: (CaptureType, string) -> bool)
    requires m == GET
    ensures var t := RouteTable(m);
      FirstMatch(t, ["auth", "guest"], converts) == Some(0) && t[0] == GuestEndpoint()
  {
    assert Verify(FrontGet()[0], ["auth", "guest"], converts);
    GetFront(m, ["auth", "guest"], converts);
  }

  /** `GET /auth/guest`, with a session or without one (the authenticated
      call falls back to the outsider handler): the account manager is
      asked for a guest session for the caller's address, user agent (empty
      without the header) and language code, and nothing is written yet. */
  lemma GuestDispatch(req: HttpRequest, body: Json, env: Env)
    requires req.verb == GET
    ensures DispatchReply(RouteTable(req.verb), req, body, ["auth", "guest"], env)
      == Friendly(Reply([], AwaitingGuestSession(req.ip, req.Header("user-agent").GetOr([]),
                                                 PreferredLanguage(req.Header("accept-language")))), env)
  {
    GuestRoute(req.verb, env.converts);
    DispatchAt(RouteTable(req.verb), 0, req, body, ["auth", "guest"], env);
    assert Captures(GuestEndpoint().markers, ["auth", "guest"]) == [];
  }

  lemma HeadFirst(a: seq<Route>, b: seq<Route>)
    requires |a| > 0
    ensures |a + b| > 0 && (a + b)[0] == a[0]
  {
  }

  /** A route of method `m` at the head of a list, verifying `args`, is
      the first match among that list's endpoints. */
  lemma HeadMatch(routes: seq<Route>, m: Method, args: seq<string>, converts: (CaptureType, string) -> bool)
    requires |routes| > 0 && routes[0].verb == m && Verify(RouteEndpoint(routes[0]), args, converts)
    ensures var eps := EndpointsOf(routes, m);
      |eps| > 0 && eps[0] == RouteEndpoint(routes[0]) && FirstMatch(eps, args, converts) == Some(0)
  {
    var rest := EndpointsOf(routes[1..], m);
    assert EndpointsOf(routes, m) == [RouteEndpoint(routes[0])] + rest;
    FirstMatchAppend([RouteEndpoint(routes[0])], rest, args, converts);
  }

  /** The middle sections open with "Get world". */
  lemma MiddleFirst()
    ensures |MiddleRoutes()| > 0 && MiddleRoutes()[0] == Route(GET, ["worlds", ""], Friend(GetWorld))
  {
    var w := WorldRoutes();
    HeadFirst(w, WorldRoleRoutes());
    HeadFirst(w + WorldRoleRoutes(), ChatRoutes());
    HeadFirst(w + WorldRoleRoutes() + ChatRoutes(), EmoteRoutes());
  }

  /** With nothing in `front` verifying, a match at `k` in `mid` is the
      table's match, whatever follows. */
  lemma MidMatch(front: seq<Endpoint>, mid: seq<Endpoint>, back: seq<Endpoint>, k: nat,
                 args: seq<string>, converts: (CaptureType, string) -> bool)
    requires FirstMatch(front, args, converts) == None && FirstMatch(mid, args, converts) == Some(k)
    ensures var t := front + mid + back;
      FirstMatch(t, args, converts) == Some(|front| + k) && t[|front| + k] == mid[k]
  {
    FirstMatchAfter(front, mid, args, converts);
    FirstMatchAppend(front + mid, back, args, converts);
  }

  lemma WorldFront(x: string, converts: (CaptureType, string) -> bool)
    ensures FirstMatch(FrontGet(), ["worlds", x], converts) == None
  {
    var front := FrontGet();
    forall j | 0 <= j < 3 ensures !Verify(front[j], ["worlds", x], converts) {
      assert front[j].markers[0] != "worlds";
    }
  }

  /** The GET endpoints of the middle open with "Get world". */
  lemma MiddleWorld(m: Method, x: string, converts: (CaptureType, string) -> bool)
    requires m == GET && converts(StringArg, x)
    ensures var mid := EndpointsOf(MiddleRoutes(), m);
      FirstMatch(mid, ["worlds", x], converts) == Some(0) && mid[0] == WorldEndpoint()
  {
    MiddleFirst();
    assert Captures(WorldEndpoint().markers, ["worlds", x]) == [x];
    HeadMatch(MiddleRoutes(), m, ["worlds", x], converts);
  }

  /** `GET /worlds/{name}` reaches "Get world", the first endpoint after
      the first two sections. */
  lemma {:induction false} WorldRoute(m: Method, x: string, converts: (CaptureType, string) -> bool)
    requires m == GET && converts(StringArg, x)
    ensures var t := RouteTable(m);
      FirstMatch(t, ["worlds", x], converts) == Some(3) && t[3] == WorldEndpoint()
  {
    GetTable(m);
    WorldFront(x, converts);
    MiddleWorld(m, x, converts);
    MidMatch(FrontGet(), EndpointsOf(MiddleRoutes(), m), ExtraGet(), 0, ["worlds", x], converts);
  }

  /** `GET /worlds/{name}`: `401 Unauthorized` without a session; with one,
      the world's JSON or `404 Not Found`, as `WorldReply` decides. */
  lemma WorldDispatch(x: string, req: HttpRequest, body: Json, env: Env)
    requires req.verb == GET && env.converts(StringArg, x)
    ensures DispatchReply(RouteTable(req.verb), req, body, ["worlds", x], env)
      == match GetSession(req, env)
         case None => StatusReply("401 Unauthorized")
         case Some(s) => Friendly(WorldReply(x, env), env)
  {
    WorldRoute(req.verb, x, env.converts);
    DispatchAt(RouteTable(req.verb), 3, req, body, ["worlds", x], env);
    assert Captures(WorldEndpoint().markers, ["worlds", x]) == [x];
    WorldAnswer(GetSession(req, env), x, body, req, env);
  }

  lemma WorldAnswer(sess: Option<SessionId>, x: string, body: Json, req: HttpRequest, env: Env)
    ensures Answered(EndpointReply(WorldEndpoint(), sess, [x], body, req, env))
      == match sess
         case None => StatusReply("401 Unauthorized")
         case Some(s) => Friendly(WorldReply(x, env), env)
  {
  }

  lemma ViewCaptures(w: string, x: string, y: string)
    ensures Captures(ViewEndpoint().markers, ["view", w, x, y]) == [w, x, y]
  {
    assert Captures([""], [y]) == [y];
    assert Captures(["", ""], [x, y]) == [x] + Captures([""], [y]);
    assert Captures(["", "", ""], [w, x, y]) == [w] + Captures(["", ""], [x, y]);
    assert Captures(["view", "", "", ""], ["view", w, x, y]) == Captures(["", "", ""], [w, x, y]);
  }

  lemma ViewEnds(w: string, x: string, y: string, converts: (CaptureType, string) -> bool)
    ensures var args := ["view", w, x, y];
      FirstMatch(FrontGet(), args, converts) == None
      && FirstMatch(ExtraGet(), args, converts)
         == if converts(StringArg, w) && converts(I32Arg, x) && converts(I32Arg, y) then Some(1) else None
  {
    var args := ["view", w, x, y];
    var front, back := FrontGet(), ExtraGet();
    forall j | 0 <= j < 3 ensures !Verify(front[j], args, converts) {
      assert |front[j].markers| == 2;
    }
    assert !Verify(back[0], args, converts) by { assert |back[0].markers| == 1; }
    assert !Verify(back[2], args, converts) by { assert |back[2].markers| == 1; }
    assert !Verify(back[3], args, converts) by { assert |back[3].markers| == 1; }
    ViewCaptures(w, x, y);
    if converts(StringArg, w) && converts(I32Arg, x) && converts(I32Arg, y) {
      assert Verify(back[1], args, converts);
    } else {
      var ep, caps := back[1], [w, x, y];
      assert ep.captures == [StringArg, I32Arg, I32Arg];
      assert !(converts(ep.captures[0], caps[0]) && converts(ep.captures[1], caps[1])
               && converts(ep.captures[2], caps[2]));
    }
  }

  /** `GET /view/{w}/{x}/{y}` reaches the chunk route when its three
      captures convert, and no endpoint otherwise. */
  lemma {:induction false} ViewRoute(m: Method, w: string, x: string, y: string, converts: (CaptureType, string) -> bool)
    requires m == GET
    ensures var t := RouteTable(m);
      var r := FirstMatch(t, ["view", w, x, y], converts);
      var ok := converts(StringArg, w) && converts(I32Arg, x) && converts(I32Arg, y);
      |t| >= 3 && (ok ==> r == Some(|t| - 3) && t[|t| - 3] == ViewEndpoint()) && (!ok ==> r == None)
  {
    ViewEnds(w, x, y, converts);
    GetBack(m, ["view", w, x, y], converts);
  }

  /** `GET /view/{w}/{x}/{y}` with captures that do not all convert:
      `501 Not Implemented`. */
  lemma ViewMiss(w: string, x: string, y: string, req: HttpRequest, body: Json, env: Env)
    requires req.verb == GET
    requires !(env.converts(StringArg, w) && env.converts(I32Arg, x) && env.converts(I32Arg, y))
    ensures DispatchReply(RouteTable(req.verb), req, body, ["view", w, x, y], env)
      == StatusReply("501 Not Implemented")
  {
    ViewRoute(req.verb, w, x, y, env.converts);
  }

  /** `GET /view/{w}/{x}/{y}` with converting captures: `401 Unauthorized`
      without a session, and with one the 400/404/hand-over decision of
      `ViewReply`. */
  lemma ViewDispatch(w: string, x: string, y: string, req: HttpRequest, body: Json, env: Env)
    requires req.verb == GET
    requires env.converts(StringArg, w) && env.converts(I32Arg, x) && env.converts(I32Arg, y)
    ensures DispatchReply(RouteTable(req.verb), req, body, ["view", w, x, y], env)
      == match GetSession(req, env)
         case None => StatusReply("401 Unauthorized")
         case Some(s) => Friendly(ViewReply(w, env.intOf(x), env.intOf(y), env), env)
  {
    var t := RouteTable(req.verb);
    ViewRoute(req.verb, w, x, y, env.converts);
    DispatchAt(t, |t| - 3, req, body, ["view", w, x, y], env);
    ViewCaptures(w, x, y);
    ViewAnswer(GetSession(req, env), w, x, y, body, req, env);
  }

  lemma ViewAnswer(sess: Option<SessionId>, w: string, x: string, y: string, body: Json, req: HttpRequest, env: Env)
    ensures Answered(EndpointReply(ViewEndpoint(), sess, [w, x, y], body, req, env))
      == match sess
         case None => StatusReply("401 Unauthorized")
         case Some(s) => Friendly(ViewReply(w, env.intOf(x), env.intOf(y), env), env)
  {
  }
}
