/** Dispatch in src/ApiProcessor.cpp: the per-method endpoint lists, the
    first-match search of `exec`, the session lookup of `getSession`, the
    two `Endpoint::exec` defaults and the `TemplatedEndpointBuilder`. */
module Dispatch {
  import opened Wrappers
  import opened Text
  import opened Wire
  import opened Json
  import opened Exchange
  import opened Collaborators
  import opened Handlers

  /** A registered endpoint: its path pattern as the builder collected it
      (a literal, or "" where `var()` was called), the types its captures
      convert to, and its handlers. `outsiderFlag` is the boolean passed to
      `onOutsider`, recorded and never consulted. */
  datatype Endpoint = Endpoint(
    markers: seq<string>,
    captures: seq<CaptureType>,
    outsiderFlag: Option<bool>,
    outsider: Option<OutsiderHandler>,
    friend: Option<FriendHandler>)

  /** The number of `var()` markers of a pattern. */
  function VarCount(markers: seq<string>): nat {
    if markers == [] then 0 else (if |markers[0]| == 0 then 1 else 0) + VarCount(markers[1..])
  }

  /** What the C++ templates guarantee of every endpoint they build: one
      capture per `var()`, the friend handler's parameters are the capture
      types, outsider handlers take no capture, and at least one handler. */
  predicate WellFormed(ep: Endpoint) {
    |ep.captures| == VarCount(ep.markers)
    && (ep.friend.Some? ==> Signature(ep.friend.value) == ep.captures)
    && (ep.outsider.Some? ==> ep.captures == [])
    && (ep.outsiderFlag.Some? ==> ep.outsider.Some?)
    && (ep.outsider.Some? || ep.friend.Some?)
  }

  /** The path segments have the pattern's shape: as many, and each literal
      matched exactly. */
  predicate Matches(markers: seq<string>, args: seq<string>) {
    |markers| == |args| && forall i :: 0 <= i < |args| && |markers[i]| != 0 ==> args[i] == markers[i]
  }

  /** The segments at the `var()` positions, in order: the segment at a
      `var()` position is the capture numbered by the `var()`s before it. */
  function Captures(markers: seq<string>, args: seq<string>): (caps: seq<string>)
    requires |markers| == |args|
    ensures |caps| == VarCount(markers)
    ensures forall i :: 0 <= i < |markers| && |markers[i]| == 0 ==>
      VarCount(markers[..i]) < |caps| && caps[VarCount(markers[..i])] == args[i]
  {
    if markers == [] then []
    else
      var head := if |markers[0]| == 0 then [args[0]] else [];
      var caps := head + Captures(markers[1..], args[1..]);
      assert forall i :: 1 <= i <= |markers| ==> markers[..i][1..] == markers[1..][..i - 1];
      assert forall i :: 1 <= i <= |markers| ==> VarCount(markers[..i]) == |head| + VarCount(markers[1..][..i - 1]);
      caps
  }

  /** `ep->verify(args)`: the shape matches and every capture converts. */
  predicate Verify(ep: Endpoint, args: seq<string>, converts: (CaptureType, string) -> bool) {
    Matches(ep.markers, args)
    && var caps := Captures(ep.markers, args);
    |ep.captures| == |caps|
    && forall k :: 0 <= k < |caps| ==> converts(ep.captures[k], caps[k])
  }

  /** The first endpoint from `from` on whose `verify` passes. */
  function FirstMatchFrom(eps: seq<Endpoint>, args: seq<string>, converts: (CaptureType, string) -> bool, from: nat)
    : (r: Option<nat>)
    requires from <= |eps|
    ensures r.Some? ==> from <= r.value < |eps| && Verify(eps[r.value], args, converts)
    ensures r.Some? ==> forall j :: from <= j < r.value ==> !Verify(eps[j], args, converts)
    ensures r.None? ==> forall j :: from <= j < |eps| ==> !Verify(eps[j], args, converts)
    decreases |eps| - from
  {
    if from == |eps| then None
    else if Verify(eps[from], args, converts) then Some(from)
    else FirstMatchFrom(eps, args, converts, from + 1)
  }

  /** The endpoint `exec` runs: the first in registration order that verifies. */
  function FirstMatch(eps: seq<Endpoint>, args: seq<string>, converts: (CaptureType, string) -> bool)
    : (r: Option<nat>)
    ensures r.Some? ==> r.value < |eps| && Verify(eps[r.value], args, converts)
    ensures r.Some? ==> forall j :: 0 <= j < r.value ==> !Verify(eps[j], args, converts)
    ensures r.None? ==> forall j :: 0 <= j < |eps| ==> !Verify(eps[j], args, converts)
  {
    FirstMatchFrom(eps, args, converts, 0)
  }

  // ---------------------------------------------------------------------
  // getSession

  /** The token of an Authorization header: whatever follows the first
      occurrence of "owop ", wherever it occurs. */
  function SessionToken(auth: Option<string>): Option<string> {
    match auth
    case None => None
    case Some(a) =>
      match Find(a, "owop ")
      case None => None
      case Some(i) => Some(a[i + 5..])
  }

  function GetSession(req: HttpRequest, env: Env): Option<SessionId> {
    match SessionToken(req.Header("Authorization"))
    case None => None
    case Some(t) => env.lookupSession(t)
  }

  // ---------------------------------------------------------------------
  // Endpoint::exec

  /** A handler's reply, or the message of the exception it throws. */
  function Guarded(rep: Reply, env: Env): Result<Reply, string> {
    if env.raises.Some? then Failure(env.raises.value) else Success(rep)
  }

  /** The unauthenticated overload: the outsider handler, or by default
      `401 Unauthorized`. */
  function Unauthenticated(ep: Endpoint, body: Json, req: HttpRequest, env: Env): Result<Reply, string> {
    if ep.outsider.Some? then Guarded(OutsiderReply(ep.outsider.value, body, req, env), env)
    else Success(StatusReply("401 Unauthorized"))
  }

  /** Which overload `exec` picks, and what it does: with a session the
      authenticated overload (by default the unauthenticated one), without
      a session the unauthenticated overload. */
  function EndpointReply(ep: Endpoint, sess: Option<SessionId>, caps: seq<string>, body: Json,
                         req: HttpRequest, env: Env): Result<Reply, string>
    requires WellFormed(ep) && |caps| == |ep.captures|
  {
    match sess
    case Some(s) =>
      if ep.friend.Some? then Guarded(FriendReply(ep.friend.value, s, caps, body, env), env)
      else Unauthenticated(ep, body, req, env)
    case None => Unauthenticated(ep, body, req, env)
  }

  function ReasonJson(msg: string): Json {
    Obj([("reason", Str(msg))])
  }

  /** The answer to an exception: `400 Bad Request` and the reason. */
  function ErrorReply(msg: string): Reply {
    Reply([WriteStatusCall("400 Bad Request"), EndJsonCall(ReasonJson(msg))], Finished)
  }

  /** What `exec` does with a request whose method's endpoints are `eps`. */
  function DispatchReply(eps: seq<Endpoint>, req: HttpRequest, body: Json, args: seq<string>, env: Env): Reply
    requires forall i :: 0 <= i < |eps| ==> WellFormed(eps[i])
  {
    if req.verb == INVALID then StatusReply("400 Bad Request")
    else
      match FirstMatch(eps, args, env.converts)
      case None => StatusReply("501 Not Implemented")
      case Some(k) =>
        match EndpointReply(eps[k], GetSession(req, env), Captures(eps[k].markers, args), body, req, env)
        case Success(rep) => rep
        case Failure(msg) => ErrorReply(msg)
  }

  // ---------------------------------------------------------------------
  // Properties of dispatch.

  /** Only the first endpoint that verifies matters: endpoints registered
      after it are never tried. */
  lemma FirstMatchAppend(eps: seq<Endpoint>, later: seq<Endpoint>, args: seq<string>,
                         converts: (CaptureType, string) -> bool)
    requires FirstMatch(eps, args, converts).Some?
    ensures FirstMatch(eps + later, args, converts) == FirstMatch(eps, args, converts)
  {
    var k := FirstMatch(eps, args, converts).value;
    assert (eps + later)[k] == eps[k];
    assert forall j :: 0 <= j < k ==> (eps + later)[j] == eps[j];
  }

  /** Endpoints registered before that all fail to verify change nothing
      but the position. */
  lemma FirstMatchAfter(eps: seq<Endpoint>, later: seq<Endpoint>, args: seq<string>,
                        converts: (CaptureType, string) -> bool)
    requires FirstMatch(eps, args, converts).None?
    ensures var r := FirstMatch(later, args, converts);
      FirstMatch(eps + later, args, converts)
      == if r.None? then None else Some(|eps| + r.value)
  {
    var all := eps + later;
    var r := FirstMatch(later, args, converts);
    var q := FirstMatch(all, args, converts);
    assert forall j :: 0 <= j < |later| ==> all[|eps| + j] == later[j];
    assert forall j :: 0 <= j < |eps| ==> all[j] == eps[j];
    if q.Some? {
      assert q.value >= |eps|;
      assert Verify(later[q.value - |eps|], args, converts);
    }
  }

  /** Dispatch: the INVALID method is answered 400; otherwise a request no
      endpoint verifies is answered 501; otherwise the first endpoint that
      verifies answers, and appending endpoints changes nothing. */
  lemma DispatchFirstWins(eps: seq<Endpoint>, later: seq<Endpoint>, req: HttpRequest, body: Json,
                          args: seq<string>, env: Env)
    requires forall i :: 0 <= i < |eps| ==> WellFormed(eps[i])
    requires forall i :: 0 <= i < |later| ==> WellFormed(later[i])
    ensures forall i :: 0 <= i < |eps + later| ==> WellFormed((eps + later)[i])
    ensures req.verb == INVALID ==> DispatchReply(eps, req, body, args, env) == StatusReply("400 Bad Request")
    ensures req.verb != INVALID && FirstMatch(eps, args, env.converts).None? && FirstMatch(later, args, env.converts).None? ==>
      DispatchReply(eps + later, req, body, args, env) == StatusReply("501 Not Implemented")
    ensures FirstMatch(eps, args, env.converts).Some? ==>
      DispatchReply(eps + later, req, body, args, env) == DispatchReply(eps, req, body, args, env)
  {
    assert forall i :: 0 <= i < |eps + later| ==> WellFormed((eps + later)[i]) by {
      forall i | 0 <= i < |eps + later| ensures WellFormed((eps + later)[i]) {
        if i < |eps| { assert (eps + later)[i] == eps[i]; } else { assert (eps + later)[i] == later[i - |eps|]; }
      }
    }
    if FirstMatch(eps, args, env.converts).Some? {
      FirstMatchAppend(eps, later, args, env.converts);
      var k := FirstMatch(eps, args, env.converts).value;
      assert (eps + later)[k] == eps[k];
    } else if FirstMatch(later, args, env.converts).None? {
      FirstMatchAfter(eps, later, args, env.converts);
    }
  }

  /** The access-tier fallback: with a session but no authenticated
      overload an endpoint does exactly what it does without a session, and
      without an outsider handler that is `401 Unauthorized`. */
  lemma TierFallback(ep: Endpoint, s: SessionId, caps: seq<string>, body: Json, req: HttpRequest, env: Env)
    requires WellFormed(ep) && |caps| == |ep.captures|
    ensures ep.friend.None? ==>
      EndpointReply(ep, Some(s), caps, body, req, env) == EndpointReply(ep, None, caps, body, req, env)
    ensures ep.outsider.None? ==>
      EndpointReply(ep, None, caps, body, req, env) == Success(StatusReply("401 Unauthorized"))
    ensures ep.friend.Some? && env.raises.None? ==>
      EndpointReply(ep, Some(s), caps, body, req, env) == Success(FriendReply(ep.friend.value, s, caps, body, env))
  {
  }

  /** An exception escaping a handler is answered `400 Bad Request` with a
      JSON body `{"reason": msg}`; a reader finds that status, the JSON
      content type and the length of the dumped reason. */
  lemma ExceptionResponse(st: ExchangeState, msg: string, dump: Json -> string)
    requires st.live && st.buffered == []
    ensures var after := st.Run(ErrorReply(msg).plan, dump);
      var text := dump(ReasonJson(msg));
      |after.sent| == |st.sent| + 1
      && after.sent[|st.sent|].hasHead
      && ReadMessage(after.sent[|st.sent|].bytes) == Some(Message(
           [StatusLine("400 Bad Request"), HeaderLine("Content-Type", "application/json"), LengthLine(text)], text))
  {
    assert LineOk(StatusLine("400 Bad Request"));
    StatusJsonRun(st, "400 Bad Request", ReasonJson(msg), dump);
  }

  /** getSession finds no session without an Authorization header, or when
      the header has no "owop " in it. */
  lemma NoToken(auth: Option<string>)
    requires auth.Some? ==> forall i :: 0 <= i <= |auth.value| ==> !OccursAt(auth.value, "owop ", i)
    ensures SessionToken(auth) == None
  {
  }

  /** Otherwise the token is what follows the first "owop ". */
  lemma TokenAfterFirst(auth: string, i: nat)
    requires OccursAt(auth, "owop ", i)
    requires forall j :: 0 <= j < i ==> !OccursAt(auth, "owop ", j)
    ensures SessionToken(Some(auth)) == Some(auth[i + 5..])
  {
    var f := Find(auth, "owop ");
    assert f.Some?;
  }

  /** "owop " is searched for, not required as a prefix: an "owop " after
      other text still gives the token that follows it. */
  lemma TokenNotPrefix(auth: string)
    requires auth == "Bearer owop abc"
    ensures SessionToken(Some(auth)) == Some("abc")
  {
    forall j | 0 <= j < 7 ensures !OccursAt(auth, "owop ", j) {
      assert auth[j..j + 5][0] == auth[j] != 'o';
    }
    assert auth[7..12] == "owop ";
    TokenAfterFirst(auth, 7);
    assert auth[12..] == "abc";
  }

  // ---------------------------------------------------------------------
  // The processor.

  /** The endpoints a table holds for `m`; none when `m` has no entry. */
  function EndpointsIn(t: map<Method, seq<Endpoint>>, m: Method): seq<Endpoint> {
    if m in t then t[m] else []
  }

  class ApiProcessor {
    /** `definedEndpoints[m]`: the endpoints of method m, in registration order. */
    var definedEndpoints: map<Method, seq<Endpoint>>

    function Endpoints(m: Method): seq<Endpoint>
      reads this
    {
      EndpointsIn(definedEndpoints, m)
    }

    predicate Valid()
      reads this
    {
      forall m, i :: m in definedEndpoints && 0 <= i < |definedEndpoints[m]| ==> WellFormed(definedEndpoints[m][i])
    }

    constructor ()
      ensures definedEndpoints == map[] && Valid()
    {
      definedEndpoints := map[];
    }

    /** `add(m, ep)`: append `ep` to the endpoints of `m`, leave the others. */
    method Add(m: Method, ep: Endpoint)
      requires Valid() && WellFormed(ep)
      modifies this
      ensures Valid()
      ensures definedEndpoints == old(definedEndpoints)[m := old(Endpoints(m)) + [ep]]
    {
      definedEndpoints := definedEndpoints[m := Endpoints(m) + [ep]];
      assert forall i :: 0 <= i < |Endpoints(m)| ==> WellFormed(Endpoints(m)[i]) by {
        forall i | 0 <= i < |Endpoints(m)| ensures WellFormed(Endpoints(m)[i]) {
          if i < |old(Endpoints(m))| { assert Endpoints(m)[i] == old(Endpoints(m))[i]; }
        }
      }
    }

    /** `exec(r, j, args)`: the calls it makes on `r` and who holds `r`
        afterwards are those `DispatchReply` gives. */
    method Exec(r: Request, j: Json, args: seq<string>, env: Env) returns (outcome: Outcome)
      requires Valid() && r.live && r.data.Some?
      modifies r
      ensures r.data == old(r.data)
      ensures var rep := DispatchReply(Endpoints(old(r.data).value.verb), old(r.data).value, j, args, env);
        r.State() == old(r.State()).Run(rep.plan, env.dump) && outcome == rep.outcome
    {
      var req := r.data.value;
      var eps := Endpoints(req.verb);
      assert forall i :: 0 <= i < |eps| ==> WellFormed(eps[i]);
      ghost var want := DispatchReply(eps, req, j, args, env);
      if req.verb == INVALID {
        // writeStatus("400 Bad Request"), end()
        r.Perform(StatusReply("400 Bad Request").plan, env.dump);
        return Finished;
      }
      var sess := GetSession(req, env);
      var found := Search(eps, args, env.converts);
      match found {
        case None =>
          assert want == StatusReply("501 Not Implemented");
          // writeStatus("501 Not Implemented"), end()
          r.Perform(StatusReply("501 Not Implemented").plan, env.dump);
          outcome := Finished;
        case Some(i) =>
          var caps := Captures(eps[i].markers, args);
          match EndpointReply(eps[i], sess, caps, j, req, env) {
            case Success(rep) =>
              assert want == rep;
              r.Perform(rep.plan, env.dump);
              outcome := rep.outcome;
            case Failure(msg) =>
              assert want == ErrorReply(msg);
              // writeStatus("400 Bad Request"), end({"reason": msg})
              r.Perform(ErrorReply(msg).plan, env.dump);
              outcome := Finished;
          }
      }
    }
  }

  /** The loop of `exec` over the endpoints of a method: the position of the
      first endpoint whose `verify` passes. */
  method Search(eps: seq<Endpoint>, args: seq<string>, converts: (CaptureType, string) -> bool)
    returns (found: Option<nat>)
    ensures found == FirstMatch(eps, args, converts)
  {
    var i := 0;
    while i < |eps|
      invariant 0 <= i <= |eps|
      invariant forall k :: 0 <= k < i ==> !Verify(eps[k], args, converts)
    {
      if Verify(eps[i], args, converts) {
        return Some(i);
      }
      i := i + 1;
    }
    return None;
  }

  // ---------------------------------------------------------------------
  // The builder.

  class TemplatedEndpointBuilder {
    const targetClass: ApiProcessor
    const verb: Method
    /** The pattern so far: literals, and "" for each `var()`. */
    var varMarkers: seq<string>

    constructor (tc: ApiProcessor, m: Method)
      ensures targetClass == tc && verb == m && varMarkers == []
    {
      targetClass := tc;
      verb := m;
      varMarkers := [];
    }

    /** `path(s)`: append the literal `s`; an empty literal is refused. */
    method Path(s: string) returns (r: Result<(), string>)
      modifies this
      ensures s == [] ==> r == Failure("Path sections can't be empty!") && varMarkers == old(varMarkers)
      ensures s != [] ==> r == Success(()) && varMarkers == old(varMarkers) + [s]
    {
      if s == [] {
        return Failure("Path sections can't be empty!");
      }
      varMarkers := varMarkers + [s];
      return Success(());
    }

    /** `var()`: append the variable marker "". */
    method Var()
      modifies this
      ensures varMarkers == old(varMarkers) + [""]
    {
      varMarkers := varMarkers + [""];
    }

    /** `onFriend(f)`: register the pattern with an authenticated handler. */
    method OnFriend(f: FriendHandler)
      requires targetClass.Valid() && |Signature(f)| == VarCount(varMarkers)
      modifies targetClass
      ensures targetClass.Valid()
      ensures targetClass.definedEndpoints == old(targetClass.definedEndpoints)[verb :=
        old(targetClass.Endpoints(verb)) + [Endpoint(varMarkers, Signature(f), None, None, Some(f))]]
    {
      targetClass.Add(verb, Endpoint(varMarkers, Signature(f), None, None, Some(f)));
    }

    /** `onOutsider(flag, f)`: register the pattern with an unauthenticated handler. */
    method OnOutsider(flag: bool, f: OutsiderHandler)
      requires targetClass.Valid() && VarCount(varMarkers) == 0
      modifies targetClass
      ensures targetClass.Valid()
      ensures targetClass.definedEndpoints == old(targetClass.definedEndpoints)[verb :=
        old(targetClass.Endpoints(verb)) + [Endpoint(varMarkers, [], Some(flag), Some(f), None)]]
    {
      targetClass.Add(verb, Endpoint(varMarkers, [], Some(flag), Some(f), None));
    }

    /** `onAny(o, f)`: register the pattern with both handlers. */
    method OnAny(o: OutsiderHandler, f: FriendHandler)
      requires targetClass.Valid() && VarCount(varMarkers) == 0 && Signature(f) == []
      modifies targetClass
      ensures targetClass.Valid()
      ensures targetClass.definedEndpoints == old(targetClass.definedEndpoints)[verb :=
        old(targetClass.Endpoints(verb)) + [Endpoint(varMarkers, [], None, Some(o), Some(f))]]
    {
      targetClass.Add(verb, Endpoint(varMarkers, [], None, Some(o), Some(f)));
    }
  }
}
