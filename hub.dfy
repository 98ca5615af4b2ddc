/** The three transport callbacks of the `ApiProcessor` constructor
    (src/ApiProcessor.cpp): each HTTP socket keeps one `Request` in its
    user-data slot, reuses it for every request of the connection, and
    releases it when the connection is cancelled or closes. */
module Hub {
  import opened Wrappers
  import opened Text
  import opened Json
  import opened Exchange
  import opened Collaborators
  import opened Handlers
  import opened Dispatch

  /** `urldecode(args)`: every segment decoded, or the message of the
      first failure. */
  function DecodeAll(segs: seq<string>, decode: string -> Result<string, string>): Result<seq<string>, string>
    decreases |segs|
  {
    if segs == [] then Success([])
    else match decode(segs[0])
      case Failure(msg) => Failure(msg)
      case Success(d) =>
        match DecodeAll(segs[1..], decode)
        case Failure(msg) => Failure(msg)
        case Success(ds) => Success([d] + ds)
  }

  /** DecodeAll succeeds exactly when every segment decodes, and then
      holds the decoded segments in order. */
  lemma {:induction false} DecodeAllSpec(segs: seq<string>, decode: string -> Result<string, string>)
    ensures DecodeAll(segs, decode).Success? <==> forall i :: 0 <= i < |segs| ==> decode(segs[i]).Success?
    ensures DecodeAll(segs, decode).Success? ==>
      var ds := DecodeAll(segs, decode).value;
      |ds| == |segs| && forall i :: 0 <= i < |segs| ==> ds[i] == decode(segs[i]).value
    ensures DecodeAll(segs, decode).Failure? ==>
      exists i :: 0 <= i < |segs| && decode(segs[i]) == Failure(DecodeAll(segs, decode).error)
        && forall j :: 0 <= j < i ==> decode(segs[j]).Success?
    decreases |segs|
  {
    if segs != [] {
      DecodeAllSpec(segs[1..], decode);
      var rest := DecodeAll(segs[1..], decode);
      if decode(segs[0]).Success? && rest.Failure? {
        var i :| 0 <= i < |segs[1..]| && decode(segs[1..][i]) == Failure(rest.error)
          && forall j :: 0 <= j < i ==> decode(segs[1..][j]).Success?;
        assert decode(segs[i + 1]) == Failure(DecodeAll(segs, decode).error);
        forall j | 0 <= j < i + 1 ensures decode(segs[j]).Success? {
          if j > 0 { assert segs[j] == segs[1..][j - 1]; }
        }
      }
      if decode(segs[0]).Success? && rest.Success? {
        forall i | 0 <= i < |segs| ensures decode(segs[i]).Success? {
          if i > 0 { assert segs[i] == segs[1..][i - 1]; }
        }
      }
      if (forall i :: 0 <= i < |segs| ==> decode(segs[i]).Success?) {
        assert decode(segs[0]).Success?;
        forall i | 0 <= i < |segs[1..]| ensures decode(segs[1..][i]).Success? {
          assert segs[1..][i] == segs[i + 1];
        }
      }
    }
  }

  /** The request body as JSON: null when empty, else the parser's value
      (a discarded value when it does not parse). */
  function BodyJson(body: string, env: Env): Json {
    if |body| == 0 then Null else env.parseBody(body)
  }

  /** What the request callback does with one request, before and instead
      of `exec`: the path split at '/' with empty pieces skipped, each piece
      URL-decoded; a decoding failure is answered `400 Bad Request` with the
      reason, anything else is dispatched. */
  function RequestReply(eps: seq<Endpoint>, req: HttpRequest, body: string, env: Env): Reply
    requires forall i :: 0 <= i < |eps| ==> WellFormed(eps[i])
  {
    match DecodeAll(Tokenize(req.url, '/'), env.urlDecode)
    case Failure(msg) => ErrorReply(msg)
    case Success(args) => DispatchReply(eps, req, BodyJson(body, env), args, env)
  }

  /** A path whose pieces all decode is dispatched on the decoded pieces;
      one that does not is refused with the first failure's reason, before
      any endpoint is consulted. */
  lemma RequestReplySpec(eps: seq<Endpoint>, req: HttpRequest, body: string, env: Env)
    requires forall i :: 0 <= i < |eps| ==> WellFormed(eps[i])
    ensures var segs := Tokenize(req.url, '/');
      (forall i :: 0 <= i < |segs| ==> env.urlDecode(segs[i]).Success?) ==>
        exists args :: |args| == |segs|
          && (forall i :: 0 <= i < |segs| ==> args[i] == env.urlDecode(segs[i]).value)
          && RequestReply(eps, req, body, env) == DispatchReply(eps, req, BodyJson(body, env), args, env)
    ensures var segs := Tokenize(req.url, '/');
      forall k ::
        (0 <= k < |segs| && env.urlDecode(segs[k]).Failure?
         && forall j :: 0 <= j < k ==> env.urlDecode(segs[j]).Success?)
        ==> RequestReply(eps, req, body, env) == ErrorReply(env.urlDecode(segs[k]).error)
  {
    var segs := Tokenize(req.url, '/');
    DecodeAllSpec(segs, env.urlDecode);
    if (forall i :: 0 <= i < |segs| ==> env.urlDecode(segs[i]).Success?) {
      var args := DecodeAll(segs, env.urlDecode).value;
      assert RequestReply(eps, req, body, env) == DispatchReply(eps, req, BodyJson(body, env), args, env);
    }
    forall k | 0 <= k < |segs| && env.urlDecode(segs[k]).Failure?
        && (forall j :: 0 <= j < k ==> env.urlDecode(segs[j]).Success?)
      ensures RequestReply(eps, req, body, env) == ErrorReply(env.urlDecode(segs[k]).error)
    {
      var r := DecodeAll(segs, env.urlDecode);
      var i :| 0 <= i < |segs| && env.urlDecode(segs[i]) == Failure(r.error)
        && forall j :: 0 <= j < i ==> env.urlDecode(segs[j]).Success?;
      assert i == k;
    }
  }

  /** Where the connection is: open, closed with responses still
      outstanding (the cancel callback will follow), or closed for good. */
  datatype Phase = Open | Draining | Gone

  /** One transport socket and its user-data slot, the heap-allocated
      shared pointer to the connection's Request. */
  class HttpSocket {
    /** The slot: the Request the pointer in the user data holds, or null. */
    var userData: Request?
    var phase: Phase
    /** Every Request whose holder the callbacks have deleted, in order. */
    ghost var released: seq<Request>

    /** No holder is deleted twice. */
    ghost predicate ReleasedOnce()
      reads this
    {
      forall i, j :: 0 <= i < j < |released| ==> released[i] != released[j]
    }

    /** No holder is deleted twice, and the slot never holds a deleted one. */
    ghost predicate Valid()
      reads this
    {
      ReleasedOnce() && (userData != null ==> userData !in released)
    }

    constructor ()
      ensures userData == null && phase == Open && released == [] && Valid()
    {
      userData := null;
      phase := Open;
      released := [];
    }

    /** `onHttpRequest`: the slot's Request is created on the connection's
        first request and reused for later ones; it is answered or handed on
        as `RequestReply` says, and forgets the transport's request before
        the callback returns. */
    method OnHttpRequest(api: ApiProcessor, req: HttpRequest, body: string, env: Env)
      returns (outcome: Outcome)
      requires Valid() && phase == Open && api.Valid()
      modifies this, userData
      ensures Valid() && phase == Open && released == old(released)
      ensures userData != null && userData.data.None?
      ensures old(userData) != null ==> userData == old(userData)
      ensures old(userData) == null ==> fresh(userData)
      ensures var start := if old(userData) == null then Fresh else old(userData.State()).UpdateData();
        var rep := RequestReply(api.Endpoints(req.verb), req, body, env);
        userData.State() == start.Run(rep.plan, env.dump) && outcome == rep.outcome
    {
      var rs := userData;
      if rs == null {
        rs := new Request(req);
        userData := rs;
      } else {
        rs.UpdateData(req);
      }
      ghost var start := rs.State();
      var j := BodyJson(body, env);
      var segs := Tokenize(req.url, '/');
      var decoded := DecodeAll(segs, env.urlDecode);
      match decoded {
        case Failure(msg) =>
          // writeStatus("400 Bad Request"), then end({"reason": e.what()})
          rs.Perform(ErrorReply(msg).plan, env.dump);
          outcome := Finished;
        case Success(args) =>
          outcome := api.Exec(rs, j, args, env);
      }
      rs.InvalidateData();
      assert start == if old(userData) == null then Fresh else old(userData.State()).UpdateData();
    }

    /** `onCancelledHttpRequest`: a held Request is cancelled, its holder
        deleted and the slot cleared; an empty slot is left alone. */
    method OnCancelledHttpRequest()
      requires Valid() && phase != Gone
      modifies this, userData
      ensures Valid() && phase == old(phase) && userData == null
      ensures old(userData) == null ==> released == old(released)
      ensures old(userData) != null ==>
        old(userData).State() == old(userData.State()).Cancel()
        && old(userData).data == old(userData.data)
        && released == old(released) + [old(userData)]
    {
      var rs := userData;
      if rs != null {
        rs.Cancel();
        released := released + [rs];
        userData := null;
      }
    }

    /** `onHttpDisconnection`: with no response outstanding no cancel
        callback follows, so the holder (if any) is deleted now and the
        socket is gone; otherwise the cancel callback will release it. The
        slot itself is not cleared. */
    method OnHttpDisconnection(noOutstanding: bool)
      requires Valid() && phase == Open
      modifies this
      ensures userData == old(userData)
      ensures noOutstanding ==>
        (phase == Gone && released == old(released) + (if old(userData) == null then [] else [old(userData)])
         && ReleasedOnce())
      ensures !noOutstanding ==> phase == Draining && released == old(released) && Valid()
    {
      if noOutstanding {
        if userData != null {
          released := released + [userData];
        }
        phase := Gone;
      } else {
        phase := Draining;
      }
    }
  }

  /** A connection's life: requests, then a disconnection with responses
      outstanding and their cancellation. The one Request serves every
      request, and its holder is deleted exactly once. */
  method Connection(api: ApiProcessor, r1: HttpRequest, r2: HttpRequest, env: Env)
    returns (s: HttpSocket, first: Request)
    requires api.Valid()
    ensures s.phase == Draining && s.userData == null && s.Valid()
    ensures s.released == [first] && first.IsCancelled() && first.data.None?
  {
    s := new HttpSocket();
    var o1 := s.OnHttpRequest(api, r1, [], env);
    first := s.userData;
    var o2 := s.OnHttpRequest(api, r2, [], env);
    assert s.userData == first;
    s.OnHttpDisconnection(false);
    s.OnCancelledHttpRequest();
  }
}
