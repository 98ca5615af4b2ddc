/** The `Request` object of src/ApiProcessor.cpp: one HTTP exchange. It
    buffers a response head, hands bytes to the transport's `res->end`,
    and can be cancelled when the peer goes away.

    The transport's side is recorded, not performed: `sent` lists every
    `res->end(bytes)` with the `hasHead` flag the request set on `res`,
    and `fired` lists every invocation of a cancel callback. */
module Exchange {
  import opened Wrappers
  import opened Wire
  import opened Json

  /** The request methods the transport reports (ApiProcessor::Method). */
  datatype Method = GET | POST | PUT | DELETE | PATCH | OPTIONS | HEAD | TRACE | CONNECT | INVALID

  /** What the transport parsed out of one request. */
  datatype HttpRequest = HttpRequest(
    verb: Method,
    url: string,
    headers: seq<(string, string)>,
    ip: nat)
  {
    /** `req.getHeader(name)`: the value of the first header named exactly `name`. */
    function Header(name: string): Option<string>
      decreases |headers|
    {
      if headers == [] then None
      else if headers[0].0 == name then Some(headers[0].1)
      else this.(headers := headers[1..]).Header(name)
    }
  }

  /** One call of `res->end(bytes)`, with the value of `res->hasHead` at that moment. */
  datatype Emission = Emission(bytes: string, hasHead: bool)

  /** A cancel callback, known by identity. */
  type CancelHandler = nat

  /** One call a handler makes on a request. */
  datatype Call =
    | WriteStatusCall(status: string)
    | WriteHeaderCall(key: string, value: string)
    | EndBytesCall(body: string)
    | EndJsonCall(json: Json)
    | EndCall

  /** The abstract value of a Request: `live` is `res != nullptr`. Each
      member function is the specification of the method of the same name. */
  datatype ExchangeState = ExchangeState(
    live: bool,
    onCancel: Option<CancelHandler>,
    buffered: string,
    sent: seq<Emission>,
    fired: seq<CancelHandler>)
  {
    function Write(b: string): ExchangeState {
      this.(buffered := buffered + b)
    }

    function WriteStatus(s: string): ExchangeState {
      Write("HTTP/1.1 ").Write(s).Write(CRLF)
    }

    function WriteHeader(key: string, value: string): ExchangeState {
      Write(key).Write(": ").Write(value).Write(CRLF)
    }

    function WriteAndEnd(b: string): ExchangeState
      requires live
    {
      if buffered == [] then this.(sent := sent + [Emission(b, false)])
      else this.(buffered := buffered + b, sent := sent + [Emission(buffered + b, true)])
    }

    /** `end(buf, size)` with `size == |buf|`. */
    function EndBytes(body: string): ExchangeState
      requires live
    {
      (if buffered != [] then WriteHeader("Content-Length", Decimal(|body|)).Write(CRLF) else this)
        .WriteAndEnd(body)
    }

    /** `end(json)`, given the text `json.dump()` produced. */
    function EndJson(text: string): ExchangeState
      requires live
    {
      (if buffered == [] then WriteStatus("200 OK") else this)
        .WriteHeader("Content-Type", "application/json")
        .EndBytes(text)
    }

    function End(): ExchangeState
      requires live
    {
      if buffered == [] then this.(sent := sent + [Emission([], false)])
      else WriteAndEnd("Content-Length: 0\r\n\r\n")
    }

    function Cancel(): ExchangeState {
      this.(live := false, fired := fired + if onCancel.Some? then [onCancel.value] else [])
    }

    function OnCancel(h: CancelHandler): ExchangeState {
      this.(onCancel := Some(h))
    }

    function UpdateData(): ExchangeState {
      this.(live := true, onCancel := None, buffered := [])
    }

    function Apply(c: Call, dump: Json -> string): (r: ExchangeState)
      requires live
      ensures r.live && r.onCancel == onCancel && r.fired == fired
    {
      match c
      case WriteStatusCall(s) => WriteStatus(s)
      case WriteHeaderCall(k, v) => WriteHeader(k, v)
      case EndBytesCall(b) => EndBytes(b)
      case EndJsonCall(j) => EndJson(dump(j))
      case EndCall => End()
    }

    /** The calls of `plan`, made one after the other. */
    function Run(plan: seq<Call>, dump: Json -> string): (r: ExchangeState)
      requires live
      ensures r.live && r.onCancel == onCancel && r.fired == fired
      decreases |plan|
    {
      if plan == [] then this else Apply(plan[0], dump).Run(plan[1..], dump)
    }
  }

  lemma RunOne(st: ExchangeState, a: Call, dump: Json -> string)
    requires st.live
    ensures st.Run([a], dump) == st.Apply(a, dump)
  {
    assert [a][1..] == [];
  }

  lemma RunTwo(st: ExchangeState, a: Call, b: Call, dump: Json -> string)
    requires st.live
    ensures st.Run([a, b], dump) == st.Apply(a, dump).Apply(b, dump)
  {
    assert [a, b][1..] == [b];
    RunOne(st.Apply(a, dump), b, dump);
  }

  /** A request as the transport hands it over: live, nothing buffered,
      nothing sent yet. */
  const Fresh := ExchangeState(true, None, [], [], [])

  /** The buffer holds a head of good lines and nothing else. */
  predicate HeadOf(st: ExchangeState, ls: seq<string>) {
    st.buffered == Lines(ls) && forall i :: 0 <= i < |ls| ==> LineOk(ls[i])
  }

  /** A head with no Content-Length line of its own. */
  predicate NoLengthLine(ls: seq<string>) {
    forall i :: 0 <= i < |ls| ==> !HasPrefix(ls[i], "Content-Length: ")
  }

  lemma AddLine(st: ExchangeState, ls: seq<string>, l: string)
    requires HeadOf(st, ls) && LineOk(l)
    ensures HeadOf(st.Write(l + CRLF), ls + [l])
  {
    LinesSnoc(ls, l);
    var all := ls + [l];
    forall i | 0 <= i < |all| ensures LineOk(all[i]) {
      if i < |ls| { assert all[i] == ls[i]; }
    }
  }

  /** `writeStatus(s)` adds exactly the line `HTTP/1.1 s` to the head and
      touches nothing else. */
  lemma WriteStatusAddsLine(st: ExchangeState, ls: seq<string>, s: string)
    requires HeadOf(st, ls) && LineOk(StatusLine(s))
    ensures HeadOf(st.WriteStatus(s), ls + [StatusLine(s)])
    ensures st.WriteStatus(s) == st.(buffered := st.buffered + "HTTP/1.1 " + s + "\r\n")
  {
    assert st.WriteStatus(s) == st.Write(StatusLine(s) + CRLF);
    AddLine(st, ls, StatusLine(s));
  }

  /** `writeHeader(k, v)` adds exactly the line `k: v` to the head. */
  lemma WriteHeaderAddsLine(st: ExchangeState, ls: seq<string>, k: string, v: string)
    requires HeadOf(st, ls) && LineOk(HeaderLine(k, v))
    ensures HeadOf(st.WriteHeader(k, v), ls + [HeaderLine(k, v)])
    ensures st.WriteHeader(k, v) == st.(buffered := st.buffered + k + ": " + v + "\r\n")
  {
    assert st.WriteHeader(k, v) == st.Write(HeaderLine(k, v) + CRLF);
    AddLine(st, ls, HeaderLine(k, v));
  }

  /** `end(buf, size)`: with nothing buffered the transport gets `buf` alone
      and writes its own head; otherwise it gets the head, a Content-Length
      line, the empty line and `buf`, with `hasHead` set, and a reader of
      those bytes finds the head back and exactly `|buf|` bytes of body. */
  lemma EndBytesFraming(st: ExchangeState, ls: seq<string>, body: string)
    requires st.live && HeadOf(st, ls) && NoLengthLine(ls)
    ensures var after := st.EndBytes(body);
      |after.sent| == |st.sent| + 1 && after.sent[..|st.sent|] == st.sent
      && after.live == st.live && after.onCancel == st.onCancel && after.fired == st.fired
    ensures var e := st.EndBytes(body).sent[|st.sent|];
      (ls == [] ==> e == Emission(body, false))
      && (ls != [] ==>
            e.hasHead
            && ReadMessage(e.bytes) == Some(Message(ls + [LengthLine(body)], body))
            && ContentLength(ReadMessage(e.bytes).value) == Some(|body|))
  {
    var after := st.EndBytes(body);
    assert after.sent[..|st.sent|] == st.sent;
    if ls != [] {
      assert st.buffered != [] by {
        assert st.buffered == ls[0] + CRLF + Lines(ls[1..]);
      }
      var e := after.sent[|st.sent|];
      assert e.bytes == Lines(ls) + LengthLine(body) + CRLF + CRLF + body;
      FramedReadsBack(ls, body);
    }
  }

  /** The head `end(json)` completes before it calls `end(buf, size)`. */
  function JsonHead(ls: seq<string>): seq<string> {
    (if ls == [] then [StatusLine("200 OK")] else ls) + [HeaderLine("Content-Type", "application/json")]
  }

  /** Neither the status line `end(json)` may add nor its Content-Type
      line is a Content-Length line. */
  lemma JsonHeadNoLength(ls: seq<string>)
    requires NoLengthLine(ls)
    ensures NoLengthLine(JsonHead(ls)) && JsonHead(ls) != []
  {
    var ls1 := if ls == [] then [StatusLine("200 OK")] else ls;
    var ct := HeaderLine("Content-Type", "application/json");
    var ls2 := ls1 + [ct];
    forall i | 0 <= i < |ls2| ensures !HasPrefix(ls2[i], "Content-Length: ") {
      if i < |ls1| {
        assert ls2[i] == ls1[i];
        if ls == [] { assert ls1[i][0] == 'H'; }
      } else {
        assert ls2[i] == ct;
        assert ct[8] == 'T' && "Content-Length: "[8] == 'L';
      }
    }
  }

  lemma JsonHeadOk(st: ExchangeState, ls: seq<string>)
    requires HeadOf(st, ls) && NoLengthLine(ls)
    ensures var st1 := if st.buffered == [] then st.WriteStatus("200 OK") else st;
      HeadOf(st1.WriteHeader("Content-Type", "application/json"), JsonHead(ls))
      && NoLengthLine(JsonHead(ls)) && JsonHead(ls) != []
  {
    assert LineOk(HeaderLine("Content-Type", "application/json"));
    if ls == [] {
      assert LineOk(StatusLine("200 OK"));
      WriteStatusAddsLine(st, ls, "200 OK");
      WriteHeaderAddsLine(st.WriteStatus("200 OK"), [StatusLine("200 OK")], "Content-Type", "application/json");
    } else {
      assert st.buffered != [] by { assert st.buffered == ls[0] + CRLF + Lines(ls[1..]); }
      WriteHeaderAddsLine(st, ls, "Content-Type", "application/json");
    }
    JsonHeadNoLength(ls);
  }

  /** `end(json)`: the status `200 OK` is written only when nothing was
      buffered, so a status written before (a 400, a 404) is kept; the head
      always ends with Content-Type: application/json and a Content-Length
      equal to the length of the JSON text. */
  lemma EndJsonFraming(st: ExchangeState, ls: seq<string>, text: string)
    requires st.live && HeadOf(st, ls) && NoLengthLine(ls)
    ensures var after := st.EndJson(text);
      |after.sent| == |st.sent| + 1 && after.sent[..|st.sent|] == st.sent
      && after.live == st.live && after.onCancel == st.onCancel && after.fired == st.fired
    ensures var e := st.EndJson(text).sent[|st.sent|];
      var head := (if ls == [] then [StatusLine("200 OK")] else ls)
        + [HeaderLine("Content-Type", "application/json"), LengthLine(text)];
      e.hasHead
      && ReadMessage(e.bytes) == Some(Message(head, text))
      && ContentLength(ReadMessage(e.bytes).value) == Some(|text|)
  {
    var st1 := if st.buffered == [] then st.WriteStatus("200 OK") else st;
    var st2 := st1.WriteHeader("Content-Type", "application/json");
    JsonHeadOk(st, ls);
    assert st.EndJson(text) == st2.EndBytes(text);
    assert st2.sent == st.sent && st2.live && st2.fired == st.fired && st2.onCancel == st.onCancel;
    EndBytesFraming(st2, JsonHead(ls), text);
    var ls1 := if ls == [] then [StatusLine("200 OK")] else ls;
    var ct := HeaderLine("Content-Type", "application/json");
    assert JsonHead(ls) == ls1 + [ct];
    assert (ls1 + [ct]) + [LengthLine(text)] == ls1 + [ct, LengthLine(text)];
  }

  /** `end()`: with nothing buffered the transport gets no bytes and no
      head of ours; otherwise the head is closed with `Content-Length: 0`
      and an empty body. */
  lemma EndFraming(st: ExchangeState, ls: seq<string>)
    requires st.live && HeadOf(st, ls) && NoLengthLine(ls)
    ensures var after := st.End();
      |after.sent| == |st.sent| + 1 && after.sent[..|st.sent|] == st.sent
      && after.live == st.live && after.onCancel == st.onCancel && after.fired == st.fired
    ensures var e := st.End().sent[|st.sent|];
      (ls == [] ==> e == Emission([], false))
      && (ls != [] ==>
            e.hasHead
            && ReadMessage(e.bytes) == Some(Message(ls + [LengthLine([])], []))
            && ContentLength(ReadMessage(e.bytes).value) == Some(0))
  {
    var after := st.End();
    assert after.sent[..|st.sent|] == st.sent;
    if ls != [] {
      assert st.buffered != [] by {
        assert st.buffered == ls[0] + CRLF + Lines(ls[1..]);
      }
      assert LengthLine([]) == "Content-Length: 0";
      var e := after.sent[|st.sent|];
      assert e.bytes == Lines(ls) + LengthLine([]) + CRLF + CRLF + [];
      FramedReadsBack(ls, []);
    }
  }

  /** The bytes of a response that is a status and nothing else. */
  function StatusOnly(status: string): string {
    StatusLine(status) + CRLF + "Content-Length: 0\r\n\r\n"
  }

  /** A status and `end()` on a fresh buffer: one response, the status line
      closed by `Content-Length: 0` and the empty line, with `hasHead` set. */
  lemma StatusThenEnd(st: ExchangeState, status: string)
    requires st.live && st.buffered == []
    ensures st.WriteStatus(status).End().sent == st.sent + [Emission(StatusOnly(status), true)]
  {
    var st1 := st.WriteStatus(status);
    assert st1.buffered == StatusLine(status) + CRLF;
    assert st1.End() == st1.WriteAndEnd("Content-Length: 0\r\n\r\n");
  }

  /** A status and `end(json)` on a fresh buffer: the status is kept, and a
      reader finds it, the JSON content type and the length of the text. */
  lemma StatusThenJson(st: ExchangeState, status: string, text: string)
    requires st.live && st.buffered == [] && LineOk(StatusLine(status))
    ensures var after := st.WriteStatus(status).EndJson(text);
      |after.sent| == |st.sent| + 1 && after.sent[..|st.sent|] == st.sent
      && after.live && after.onCancel == st.onCancel && after.fired == st.fired
    ensures var e := st.WriteStatus(status).EndJson(text).sent[|st.sent|];
      e.hasHead
      && ReadMessage(e.bytes) == Some(Message(
           [StatusLine(status), HeaderLine("Content-Type", "application/json"), LengthLine(text)], text))
      && ContentLength(ReadMessage(e.bytes).value) == Some(|text|)
  {
    var ls := [StatusLine(status)];
    assert HeadOf(st, []);
    WriteStatusAddsLine(st, [], status);
    assert [] + [StatusLine(status)] == ls;
    assert NoLengthLine(ls) by {
      assert ls[0][0] == 'H';
    }
    EndJsonFraming(st.WriteStatus(status), ls, text);
    var head := ls + [HeaderLine("Content-Type", "application/json"), LengthLine(text)];
    assert head == [StatusLine(status), HeaderLine("Content-Type", "application/json"), LengthLine(text)];
  }

  /** The plan "write a status, then end with a JSON value" frames that
      status, the JSON content type and the value's length. */
  lemma StatusJsonRun(st: ExchangeState, status: string, j: Json, dump: Json -> string)
    requires st.live && st.buffered == [] && LineOk(StatusLine(status))
    ensures var after := st.Run([WriteStatusCall(status), EndJsonCall(j)], dump);
      var text := dump(j);
      |after.sent| == |st.sent| + 1
      && after.sent[|st.sent|].hasHead
      && ReadMessage(after.sent[|st.sent|].bytes) == Some(Message(
           [StatusLine(status), HeaderLine("Content-Type", "application/json"), LengthLine(text)], text))
  {
    RunTwo(st, WriteStatusCall(status), EndJsonCall(j), dump);
    var st1 := st.WriteStatus(status);
    assert st.Apply(WriteStatusCall(status), dump) == st1;
    assert st1.Apply(EndJsonCall(j), dump) == st1.EndJson(dump(j));
    StatusThenJson(st, status, dump(j));
  }

  /** `end(json)` on a fresh buffer: a `200 OK` response whose body is the text. */
  lemma JsonOnly(st: ExchangeState, text: string)
    requires st.live && st.buffered == []
    ensures var after := st.EndJson(text);
      |after.sent| == |st.sent| + 1 && after.sent[..|st.sent|] == st.sent
      && after.live && after.onCancel == st.onCancel && after.fired == st.fired
    ensures var e := st.EndJson(text).sent[|st.sent|];
      e.hasHead
      && ReadMessage(e.bytes) == Some(Message(
           [StatusLine("200 OK"), HeaderLine("Content-Type", "application/json"), LengthLine(text)], text))
      && ContentLength(ReadMessage(e.bytes).value) == Some(|text|)
  {
    assert HeadOf(st, []);
    EndJsonFraming(st, [], text);
    var head := [StatusLine("200 OK")] + [HeaderLine("Content-Type", "application/json"), LengthLine(text)];
    assert head == [StatusLine("200 OK"), HeaderLine("Content-Type", "application/json"), LengthLine(text)];
  }

  /** The Request object itself. */
  class Request {
    /** `res != nullptr`: the exchange has not been cancelled. */
    var live: bool
    /** `req`, cleared by `invalidateData` once the synchronous part is over. */
    var data: Option<HttpRequest>
    var cancelHandler: Option<CancelHandler>
    var bufferedData: string
    /** Every `res->end` so far, in order. */
    var sent: seq<Emission>
    /** Every cancel-callback invocation so far, in order. */
    var fired: seq<CancelHandler>

    function State(): ExchangeState
      reads this
    {
      ExchangeState(live, cancelHandler, bufferedData, sent, fired)
    }

    constructor (req: HttpRequest)
      ensures State() == Fresh && data == Some(req)
    {
      live := true;
      data := Some(req);
      cancelHandler := None;
      bufferedData := [];
      sent := [];
      fired := [];
    }

    method Write(b: string)
      modifies this
      ensures State() == old(State()).Write(b) && data == old(data)
    {
      bufferedData := bufferedData + b;
    }

    method WriteStatus(s: string)
      modifies this
      ensures State() == old(State()).WriteStatus(s) && data == old(data)
    {
      Write("HTTP/1.1 ");
      Write(s);
      Write(CRLF);
    }

    method WriteHeader(key: string, value: string)
      modifies this
      ensures State() == old(State()).WriteHeader(key, value) && data == old(data)
    {
      Write(key);
      Write(": ");
      Write(value);
      Write(CRLF);
    }

    method WriteAndEnd(b: string)
      requires live
      modifies this
      ensures State() == old(State()).WriteAndEnd(b) && data == old(data)
    {
      if bufferedData == [] {
        sent := sent + [Emission(b, false)];
      } else {
        bufferedData := bufferedData + b;
        sent := sent + [Emission(bufferedData, true)];
      }
    }

    method EndBytes(body: string)
      requires live
      modifies this
      ensures State() == old(State()).EndBytes(body) && data == old(data)
    {
      if bufferedData != [] {
        WriteHeader("Content-Length", Decimal(|body|));
        Write(CRLF);
      }
      WriteAndEnd(body);
    }

    method EndJson(j: Json, dump: Json -> string)
      requires live
      modifies this
      ensures State() == old(State()).EndJson(dump(j)) && data == old(data)
    {
      var s := dump(j);
      if bufferedData == [] {
        WriteStatus("200 OK");
      }
      WriteHeader("Content-Type", "application/json");
      EndBytes(s);
    }

    method End()
      requires live
      modifies this
      ensures State() == old(State()).End() && data == old(data)
    {
      if bufferedData == [] {
        sent := sent + [Emission([], false)];
      } else {
        WriteAndEnd("Content-Length: 0\r\n\r\n");
      }
    }

    predicate IsCancelled()
      reads this
    {
      !live
    }

    method OnCancel(f: CancelHandler)
      modifies this
      ensures State() == old(State()).OnCancel(f) && data == old(data)
    {
      cancelHandler := Some(f);
    }

    /** `cancel(r)`: sever the response, then hand the request to the
        cancel callback if one is set. The callback stays registered. */
    method Cancel()
      modifies this
      ensures State() == old(State()).Cancel() && data == old(data)
      ensures IsCancelled()
      ensures |fired| <= |old(fired)| + 1 && fired[..|old(fired)|] == old(fired)
    {
      live := false;
      if cancelHandler.Some? {
        fired := fired + [cancelHandler.value];
      }
    }

    /** `updateData(res, req)`: the socket's next request reuses this object. */
    method UpdateData(req: HttpRequest)
      modifies this
      ensures State() == old(State()).UpdateData() && data == Some(req)
      ensures !IsCancelled() && cancelHandler.None? && bufferedData == []
    {
      live := true;
      data := Some(req);
      cancelHandler := None;
      bufferedData := [];
    }

    method InvalidateData()
      modifies this
      ensures State() == old(State()) && data.None?
    {
      data := None;
    }

    /** Makes the calls of a handler's plan, in order. */
    method Perform(plan: seq<Call>, dump: Json -> string)
      requires live
      modifies this
      ensures State() == old(State()).Run(plan, dump) && data == old(data)
    {
      var i := 0;
      while i < |plan|
        invariant 0 <= i <= |plan|
        invariant live && data == old(data)
        invariant State().Run(plan[i..], dump) == old(State()).Run(plan, dump)
      {
        assert plan[i..][1..] == plan[i + 1..];
        match plan[i] {
          case WriteStatusCall(s) => WriteStatus(s);
          case WriteHeaderCall(k, v) => WriteHeader(k, v);
          case EndBytesCall(b) => EndBytes(b);
          case EndJsonCall(j) => EndJson(j, dump);
          case EndCall => End();
        }
        i := i + 1;
      }
    }
  }
}
