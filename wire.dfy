/** The bytes of an HTTP/1.1 response head as the Request object writes
    them (src/ApiProcessor.cpp), and a reader for them. The reader is the
    independent half: it takes a response apart line by line, the way the
    peer does, so that lemmas can say what the peer reads back. */
module Wire {
  import opened Wrappers
  import Text

  const CRLF: string := "\r\n"

  /** The status line that `writeStatus(s)` writes, without its CRLF. */
  function StatusLine(status: string): string {
    "HTTP/1.1 " + status
  }

  /** The header line that `writeHeader(k, v)` writes, without its CRLF. */
  function HeaderLine(key: string, value: string): string {
    key + ": " + value
  }

  /** A line a reader can take back out: non-empty, with no CR and no LF. */
  predicate LineOk(l: string) {
    l != [] && '\r' !in l && '\n' !in l
  }

  predicate HasPrefix(s: string, p: string) {
    |p| <= |s| && s[..|p|] == p
  }

  /** Lines, each followed by CRLF. */
  function Lines(ls: seq<string>): string {
    if ls == [] then [] else ls[0] + CRLF + Lines(ls[1..])
  }

  lemma {:induction false} LinesSnoc(ls: seq<string>, l: string)
    ensures Lines(ls + [l]) == Lines(ls) + l + CRLF
  {
    if ls == [] {
      assert [] + [l] == [l];
      assert [l][1..] == [];
    } else {
      assert (ls + [l])[0] == ls[0];
      assert (ls + [l])[1..] == ls[1..] + [l];
      LinesSnoc(ls[1..], l);
    }
  }

  // ---------------------------------------------------------------------
  // Decimal numbers, as std::to_string writes a size.

  predicate IsDigit(c: char) {
    '0' <= c <= '9'
  }

  function DigitChar(d: nat): (c: char)
    requires d < 10
    ensures IsDigit(c) && c as int - '0' as int == d
  {
    (('0' as int) + d) as char
  }

  /** `std::to_string(n)` for an unsigned size: its decimal digits, with no
      sign and no leading zero. */
  function Decimal(n: nat): (s: string)
    ensures s != []
    ensures forall i :: 0 <= i < |s| ==> IsDigit(s[i])
    ensures |s| > 1 ==> s[0] != '0'
    ensures n < 10 <==> |s| == 1
  {
    if n < 10 then [DigitChar(n)] else Decimal(n / 10) + [DigitChar(n % 10)]
  }

  predicate AllDigits(s: string) {
    forall i :: 0 <= i < |s| ==> IsDigit(s[i])
  }

  function DigitsValue(s: string): nat
    requires AllDigits(s)
  {
    if s == [] then 0
    else DigitsValue(s[..|s| - 1]) * 10 + (s[|s| - 1] as int - '0' as int)
  }

  /** How a peer reads a Content-Length value: one or more decimal digits. */
  function ParseDecimal(s: string): Option<nat> {
    if s != [] && AllDigits(s) then Some(DigitsValue(s)) else None
  }

  lemma {:induction false} DecimalRoundTrip(n: nat)
    ensures ParseDecimal(Decimal(n)) == Some(n)
    decreases n
  {
    var s := Decimal(n);
    if n >= 10 {
      DecimalRoundTrip(n / 10);
      assert s[..|s| - 1] == Decimal(n / 10);
      assert DigitsValue(s) == (n / 10) * 10 + n % 10;
    }
  }

  // ---------------------------------------------------------------------
  // Reading a response back.

  /** A response as a reader sees it: the lines of its head, then the body. */
  datatype Message = Message(head: seq<string>, body: string)

  /** Reads lines up to the first empty one; what follows the empty line is
      the body. `None` when the input has no complete head. */
  function ReadMessage(s: string): Option<Message>
    decreases |s|
  {
    var k := Text.FirstOf(s, {'\r'});
    if k + 1 >= |s| || s[k + 1] != '\n' then None
    else if k == 0 then Some(Message([], s[2..]))
    else
      match ReadMessage(s[k + 2..])
      case None => None
      case Some(m) => Some(Message([s[..k]] + m.head, m.body))
  }

  /** The value of the first header line named `name`. */
  function HeaderValue(head: seq<string>, name: string): Option<string> {
    if head == [] then None
    else if HasPrefix(head[0], name + ": ") then Some(head[0][|name| + 2..])
    else HeaderValue(head[1..], name)
  }

  /** The body length a reader takes from the head. */
  function ContentLength(m: Message): Option<nat> {
    match HeaderValue(m.head, "Content-Length")
    case None => None
    case Some(v) => ParseDecimal(v)
  }

  lemma FirstOfAt(a: string, b: string, cs: set<char>)
    requires forall i :: 0 <= i < |a| ==> a[i] !in cs
    requires b != [] && b[0] in cs
    ensures Text.FirstOf(a + b, cs) == |a|
  {
    var k := Text.FirstOf(a + b, cs);
    assert (a + b)[|a|] in cs;
  }

  /** The empty line ends the head; the rest is the body. */
  lemma ReadEmptyLine(body: string)
    ensures ReadMessage(CRLF + body) == Some(Message([], body))
  {
    var s := CRLF + body;
    FirstOfAt([], s, {'\r'});
    assert s[2..] == body;
  }

  /** A good line before the rest of a head is read as its first line. */
  lemma ReadLine(l: string, rest: string)
    requires LineOk(l)
    ensures ReadMessage(l + CRLF + rest) ==
      match ReadMessage(rest)
      case None => None
      case Some(m) => Some(Message([l] + m.head, m.body))
  {
    var s := l + CRLF + rest;
    assert s == l + (CRLF + rest);
    assert forall i :: 0 <= i < |l| ==> l[i] !in {'\r'} by {
      forall i | 0 <= i < |l| ensures l[i] != '\r' {
        assert l[i] in l;
      }
    }
    FirstOfAt(l, CRLF + rest, {'\r'});
    assert s[|l| + 1] == '\n';
    assert s[..|l|] == l;
    assert s[|l| + 2..] == rest;
  }

  /** A head made of good lines reads back line for line, and the body is
      whatever follows the empty line. */
  lemma {:induction false} ReadLines(ls: seq<string>, body: string)
    requires forall i :: 0 <= i < |ls| ==> LineOk(ls[i])
    ensures ReadMessage(Lines(ls) + CRLF + body) == Some(Message(ls, body))
  {
    if ls == [] {
      ReadEmptyLine(body);
    } else {
      var rest := Lines(ls[1..]) + CRLF + body;
      assert Lines(ls) + CRLF + body == ls[0] + CRLF + rest;
      ReadLines(ls[1..], body);
      ReadLine(ls[0], rest);
      assert [ls[0]] + ls[1..] == ls;
    }
  }

  lemma {:induction false} HeaderValueLast(head: seq<string>, name: string, v: string)
    requires forall i :: 0 <= i < |head| ==> !HasPrefix(head[i], name + ": ")
    ensures HeaderValue(head + [HeaderLine(name, v)], name) == Some(v)
  {
    var l := HeaderLine(name, v);
    if head == [] {
      assert [] + [l] == [l];
      assert l[..|name + ": "|] == name + ": ";
      assert l[|name| + 2..] == v;
    } else {
      assert (head + [l])[0] == head[0];
      assert (head + [l])[1..] == head[1..] + [l];
      HeaderValueLast(head[1..], name, v);
    }
  }

  /** The Content-Length header line of a body `body`. */
  function LengthLine(body: string): string {
    HeaderLine("Content-Length", Decimal(|body|))
  }

  lemma LengthLineOk(body: string)
    ensures LineOk(LengthLine(body))
  {
    var d := Decimal(|body|);
    var l := LengthLine(body);
    assert l == "Content-Length: " + d;
    forall i | 0 <= i < |l| ensures l[i] != '\r' && l[i] != '\n' {
      if i >= 16 { assert l[i] == d[i - 16]; }
    }
  }

  /** FRAMING: when a head of good lines (none of them a Content-Length)
      is followed by the Content-Length line, the empty line and the body,
      a reader gets the head back, the Content-Length line last, and the
      length it reads there is exactly the length of the body. */
  lemma FramedReadsBack(ls: seq<string>, body: string)
    requires forall i :: 0 <= i < |ls| ==> LineOk(ls[i])
    requires forall i :: 0 <= i < |ls| ==> !HasPrefix(ls[i], "Content-Length: ")
    ensures var m := ReadMessage(Lines(ls) + LengthLine(body) + CRLF + CRLF + body);
      m == Some(Message(ls + [LengthLine(body)], body)) && ContentLength(m.value) == Some(|body|)
  {
    FramedHead(ls, body);
    FramedLength(ls, body);
  }

  lemma FramedHead(ls: seq<string>, body: string)
    requires forall i :: 0 <= i < |ls| ==> LineOk(ls[i])
    ensures ReadMessage(Lines(ls) + LengthLine(body) + CRLF + CRLF + body)
      == Some(Message(ls + [LengthLine(body)], body))
  {
    var cl := LengthLine(body);
    var all := ls + [cl];
    LinesSnoc(ls, cl);
    LengthLineOk(body);
    AllLinesOk(ls, cl);
    var h := Lines(ls) + cl + CRLF;
    assert h + CRLF + body == Lines(all) + CRLF + body;
    ReadLines(all, body);
  }

  lemma FramedLength(ls: seq<string>, body: string)
    requires forall i :: 0 <= i < |ls| ==> !HasPrefix(ls[i], "Content-Length: ")
    ensures ContentLength(Message(ls + [LengthLine(body)], body)) == Some(|body|)
  {
    HeaderValueLast(ls, "Content-Length", Decimal(|body|));
    DecimalRoundTrip(|body|);
  }

  lemma AllLinesOk(ls: seq<string>, l: string)
    requires forall i :: 0 <= i < |ls| ==> LineOk(ls[i])
    requires LineOk(l)
    ensures forall i :: 0 <= i < |ls + [l]| ==> LineOk((ls + [l])[i])
  {
    var all := ls + [l];
    forall i | 0 <= i < |all| ensures LineOk(all[i]) {
      if i < |ls| { assert all[i] == ls[i]; } else { assert all[i] == l; }
    }
  }
}
