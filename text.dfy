/** The string helpers the server leans on: `std::string::find`,
    `find_first_of`, and the repository's `tokenize` utility. `tokenize`
    lives in misc/utils, which is not part of this model; it is modelled
    under an ASSUMPTION: split at every delimiter and drop the empty
    pieces (the `true` argument at its call sites). */
module Text {
  import opened Wrappers

  /** `pat` sits in `s` starting at `i`. */
  predicate OccursAt(s: string, pat: string, i: nat) {
    i + |pat| <= |s| && s[i..i + |pat|] == pat
  }

  /** `s.find(pat, i)`: the first position at or after `i` where `pat` starts. */
  function FindFrom(s: string, pat: string, i: nat): (r: Option<nat>)
    requires i <= |s|
    ensures r.Some? ==> i <= r.value && OccursAt(s, pat, r.value)
    ensures r.Some? ==> forall j :: i <= j < r.value ==> !OccursAt(s, pat, j)
    ensures r.None? ==> forall j :: i <= j <= |s| ==> !OccursAt(s, pat, j)
    decreases |s| - i
  {
    if OccursAt(s, pat, i) then Some(i)
    else if i == |s| then None
    else FindFrom(s, pat, i + 1)
  }

  /** `s.find(pat)`, with `None` standing for `npos`. */
  function Find(s: string, pat: string): Option<nat> {
    FindFrom(s, pat, 0)
  }

  /** `s.find_first_of(cs)`, with `|s|` standing for `npos`. */
  function FirstOf(s: string, cs: set<char>): (k: nat)
    ensures k <= |s|
    ensures forall i :: 0 <= i < k ==> s[i] !in cs
    ensures k < |s| ==> s[k] in cs
  {
    if s == [] then 0
    else if s[0] in cs then 0
    else 1 + FirstOf(s[1..], cs)
  }

  /** The assumed `tokenize(s, d, true)`: the maximal runs of non-`d`
      characters of `s`, in order. */
  function Tokenize(s: string, d: char): (r: seq<string>)
    ensures forall k :: 0 <= k < |r| ==> r[k] != [] && d !in r[k]
    decreases |s|
  {
    if s == [] then []
    else
      var k := FirstOf(s, {d});
      assert d !in s[..k] by {
        forall i | 0 <= i < k ensures s[..k][i] != d { }
      }
      Piece(s[..k]) + Rest(s, k, d)
  }

  function Piece(p: string): (r: seq<string>)
    ensures |r| <= 1 && forall k :: 0 <= k < |r| ==> r[k] == p && p != []
  {
    if p == [] then [] else [p]
  }

  function Rest(s: string, k: nat, d: char): (r: seq<string>)
    requires k <= |s|
    ensures forall j :: 0 <= j < |r| ==> r[j] != [] && d !in r[j]
    decreases |s|, 0
  {
    if k < |s| then Tokenize(s[k + 1..], d) else []
  }

  /** `s` with every `d` removed. */
  function Strip(s: string, d: char): string {
    if s == [] then [] else (if s[0] == d then [] else [s[0]]) + Strip(s[1..], d)
  }

  function Flatten(pieces: seq<string>): string {
    if pieces == [] then [] else pieces[0] + Flatten(pieces[1..])
  }

  lemma {:induction false} StripAppend(a: string, b: string, d: char)
    ensures Strip(a + b, d) == Strip(a, d) + Strip(b, d)
  {
    if a == [] {
      assert a + b == b;
    } else {
      assert (a + b)[0] == a[0];
      assert (a + b)[1..] == a[1..] + b;
      StripAppend(a[1..], b, d);
    }
  }

  lemma {:induction false} StripFree(a: string, d: char)
    requires d !in a
    ensures Strip(a, d) == a
  {
    if a != [] {
      StripFree(a[1..], d);
    }
  }

  /** The first piece and what follows it, as `Tokenize` takes `s` apart. */
  lemma TokenizeStep(s: string, d: char)
    requires s != []
    ensures var k := FirstOf(s, {d});
      Tokenize(s, d) == Piece(s[..k]) + Rest(s, k, d)
  {
  }

  /** Cutting `s` at a delimiter at `k`. */
  lemma StripAround(s: string, k: nat, d: char)
    requires k < |s| && s[k] == d
    ensures Strip(s, d) == Strip(s[..k], d) + Strip(s[k + 1..], d)
  {
    assert s == s[..k] + ([s[k]] + s[k + 1..]);
    StripAppend(s[..k], [s[k]] + s[k + 1..], d);
    assert ([s[k]] + s[k + 1..])[1..] == s[k + 1..];
  }

  lemma FlattenCons(head: string, rest: seq<string>)
    ensures Flatten([head] + rest) == head + Flatten(rest)
  {
    assert ([head] + rest)[1..] == rest;
  }

  /** Tokenizing loses only delimiters: the pieces, glued back together,
      are the input with its delimiters taken out. */
  lemma {:induction false} TokenizeKeepsContent(s: string, d: char)
    ensures Flatten(Tokenize(s, d)) == Strip(s, d)
    decreases |s|
  {
    if s != [] {
      var k := FirstOf(s, {d});
      var head := s[..k];
      assert d !in head by {
        forall i | 0 <= i < k ensures head[i] != d { }
      }
      StripFree(head, d);
      TokenizeStep(s, d);
      var rest := Rest(s, k, d);
      if k < |s| {
        TokenizeKeepsContent(s[k + 1..], d);
        StripAround(s, k, d);
      } else {
        assert s == head;
      }
      if k == 0 {
        assert Piece(head) + rest == rest;
      } else {
        FlattenCons(head, rest);
      }
    }
  }

  /** `FirstOf`'s contract pins its result down. */
  lemma FirstOfUnique(s: string, cs: set<char>, k: nat)
    requires k <= |s| && (forall i :: 0 <= i < k ==> s[i] !in cs) && (k < |s| ==> s[k] in cs)
    ensures FirstOf(s, cs) == k
  {
  }

  /** A non-empty input without a delimiter is one piece. */
  lemma TokenizeWhole(s: string, d: char)
    requires s != [] && d !in s
    ensures Tokenize(s, d) == [s]
  {
    assert forall i :: 0 <= i < |s| ==> s[i] !in {d};
    FirstOfUnique(s, {d}, |s|);
    assert s[..|s|] == s;
  }

  /** The first piece of `s` ends at `f`, its first delimiter. */
  lemma HeadStep(s: string, f: nat, d: char)
    requires f < |s| && s[f] == d && forall i :: 0 <= i < f ==> s[i] != d
    ensures Tokenize(s, d) == Piece(s[..f]) + Tokenize(s[f + 1..], d)
  {
    FirstOfUnique(s, {d}, f);
    TokenizeStep(s, d);
  }

  /** The pieces of a prefix that holds a delimiter at `f`, the first one. */
  lemma PrefixStep(s: string, k: nat, f: nat, d: char)
    requires f < k <= |s| && s[f] == d && forall i :: 0 <= i < f ==> s[i] != d
    ensures Tokenize(s[..k], d) == Piece(s[..f]) + Tokenize(s[f + 1..k], d)
  {
    var p := s[..k];
    HeadStep(p, f, d);
    assert p[..f] == s[..f];
    assert p[f + 1..] == s[f + 1..k];
  }

  lemma Regroup<T>(x: seq<T>, y: seq<T>, z: seq<T>, a: seq<T>, b: seq<T>, c: seq<T>)
    requires x == a + y && y == b + c && z == a + b
    ensures x == z + c
  {
  }

  /** `TokenizeSplit` when `k` holds the first delimiter. */
  lemma SplitAtFirst(s: string, k: nat, d: char)
    requires k < |s| && s[k] == d && forall i :: 0 <= i < k ==> s[i] != d
    ensures Tokenize(s, d) == Tokenize(s[..k], d) + Tokenize(s[k + 1..], d)
  {
    HeadStep(s, k, d);
    if k == 0 {
      assert Tokenize(s[..k], d) == [] == Piece(s[..k]);
    } else {
      assert forall i :: 0 <= i < k ==> s[..k][i] != d;
      TokenizeWhole(s[..k], d);
    }
  }

  /** `TokenizeSplit` when an earlier delimiter at `f` comes first, given
      the split of what follows `f`. */
  lemma SplitAfterFirst(s: string, k: nat, f: nat, d: char)
    requires f < k < |s| && s[k] == d && s[f] == d && forall i :: 0 <= i < f ==> s[i] != d
    requires var t := s[f + 1..];
      Tokenize(t, d) == Tokenize(t[..k - f - 1], d) + Tokenize(t[k - f - 1 + 1..], d)
    ensures Tokenize(s, d) == Tokenize(s[..k], d) + Tokenize(s[k + 1..], d)
  {
    var t := s[f + 1..];
    assert t[..k - f - 1] == s[f + 1..k];
    assert t[k - f - 1 + 1..] == s[k + 1..];
    HeadStep(s, f, d);
    PrefixStep(s, k, f, d);
    Regroup(Tokenize(s, d), Tokenize(t, d), Tokenize(s[..k], d),
            Piece(s[..f]), Tokenize(s[f + 1..k], d), Tokenize(s[k + 1..], d));
  }

  /** Every delimiter cuts: the pieces of `s` are those before a delimiter
      followed by those after it. With `TokenizeWhole` and `TokenizeEmpty`
      this determines `Tokenize` completely. */
  lemma {:induction false} TokenizeSplit(s: string, k: nat, d: char)
    requires k < |s| && s[k] == d
    ensures Tokenize(s, d) == Tokenize(s[..k], d) + Tokenize(s[k + 1..], d)
    decreases |s|
  {
    var f := FirstOf(s, {d});
    assert s[k] in {d};
    if f == k {
      SplitAtFirst(s, k, d);
    } else {
      TokenizeSplit(s[f + 1..], k - f - 1, d);
      SplitAfterFirst(s, k, f, d);
    }
  }

  /** There are no pieces exactly when the input holds nothing but delimiters. */
  lemma {:induction false} TokenizeEmpty(s: string, d: char)
    ensures Tokenize(s, d) == [] <==> forall i :: 0 <= i < |s| ==> s[i] == d
    decreases |s|
  {
    if s != [] {
      var k := FirstOf(s, {d});
      if k < |s| {
        TokenizeEmpty(s[k + 1..], d);
        if k == 0 {
          forall i | 0 <= i < |s| && Tokenize(s, d) == [] ensures s[i] == d {
            if i > 0 { assert s[i] == s[k + 1..][i - 1]; }
          }
        }
      }
    }
  }
}
