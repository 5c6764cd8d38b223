/**
 * The output sanitizer: a single left-to-right pass that removes every
 * control sequence of the shape ESC '[' [0-9;?]* [a-zA-Z] from one chunk of
 * shell output, as a global regular-expression replace does.
 */
module Sanitizer {
  import opened Wrappers

  const ESC: char := '\U{1B}'

  /** The parameter characters a control sequence may carry: digits, ';' and '?'. */
  predicate IsParam(c: char) {
    ('0' <= c <= '9') || c == ';' || c == '?'
  }

  /** The final character of a control sequence: an ASCII letter. */
  predicate IsLetter(c: char) {
    ('a' <= c <= 'z') || ('A' <= c <= 'Z')
  }

  /** `m` is, as a whole, one match of the pattern. */
  predicate IsControlSequence(m: seq<char>) {
    && |m| >= 3
    && m[0] == ESC
    && m[1] == '['
    && IsLetter(m[|m| - 1])
    && forall k :: 2 <= k < |m| - 1 ==> IsParam(m[k])
  }

  /** Length of the longest run of parameter characters at the front of `t`. */
  function ParamRun(t: seq<char>): (n: nat)
    ensures n <= |t|
    ensures forall k :: 0 <= k < n ==> IsParam(t[k])
    ensures n < |t| ==> !IsParam(t[n])
  {
    if t != [] && IsParam(t[0]) then 1 + ParamRun(t[1..]) else 0
  }

  /**
   * The match of the pattern at the front of `t`, as its length. Because a
   * parameter character is never a letter, the greedy reading of [0-9;?]*
   * is the only one that can succeed, so at most one prefix matches.
   */
  function MatchLen(t: seq<char>): (r: Option<nat>)
    ensures r.Some? ==> 3 <= r.value <= |t|
    ensures forall n :: 0 <= n <= |t| ==> (IsControlSequence(t[..n]) <==> r == Some(n))
  {
    if |t| >= 2 && t[0] == ESC && t[1] == '[' then
      var k := 2 + ParamRun(t[2..]);
      if k < |t| && IsLetter(t[k]) then
        Some(k + 1)
      else
        None
    else
      None
  }

  /** cleanAnsiSequences: remove every match, scanning left to right. */
  function Clean(t: seq<char>): (r: seq<char>)
    ensures |r| <= |t|
    decreases |t|
  {
    if t == [] then []
    else
      match MatchLen(t)
      case Some(n) => Clean(t[n..])
      case None => [t[0]] + Clean(t[1..])
  }

  /**
   * Independent reading of a global replace: a segmentation of the text into
   * pieces, each either one kept character or one removed control sequence.
   */
  datatype Piece = Kept(c: char) | Stripped(cs: seq<char>)

  /** The characters a list of pieces is made of. */
  function Flatten(ps: seq<Piece>): seq<char> {
    if ps == [] then []
    else (match ps[0] case Kept(c) => [c] case Stripped(m) => m) + Flatten(ps[1..])
  }

  /** The characters of the kept pieces only, in order. */
  function KeptText(ps: seq<Piece>): seq<char> {
    if ps == [] then []
    else (match ps[0] case Kept(c) => [c] case Stripped(_) => []) + KeptText(ps[1..])
  }

  /** No prefix of `t` is a control sequence: the scan cannot match at the front of `t`. */
  ghost predicate NoMatchAtFront(t: seq<char>) {
    forall n :: 0 <= n <= |t| ==> !IsControlSequence(t[..n])
  }

  /**
   * `ps` is the left-to-right, non-overlapping segmentation of `t`: each
   * removed piece is a control sequence at the current position, and a
   * character is kept only where no control sequence begins.
   */
  ghost predicate LeftmostParse(t: seq<char>, ps: seq<Piece>)
    decreases ps
  {
    if ps == [] then t == []
    else match ps[0]
      case Kept(c) =>
        t != [] && t[0] == c && NoMatchAtFront(t) && LeftmostParse(t[1..], ps[1..])
      case Stripped(m) =>
        IsControlSequence(m) && |m| <= |t| && t[..|m|] == m && LeftmostParse(t[|m|..], ps[1..])
  }

  /** The segmentation the scan follows. */
  function Segments(t: seq<char>): (ps: seq<Piece>)
    ensures LeftmostParse(t, ps)
    decreases |t|
  {
    if t == [] then []
    else
      match MatchLen(t)
      case Some(n) => [Stripped(t[..n])] + Segments(t[n..])
      case None => [Kept(t[0])] + Segments(t[1..])
  }

  /** A leftmost segmentation covers the whole text. */
  lemma {:induction false} LeftmostParseCovers(t: seq<char>, ps: seq<Piece>)
    requires LeftmostParse(t, ps)
    ensures Flatten(ps) == t
    decreases ps
  {
    if ps != [] {
      match ps[0]
      case Kept(c) =>
        LeftmostParseCovers(t[1..], ps[1..]);
      case Stripped(m) =>
        LeftmostParseCovers(t[|m|..], ps[1..]);
        assert t == m + t[|m|..];
    }
  }

  /**
   * Clean keeps exactly the kept characters of ANY leftmost segmentation:
   * every match is removed and every other character survives, in order.
   */
  lemma {:induction false} CleanIsKeptText(t: seq<char>, ps: seq<Piece>)
    requires LeftmostParse(t, ps)
    ensures Clean(t) == KeptText(ps)
    decreases ps
  {
    if ps != [] {
      match ps[0]
      case Kept(c) =>
        assert MatchLen(t).None?;
        CleanIsKeptText(t[1..], ps[1..]);
      case Stripped(m) =>
        assert t[..|m|] == m;
        assert MatchLen(t) == Some(|m|);
        CleanIsKeptText(t[|m|..], ps[1..]);
    }
  }

  /** The leftmost segmentation is unique. */
  lemma {:induction false} LeftmostParseUnique(t: seq<char>, ps: seq<Piece>, qs: seq<Piece>)
    requires LeftmostParse(t, ps) && LeftmostParse(t, qs)
    ensures ps == qs
    decreases ps
  {
    if ps != [] && qs != [] {
      match ps[0]
      case Kept(c) =>
        if qs[0].Stripped? {
          assert false;
        }
        LeftmostParseUnique(t[1..], ps[1..], qs[1..]);
      case Stripped(m) =>
        assert t[..|m|] == m;
        if qs[0].Kept? {
          assert false;
        }
        var m' := qs[0].cs;
        assert t[..|m'|] == m';
        assert MatchLen(t) == Some(|m|) == Some(|m'|);
        LeftmostParseUnique(t[|m|..], ps[1..], qs[1..]);
    }
  }

  /** Text without an ESC character passes through unchanged. */
  lemma {:induction false} CleanWithoutEscape(t: seq<char>)
    requires ESC !in t
    ensures Clean(t) == t
    decreases |t|
  {
    if t != [] {
      assert MatchLen(t).None?;
      CleanWithoutEscape(t[1..]);
    }
  }

  /** ESC-free text in front of a chunk is kept and does not change the rest. */
  lemma {:induction false} CleanEscapeFreePrefix(a: seq<char>, b: seq<char>)
    requires ESC !in a
    ensures Clean(a + b) == a + Clean(b)
    decreases |a|
  {
    if a == [] {
      assert a + b == b;
    } else {
      var t := a + b;
      assert t[0] == a[0] && t[0] != ESC;
      assert MatchLen(t).None?;
      assert t[1..] == a[1..] + b;
      CleanEscapeFreePrefix(a[1..], b);
      calc {
        Clean(t);
        [t[0]] + Clean(t[1..]);
        [a[0]] + (a[1..] + Clean(b));
        { assert a == [a[0]] + a[1..]; }
        a + Clean(b);
      }
    }
  }

  /** A chunk that is a single control sequence disappears. */
  lemma CleanControlSequence(m: seq<char>)
    requires IsControlSequence(m)
    ensures Clean(m) == []
  {
    assert m[..|m|] == m;
    assert MatchLen(m) == Some(|m|);
    assert m[|m|..] == [];
  }

  /** One scan step over a match. */
  lemma CleanSkips(t: seq<char>, n: nat)
    requires MatchLen(t) == Some(n)
    ensures Clean(t) == Clean(t[n..])
  {
  }

  /** A coloured line loses its colour codes. */
  lemma CleanColouredLine()
    ensures Clean("\U{1B}[32mHello\U{1B}[0m\n") == "Hello\n"
  {
    var t, v := "\U{1B}[32mHello\U{1B}[0m\n", "\U{1B}[0m\n";
    assert t[..5] == "\U{1B}[32m" && IsControlSequence(t[..5]);
    assert t[5..] == "Hello" + v;
    assert v[..4] == "\U{1B}[0m" && IsControlSequence(v[..4]);
    assert v[4..] == "\n";
    calc {
      Clean(t);
      { CleanSkips(t, 5); }
      Clean("Hello" + v);
      { CleanEscapeFreePrefix("Hello", v); }
      "Hello" + Clean(v);
      { CleanSkips(v, 4); }
      "Hello" + Clean("\n");
      { CleanWithoutEscape("\n"); }
      "Hello\n";
    }
  }

  /** Bracketed-paste mode switches are removed. */
  lemma CleanBracketedPaste()
    ensures Clean("\U{1B}[?2004h") == ""
  {
    CleanControlSequence("\U{1B}[?2004h");
  }

  /** One pass is not idempotent: removing a match can splice a new one together. */
  lemma CleanNotIdempotent()
    ensures Clean("\U{1B}\U{1B}[A[B") == "\U{1B}[B"
    ensures Clean(Clean("\U{1B}\U{1B}[A[B")) == ""
  {
    var t := "\U{1B}\U{1B}[A[B";
    assert MatchLen(t).None?;
    var u := t[1..];
    assert MatchLen(u) == Some(3);
    assert u[3..] == "[B";
    CleanWithoutEscape("[B");
    CleanControlSequence("\U{1B}[B");
  }

  /** Chunks are cleaned one by one: a control sequence split across two chunks survives. */
  lemma CleanSplitSequence()
    ensures Clean("\U{1B}[31m") == ""
    ensures Clean("\U{1B}[3") + Clean("1m") == "\U{1B}[31m"
  {
    CleanControlSequence("\U{1B}[31m");
    var a := "\U{1B}[3";
    assert MatchLen(a).None?;
    assert a[1..] == "[3";
    CleanWithoutEscape("[3");
    CleanWithoutEscape("1m");
  }
}
