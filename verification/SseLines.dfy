/**
 The line structure of a text event stream: what the client's buffer loop takes out of the
 text it has received so far, and the reference it is compared with.
 */
module SseLines {

  predicate IsBreak(c: char) {
    c == '\r' || c == '\n'
  }

  predicate Unbroken(s: string) {
    forall i | 0 <= i < |s| :: !IsBreak(s[i])
  }

  /** The position of the first CR or LF, or the length of the text when it has none. */
  function FirstBreak(s: string): (k: nat)
    ensures k <= |s| && Unbroken(s[..k])
    ensures k < |s| ==> IsBreak(s[k])
  {
    if s == "" || IsBreak(s[0]) then 0 else 1 + FirstBreak(s[1..])
  }

  lemma {:induction false} FirstBreakOf(u: string, v: string)
    requires Unbroken(u)
    requires v != "" ==> IsBreak(v[0])
    ensures FirstBreak(u + v) == |u|
  {
    if u == "" {
      assert u + v == v;
    } else {
      assert (u + v)[1..] == u[1..] + v;
      FirstBreakOf(u[1..], v);
    }
  }

  /** The lines taken out of a buffer, and what stays in it. */
  datatype Taken = Taken(lines: seq<string>, rest: string)

  /** True when the buffer loop must wait: no break, or a CR that may be half of a CRLF. */
  predicate MustWait(s: string, eof: bool) {
    var k := FirstBreak(s);
    k == |s| || (s[k] == '\r' && k == |s| - 1 && !eof)
  }

  function BreakWidth(s: string, k: nat): (w: nat)
    requires k < |s|
    ensures 1 <= w <= 2 && k + w <= |s|
  {
    if s[k] == '\r' && k + 1 < |s| && s[k + 1] == '\n' then 2 else 1
  }

  predicate HasBreak(s: string) {
    FirstBreak(s) < |s|
  }

  function HeadLine(s: string): string {
    s[..FirstBreak(s)]
  }

  function AfterBreak(s: string): (r: string)
    requires HasBreak(s)
    ensures |r| < |s|
  {
    s[FirstBreak(s) + BreakWidth(s, FirstBreak(s))..]
  }

  function Prepend(line: string, t: Taken): Taken {
    Taken([line] + t.lines, t.rest)
  }

  /** What the buffer loop takes from `s`. */
  function TakeLines(s: string, eof: bool): (t: Taken)
    decreases |s|
  {
    if MustWait(s, eof) then Taken([], s) else Prepend(HeadLine(s), TakeLines(AfterBreak(s), eof))
  }

  lemma TakeUnfolds(s: string, eof: bool)
    ensures TakeLines(s, eof) ==
            if MustWait(s, eof) then Taken([], s) else Prepend(HeadLine(s), TakeLines(AfterBreak(s), eof))
  {
  }

  lemma BreakStays(a: string, b: string)
    requires HasBreak(a)
    ensures FirstBreak(a + b) == FirstBreak(a)
  {
    var k := FirstBreak(a);
    assert a + b == a[..k] + (a[k..] + b);
    FirstBreakOf(a[..k], a[k..] + b);
  }

  /** A break that may be taken stays where it is when more text follows. */
  lemma BreakAppend(a: string, b: string, eof: bool)
    requires !MustWait(a, false)
    ensures !MustWait(a + b, eof) && HeadLine(a + b) == HeadLine(a) && AfterBreak(a + b) == AfterBreak(a) + b
  {
    var k := FirstBreak(a);
    BreakStays(a, b);
    assert (a + b)[k] == a[k] && BreakWidth(a + b, k) == BreakWidth(a, k);
    assert (a + b)[..k] == a[..k];
  }

  /** `t`, and then what is taken from the rest of `t` with `b` added to it. */
  function TakeMore(t: Taken, b: string, eof: bool): Taken {
    var u := TakeLines(t.rest + b, eof);
    Taken(t.lines + u.lines, u.rest)
  }

  lemma PrependThenMore(line: string, t: Taken, b: string, eof: bool)
    ensures TakeMore(Prepend(line, t), b, eof) == Prepend(line, TakeMore(t, b, eof))
  {
    var u := TakeLines(t.rest + b, eof);
    assert [line] + (t.lines + u.lines) == ([line] + t.lines) + u.lines;
  }

  lemma NothingThenMore(a: string, b: string, eof: bool)
    ensures TakeMore(Taken([], a), b, eof) == TakeLines(a + b, eof)
  {
    assert [] + TakeLines(a + b, eof).lines == TakeLines(a + b, eof).lines;
  }

  /** Buffering is invisible: taking lines before `b` arrives changes nothing. */
  lemma {:induction false} TakeLinesAppend(a: string, b: string, eof: bool)
    ensures TakeLines(a + b, eof) == TakeMore(TakeLines(a, false), b, eof)
    decreases |a|
  {
    TakeUnfolds(a, false);
    if MustWait(a, false) {
      NothingThenMore(a, b, eof);
    } else {
      BreakAppend(a, b, eof);
      TakeUnfolds(a + b, eof);
      TakeLinesAppend(AfterBreak(a), b, eof);
      PrependThenMore(HeadLine(a), TakeLines(AfterBreak(a), false), b, eof);
    }
  }

  /** Every CRLF, and every other CR, as a single LF. */
  function ToLf(s: string): string
    decreases |s|
  {
    if s == "" then ""
    else if s[0] == '\r' then "\n" + ToLf(if |s| > 1 && s[1] == '\n' then s[2..] else s[1..])
    else [s[0]] + ToLf(s[1..])
  }

  /** The pieces of a text between its LFs; a text without LF is one piece. */
  function Pieces(s: string): (p: seq<string>)
    ensures |p| >= 1
  {
    if s == "" then [""]
    else
      var p := Pieces(s[1..]);
      if s[0] == '\n' then [""] + p else [[s[0]] + p[0]] + p[1..]
  }

  /** The reference: split at CRLF, CR or LF, and drop the unterminated last line. */
  function Lines(s: string): seq<string> {
    var p := Pieces(ToLf(s));
    p[..|p| - 1]
  }

  lemma {:induction false} ToLfUnbroken(u: string, v: string)
    requires Unbroken(u)
    ensures ToLf(u + v) == u + ToLf(v)
  {
    if u == "" {
      assert u + v == v;
    } else {
      assert (u + v)[1..] == u[1..] + v;
      assert Unbroken(u[1..]);
      assert (u + v)[0] == u[0];
      ToLfUnbroken(u[1..], v);
      assert [u[0]] + (u[1..] + ToLf(v)) == u + ToLf(v);
    }
  }

  lemma {:induction false} PiecesUnbroken(u: string, v: string)
    requires Unbroken(u)
    requires v == "" || v[0] == '\n'
    ensures Pieces(u + v) == [u] + (if v == "" then [] else Pieces(v[1..]))
  {
    if u == "" {
      assert u + v == v;
    } else {
      assert (u + v)[1..] == u[1..] + v;
      assert Unbroken(u[1..]);
      assert (u + v)[0] == u[0];
      PiecesUnbroken(u[1..], v);
      assert [u[0]] + u[1..] == u;
    }
  }

  lemma AllButLast(line: string, p: seq<string>)
    requires |p| >= 1
    ensures ([line] + p)[..|p|] == [line] + p[..|p| - 1]
  {
  }

  lemma LinesOfUnbroken(s: string)
    requires !HasBreak(s)
    ensures Lines(s) == []
  {
    assert s + "" == s;
    ToLfUnbroken(s, "");
    PiecesUnbroken(s, "");
    assert ToLf("") == "";
  }

  lemma ToLfOfBreak(s: string)
    requires HasBreak(s)
    ensures ToLf(s) == HeadLine(s) + ("\n" + ToLf(AfterBreak(s)))
  {
    var k := FirstBreak(s);
    var tail := s[k..];
    assert s == s[..k] + tail;
    ToLfUnbroken(s[..k], tail);
    assert tail[1..] == s[k + 1..] && (|tail| > 1 ==> tail[1] == s[k + 1] && tail[2..] == s[k + 2..]);
    assert tail[0] == '\r' || [tail[0]] == "\n";
  }

  lemma LinesUnfold(s: string)
    requires HasBreak(s)
    ensures Lines(s) == [HeadLine(s)] + Lines(AfterBreak(s))
  {
    var text := "\n" + ToLf(AfterBreak(s));
    ToLfOfBreak(s);
    PiecesUnbroken(HeadLine(s), text);
    assert text[1..] == ToLf(AfterBreak(s));
    AllButLast(HeadLine(s), Pieces(ToLf(AfterBreak(s))));
  }

  /** At the end of the stream the buffer loop has taken exactly the reference lines. */
  lemma {:induction false} TakeLinesIsReference(s: string)
    ensures TakeLines(s, true).lines == Lines(s)
    decreases |s|
  {
    TakeUnfolds(s, true);
    if HasBreak(s) {
      LinesUnfold(s);
      TakeLinesIsReference(AfterBreak(s));
    } else {
      LinesOfUnbroken(s);
    }
  }

  /** A text cut anywhere, with or without an end-of-stream, loses lines only at its end. */
  lemma TakenIsPrefix(a: string, b: string, eof: bool)
    ensures TakeLines(a, eof).lines <= Lines(a + b)
  {
    TakeLinesIsReference(a + b);
    TakeLinesAppend(a, b, true);
    var t := TakeLines(a, false);
    if eof {
      TakeLinesAppend(a, "", true);
      assert a + "" == a && t.rest + "" == t.rest;
      TakenRest(a);
      RestIsPrefix(t.rest, b);
    }
  }

  lemma {:induction false} TakenRest(a: string)
    ensures MustWait(TakeLines(a, false).rest, false)
    decreases |a|
  {
    TakeUnfolds(a, false);
    if !MustWait(a, false) {
      TakenRest(AfterBreak(a));
    }
  }

  /** At the end of the stream, a rest that ends with a CR gives the one line before it. */
  lemma EndTakesOne(r: string)
    requires MustWait(r, false) && HasBreak(r)
    ensures TakeLines(r, true).lines == [HeadLine(r)]
  {
    TakeUnfolds(r, true);
    assert AfterBreak(r) == "";
    TakeUnfolds("", true);
  }

  lemma MoreTakesItToo(r: string, b: string)
    requires HasBreak(r)
    ensures TakeLines(r + b, true).lines != [] && TakeLines(r + b, true).lines[0] == HeadLine(r)
  {
    BreakStays(r, b);
    assert (r + b)[..FirstBreak(r)] == HeadLine(r);
    TakeUnfolds(r + b, true);
  }

  /** Of a rest that must wait, the end of the stream takes at most one line, and more text takes it too. */
  lemma RestIsPrefix(r: string, b: string)
    requires MustWait(r, false)
    ensures TakeLines(r, true).lines <= TakeLines(r + b, true).lines
  {
    if HasBreak(r) {
      EndTakesOne(r);
      MoreTakesItToo(r, b);
    } else {
      TakeUnfolds(r, true);
    }
  }

  lemma TakeTerminatedLine(u: string, v: string, eof: bool)
    requires Unbroken(u)
    ensures TakeLines(u + "\n" + v, eof) == Prepend(u, TakeLines(v, eof))
  {
    var s := u + "\n" + v;
    assert s == u + ("\n" + v);
    FirstBreakOf(u, "\n" + v);
    assert s[|u|] == '\n' && s[..|u|] == u && s[|u| + 1..] == v;
    TakeUnfolds(s, eof);
  }

  /** A text that ends with its last line contributes its lines, whatever comes after it. */
  lemma LinesOfConcat(a: string, b: string)
    requires TakeLines(a, false).rest == ""
    ensures Lines(a + b) == TakeLines(a, false).lines + Lines(b)
    ensures TakeLines(a + b, false).rest == TakeLines(b, false).rest
    ensures TakeLines(a + b, false).lines == TakeLines(a, false).lines + TakeLines(b, false).lines
  {
    TakeLinesAppend(a, b, true);
    TakeLinesAppend(a, b, false);
    assert "" + b == b;
    TakeLinesIsReference(a + b);
    TakeLinesIsReference(b);
  }
}
