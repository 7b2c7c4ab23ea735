/**
  strings.TrimSpace over byte strings: the white space of Unicode, as the one to
  three bytes of UTF-8 that encode each such character, is cut off both ends.
*/
module WhiteSpace {

  predicate IsSpace(a: char) { a in {' ', '\t', '\n', '\r', '\U{0B}', '\U{0C}'} }

  /** U+0085 and U+00A0. */
  predicate IsSpace2(a: char, b: char) { a == '\U{C2}' && (b == '\U{85}' || b == '\U{A0}') }

  /** U+1680, U+2000 to U+200A, U+2028, U+2029, U+202F, U+205F and U+3000. */
  predicate IsSpace3(a: char, b: char, c: char) {
    || (a == '\U{E1}' && b == '\U{9A}' && c == '\U{80}')
    || (a == '\U{E2}' && b == '\U{80}' && ('\U{80}' <= c <= '\U{8A}' || c in {'\U{A8}', '\U{A9}', '\U{AF}'}))
    || (a == '\U{E2}' && b == '\U{81}' && c == '\U{9F}')
    || (a == '\U{E3}' && b == '\U{80}' && c == '\U{80}')
  }

  /** The length of the white space character that s starts with, or 0. */
  function SpaceAtFront(s: string): (n: nat)
    ensures n <= |s|
  {
    if |s| >= 1 && IsSpace(s[0]) then 1
    else if |s| >= 2 && IsSpace2(s[0], s[1]) then 2
    else if |s| >= 3 && IsSpace3(s[0], s[1], s[2]) then 3
    else 0
  }

  /** The length of the white space character that s ends with, or 0. */
  function SpaceAtBack(s: string): (n: nat)
    ensures n <= |s|
  {
    var e := |s|;
    if e >= 1 && IsSpace(s[e - 1]) then 1
    else if e >= 2 && IsSpace2(s[e - 2], s[e - 1]) then 2
    else if e >= 3 && IsSpace3(s[e - 3], s[e - 2], s[e - 1]) then 3
    else 0
  }

  function TrimFront(s: string): string {
    var n := SpaceAtFront(s);
    if n == 0 then s else TrimFront(s[n..])
  }

  function TrimBack(s: string): string {
    var n := SpaceAtBack(s);
    if n == 0 then s else TrimBack(s[..|s| - n])
  }

  function TrimSpace(s: string): string { TrimBack(TrimFront(s)) }

  /** No white space at either end. */
  predicate Bare(s: string) { SpaceAtFront(s) == 0 && SpaceAtBack(s) == 0 }

  lemma {:induction false} TrimFrontLength(s: string)
    ensures |TrimFront(s)| <= |s| && (|TrimFront(s)| == |s| <==> SpaceAtFront(s) == 0)
    decreases |s|
  {
    if SpaceAtFront(s) != 0 { TrimFrontLength(s[SpaceAtFront(s)..]); }
  }

  lemma {:induction false} TrimBackLength(s: string)
    ensures |TrimBack(s)| <= |s| && (|TrimBack(s)| == |s| <==> SpaceAtBack(s) == 0)
    decreases |s|
  {
    if SpaceAtBack(s) != 0 { TrimBackLength(s[..|s| - SpaceAtBack(s)]); }
  }

  /** Trimming shortens exactly the strings with white space at an end, and leaves the others as they are. */
  lemma TrimSpaceLength(s: string)
    ensures |TrimSpace(s)| <= |s|
    ensures |TrimSpace(s)| == |s| <==> Bare(s)
    ensures TrimSpace(s) == s <==> Bare(s)
  {
    TrimFrontLength(s);
    TrimBackLength(TrimFront(s));
  }

  // ----- what trimming means -----

  /** The white space characters of Unicode, by their code points. */
  predicate IsSpacePoint(u: nat) {
    || 0x09 <= u <= 0x0D || u == 0x20 || u == 0x85 || u == 0xA0 || u == 0x1680
    || 0x2000 <= u <= 0x200A || u == 0x2028 || u == 0x2029 || u == 0x202F || u == 0x205F || u == 0x3000
  }

  /** Section 3 of RFC 3629, for the code points below the surrogates: one to three bytes. */
  function Utf8(u: nat): string
    requires u < 0xD800
  {
    if u < 0x80 then [u as char]
    else if u < 0x800 then [(0xC0 + u / 64) as char, (0x80 + u % 64) as char]
    else [(0xE0 + u / 4096) as char, (0x80 + u / 64 % 64) as char, (0x80 + u % 64) as char]
  }

  predicate SpaceChar(c: string) {
    || (|c| == 1 && IsSpace(c[0])) || (|c| == 2 && IsSpace2(c[0], c[1])) || (|c| == 3 && IsSpace3(c[0], c[1], c[2]))
  }

  lemma PointIsChar(u: nat)
    requires IsSpacePoint(u)
    ensures SpaceChar(Utf8(u))
  {
  }

  lemma CharIsPoint(c: string) returns (u: nat)
    requires SpaceChar(c)
    ensures IsSpacePoint(u) && Utf8(u) == c
  {
    if |c| == 1 {
      u := c[0] as nat;
    } else if |c| == 2 {
      u := c[1] as nat;
    } else {
      u := (c[0] as nat - 0xE0) * 4096 + (c[1] as nat - 0x80) * 64 + (c[2] as nat - 0x80);
    }
  }

  /** The byte tables are the encodings of the white space characters. */
  lemma SpaceCharMeans(c: string)
    ensures SpaceChar(c) <==> exists u :: IsSpacePoint(u) && Utf8(u) == c
  {
    if SpaceChar(c) { var u := CharIsPoint(c); }
    if u :| IsSpacePoint(u) && Utf8(u) == c { PointIsChar(u); }
  }

  predicate AllSpace(cs: seq<string>) { forall i :: 0 <= i < |cs| ==> SpaceChar(cs[i]) }

  function Concat(cs: seq<string>): string { if cs == [] then "" else cs[0] + Concat(cs[1..]) }

  ghost predicate StartsWithSpace(s: string) { exists n :: 0 < n <= |s| && SpaceChar(s[..n]) }

  ghost predicate EndsWithSpace(s: string) { exists i :: 0 <= i < |s| && SpaceChar(s[i..]) }

  /** The white space character at the front, if there is one, is the only prefix that is one. */
  lemma FrontMeans(s: string, n: nat)
    requires 0 < n <= |s|
    ensures SpaceChar(s[..n]) <==> n == SpaceAtFront(s)
  {
  }

  lemma BackMeans(s: string, i: nat)
    requires i < |s|
    ensures SpaceChar(s[i..]) <==> |s| - i == SpaceAtBack(s)
  {
  }

  lemma BareMeans(s: string)
    ensures StartsWithSpace(s) <==> SpaceAtFront(s) != 0
    ensures EndsWithSpace(s) <==> SpaceAtBack(s) != 0
  {
    if SpaceAtFront(s) != 0 { FrontMeans(s, SpaceAtFront(s)); }
    if SpaceAtBack(s) != 0 { BackMeans(s, |s| - SpaceAtBack(s)); }
    if n :| 0 < n <= |s| && SpaceChar(s[..n]) { FrontMeans(s, n); }
    if i :| 0 <= i < |s| && SpaceChar(s[i..]) { BackMeans(s, i); }
  }

  lemma {:induction false} ConcatAppend(a: seq<string>, b: seq<string>)
    ensures Concat(a + b) == Concat(a) + Concat(b)
  {
    if a == [] {
      assert a + b == b;
    } else {
      ConcatAppend(a[1..], b);
      assert (a + b)[0] == a[0] && (a + b)[1..] == a[1..] + b;
      Around(a[0], Concat(a[1..]), Concat(b));
    }
  }

  lemma ConcatLast(a: seq<string>, c: string)
    ensures Concat(a + [c]) == Concat(a) + c
  {
    ConcatAppend(a, [c]);
    assert [c][1..] == [];
    assert c + "" == c;
  }

  lemma ConcatFirst(c: string, cs: seq<string>)
    ensures Concat([c] + cs) == c + Concat(cs)
  {
    assert ([c] + cs)[1..] == cs;
  }

  lemma Glue(c: string, cs: seq<string>, tail: string)
    ensures c + (Concat(cs) + tail) == Concat([c] + cs) + tail
  {
    ConcatFirst(c, cs);
    assert c + (Concat(cs) + tail) == (c + Concat(cs)) + tail;
  }

  /** What TrimFront cuts off, character by character. */
  function FrontSpaces(s: string): seq<string> {
    var n := SpaceAtFront(s);
    if n == 0 then [] else [s[..n]] + FrontSpaces(s[n..])
  }

  function BackSpaces(s: string): seq<string> {
    var i := |s| - SpaceAtBack(s);
    if i == |s| then [] else BackSpaces(s[..i]) + [s[i..]]
  }

  lemma {:induction false} FrontIsSpace(s: string)
    ensures AllSpace(FrontSpaces(s))
    decreases |s|
  {
    var n := SpaceAtFront(s);
    if n != 0 {
      FrontIsSpace(s[n..]);
      FrontMeans(s, n);
    }
  }

  lemma {:induction false} BackIsSpace(s: string)
    ensures AllSpace(BackSpaces(s))
    decreases |s|
  {
    var i := |s| - SpaceAtBack(s);
    if i != |s| {
      BackIsSpace(s[..i]);
      BackMeans(s, i);
    }
  }

  lemma {:induction false} FrontCut(s: string)
    ensures s == Concat(FrontSpaces(s)) + TrimFront(s)
    decreases |s|
  {
    var n := SpaceAtFront(s);
    if n != 0 {
      FrontCut(s[n..]);
      Glue(s[..n], FrontSpaces(s[n..]), TrimFront(s[n..]));
      assert s == s[..n] + s[n..];
    }
  }

  lemma {:induction false} BackCut(s: string)
    ensures s == TrimBack(s) + Concat(BackSpaces(s))
    decreases |s|
  {
    var i := |s| - SpaceAtBack(s);
    if i != |s| {
      BackCut(s[..i]);
      ConcatLast(BackSpaces(s[..i]), s[i..]);
      assert s == s[..i] + s[i..];
      Around(TrimBack(s[..i]), Concat(BackSpaces(s[..i])), s[i..]);
    }
  }

  lemma {:induction false} TrimFrontBare(s: string)
    ensures SpaceAtFront(TrimFront(s)) == 0
    decreases |s|
  {
    if SpaceAtFront(s) != 0 { TrimFrontBare(s[SpaceAtFront(s)..]); }
  }

  lemma {:induction false} TrimBackBare(s: string)
    ensures SpaceAtBack(TrimBack(s)) == 0
    ensures SpaceAtFront(s) == 0 ==> SpaceAtFront(TrimBack(s)) == 0
    decreases |s|
  {
    if SpaceAtBack(s) != 0 {
      var t := s[..|s| - SpaceAtBack(s)];
      TrimBackBare(t);
      assert forall i :: 0 <= i < |t| ==> t[i] == s[i];
    }
  }

  lemma Around(a: string, m: string, b: string)
    ensures a + m + b == a + (m + b)
  {
  }

  /** Trimming cuts white space off both ends, and all of it. */
  lemma TrimSpaceMeans(s: string)
    ensures exists a, b :: AllSpace(a) && AllSpace(b) && s == Concat(a) + TrimSpace(s) + Concat(b)
    ensures !StartsWithSpace(TrimSpace(s)) && !EndsWithSpace(TrimSpace(s))
  {
    var a, b := FrontSpaces(s), BackSpaces(TrimFront(s));
    FrontIsSpace(s);
    FrontCut(s);
    BackIsSpace(TrimFront(s));
    BackCut(TrimFront(s));
    TrimFrontBare(s);
    TrimBackBare(TrimFront(s));
    BareMeans(TrimSpace(s));
    Around(Concat(a), TrimSpace(s), Concat(b));
  }

  /** Whatever white space is put in front is cut off again, and nothing that follows it. */
  lemma {:induction false} TrimFrontOnly(cs: seq<string>, x: string)
    requires AllSpace(cs) && SpaceAtFront(x) == 0
    ensures TrimFront(Concat(cs) + x) == x
    decreases |cs|
  {
    var s := Concat(cs) + x;
    if cs == [] {
      assert s == x;
    } else {
      var c, rest := cs[0], Concat(cs[1..]) + x;
      assert s[..|c|] == c && s[|c|..] == rest;
      FrontMeans(s, |c|);
      TrimFrontOnly(cs[1..], x);
    }
  }

  lemma TrimBackOne(x: string, c: string)
    requires SpaceChar(c)
    ensures TrimBack(x + c) == TrimBack(x)
  {
    var s := x + c;
    assert s[|x|..] == c && s[..|x|] == x;
    BackMeans(s, |x|);
  }

  lemma {:induction false} TrimBackOnly(x: string, cs: seq<string>)
    requires SpaceAtBack(x) == 0 && AllSpace(cs)
    ensures TrimBack(x + Concat(cs)) == x
    decreases |cs|
  {
    var s := x + Concat(cs);
    if cs == [] {
      assert s == x;
    } else {
      var init, c := cs[..|cs| - 1], cs[|cs| - 1];
      assert cs == init + [c];
      ConcatLast(init, c);
      Around(x, Concat(init), c);
      TrimBackOne(x + Concat(init), c);
      TrimBackOnly(x, init);
    }
  }

  /** Nothing that starts bare starts with white space once more white space follows. */
  lemma FrontStaysBare(m: string, cs: seq<string>)
    requires m != "" && SpaceAtFront(m) == 0 && AllSpace(cs)
    ensures SpaceAtFront(m + Concat(cs)) == 0
  {
    var s := m + Concat(cs);
    assert forall i :: 0 <= i < |m| ==> s[i] == m[i];
    if cs != [] {
      assert SpaceChar(cs[0]);
      assert s[|m|] == cs[0][0];
    }
  }

  lemma TrimAllSpace(cs: seq<string>)
    requires AllSpace(cs)
    ensures TrimSpace(Concat(cs)) == ""
  {
    TrimFrontOnly(cs, "");
    assert Concat(cs) + "" == Concat(cs);
  }

  /** What trimming leaves is the only bare string that makes up the whole with white space around it. */
  lemma TrimSpaceOnly(a: seq<string>, m: string, b: seq<string>)
    requires AllSpace(a) && AllSpace(b) && !StartsWithSpace(m) && !EndsWithSpace(m)
    ensures TrimSpace(Concat(a) + m + Concat(b)) == m
  {
    BareMeans(m);
    Around(Concat(a), m, Concat(b));
    if m == "" {
      ConcatAppend(a, b);
      TrimAllSpace(a + b);
      assert m + Concat(b) == Concat(b);
    } else {
      FrontStaysBare(m, b);
      TrimFrontOnly(a, m + Concat(b));
      TrimBackOnly(m, b);
    }
  }

  /** A slash belongs to no white space character, so what follows it does not make one with what precedes it. */
  lemma SlashBounds(a: string, b: string)
    ensures SpaceAtFront(a + "/" + b) == SpaceAtFront(a)
    ensures SpaceAtBack(a + "/" + b) == SpaceAtBack(b)
  {
    SlashAfter(a, b);
    SlashBefore(a, b);
  }

  lemma SlashAfter(a: string, b: string)
    ensures SpaceAtFront(a + "/" + b) == SpaceAtFront(a)
  {
    var s := a + "/" + b;
    assert s[|a|] == '/';
    assert forall i :: 0 <= i < |a| ==> s[i] == a[i];
  }

  lemma SlashBefore(a: string, b: string)
    ensures SpaceAtBack(a + "/" + b) == SpaceAtBack(b)
  {
    var s := a + "/" + b;
    var e, n := |s|, |b|;
    assert s[|a|] == '/';
    if n >= 1 { assert s[e - 1] == b[n - 1]; }
    if n >= 2 { assert s[e - 2] == b[n - 2]; }
    if n >= 3 { assert s[e - 3] == b[n - 3]; }
  }
}
