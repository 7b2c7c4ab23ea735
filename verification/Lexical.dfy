/**
  Slash-separated names: splitting, joining and lexical cleaning.

  A name is cleaned by running its segments through a stack: empty and "."
  segments are skipped, ".." pops the segment before it, and at the root ".."
  has nothing to pop. These are the rules of "Lexical File Names in Plan 9",
  which define Go's path.Clean.
*/
module Lexical {

  predicate SlashFree(s: string) { '/' !in s }

  predicate NulFree(s: string) { '\0' !in s }

  predicate AllSlashFree(segs: seq<string>) { forall i :: 0 <= i < |segs| ==> SlashFree(segs[i]) }

  predicate AllNulFree(segs: seq<string>) { forall i :: 0 <= i < |segs| ==> NulFree(segs[i]) }

  /** strings.Split(s, "/"): always at least one segment. */
  function Split(s: string): (segs: seq<string>)
    ensures |segs| >= 1
    ensures AllSlashFree(segs)
  {
    if s == "" then [""]
    else
      var rest := Split(s[1..]);
      if s[0] == '/' then [""] + rest
      else [[s[0]] + rest[0]] + rest[1..]
  }

  function Join(segs: seq<string>): string {
    if |segs| == 0 then ""
    else if |segs| == 1 then segs[0]
    else segs[0] + "/" + Join(segs[1..])
  }

  /** A segment that names something, rather than "" or ".". */
  predicate Names(seg: string) { seg != "" && seg != "." }

  /** The segments of a list that name something, in order. */
  function Kept(segs: seq<string>): (kept: seq<string>)
    ensures forall x :: x in kept <==> x in segs && Names(x)
    ensures AllSlashFree(segs) ==> AllSlashFree(kept)
  {
    if segs == [] then []
    else if Names(segs[0]) then [segs[0]] + Kept(segs[1..])
    else Kept(segs[1..])
  }

  /** The naming segments of a string. */
  function Segments(s: string): seq<string> { Kept(Split(s)) }

  /** One step of lexical resolution. */
  function Push(rooted: bool, stack: seq<string>, seg: string): seq<string> {
    if !Names(seg) then stack
    else if seg != ".." then stack + [seg]
    else if stack != [] && stack[|stack| - 1] != ".." then stack[..|stack| - 1]
    else if rooted then stack
    else stack + [".."]
  }

  function Resolve(rooted: bool, stack: seq<string>, segs: seq<string>): seq<string>
    decreases |segs|
  {
    if segs == [] then stack else Resolve(rooted, Push(rooted, stack, segs[0]), segs[1..])
  }

  predicate IsAbs(s: string) { s != "" && s[0] == '/' }

  /** The segment stack a string resolves to. */
  function Stack(s: string): seq<string> { Resolve(IsAbs(s), [], Split(s)) }

  function Clean(s: string): string {
    var stack := Stack(s);
    if IsAbs(s) then "/" + Join(stack)
    else if stack == [] then "."
    else Join(stack)
  }

  // ----- splitting and joining -----

  lemma Assoc<T>(a: seq<T>, b: seq<T>, c: seq<T>)
    ensures a + (b + c) == (a + b) + c
  {
  }

  lemma {:induction false} SplitSlashFree(s: string)
    requires SlashFree(s)
    ensures Split(s) == [s]
  {
    if s != "" {
      SplitSlashFree(s[1..]);
      assert [s[0]] + s[1..] == s;
    }
  }

  lemma {:induction false} SplitAt(a: string, b: string)
    ensures Split(a + "/" + b) == Split(a) + Split(b)
  {
    if a == "" {
      assert a + "/" + b == "/" + b;
      assert ("/" + b)[1..] == b;
    } else {
      SplitAt(a[1..], b);
      var s, rest := a + "/" + b, Split(a[1..]);
      assert s[0] == a[0] && s[1..] == a[1..] + "/" + b;
      if a[0] == '/' {
        Assoc([""], rest, Split(b));
      } else {
        assert (rest + Split(b))[0] == rest[0] && (rest + Split(b))[1..] == rest[1..] + Split(b);
        Assoc([[a[0]] + rest[0]], rest[1..], Split(b));
      }
    }
  }

  lemma {:induction false} SplitJoin(segs: seq<string>)
    requires segs != [] && AllSlashFree(segs)
    ensures Split(Join(segs)) == segs
  {
    SplitSlashFree(segs[0]);
    if |segs| > 1 {
      SplitJoin(segs[1..]);
      SplitAt(segs[0], Join(segs[1..]));
    }
  }

  lemma {:induction false} JoinSplit(s: string)
    ensures Join(Split(s)) == s
  {
    if s != "" {
      JoinSplit(s[1..]);
      var rest := Split(s[1..]);
      if s[0] == '/' {
        assert ([""] + rest)[1..] == rest;
        assert "" + "/" + Join(rest) == s;
      } else {
        var segs := [[s[0]] + rest[0]] + rest[1..];
        assert segs[1..] == rest[1..];
        assert [s[0]] + s[1..] == s;
        if |rest| > 1 {
          assert [s[0]] + (rest[0] + "/" + Join(rest[1..])) == [s[0]] + rest[0] + "/" + Join(rest[1..]);
        }
      }
    }
  }

  lemma {:induction false} KeptAppend(a: seq<string>, b: seq<string>)
    ensures Kept(a + b) == Kept(a) + Kept(b)
  {
    if a == [] {
      assert a + b == b;
    } else {
      KeptAppend(a[1..], b);
      assert (a + b)[0] == a[0] && (a + b)[1..] == a[1..] + b;
      Assoc([a[0]], Kept(a[1..]), Kept(b));
    }
  }

  lemma {:induction false} KeptIdentity(segs: seq<string>)
    requires forall x :: x in segs ==> Names(x)
    ensures Kept(segs) == segs
  {
    if segs != [] {
      KeptIdentity(segs[1..]);
      assert [segs[0]] + segs[1..] == segs;
    }
  }

  lemma SegmentsAt(a: string, b: string)
    ensures Segments(a + "/" + b) == Segments(a) + Segments(b)
  {
    SplitAt(a, b);
    KeptAppend(Split(a), Split(b));
  }

  /** Reading back a join of naming segments gives those segments. */
  lemma SegmentsJoin(segs: seq<string>)
    requires AllSlashFree(segs) && forall x :: x in segs ==> Names(x)
    ensures Segments(Join(segs)) == segs
  {
    if segs != [] {
      SplitJoin(segs);
      KeptIdentity(segs);
    }
  }

  lemma {:induction false} JoinEmpty(segs: seq<string>)
    requires forall x :: x in segs ==> x != ""
    ensures Join(segs) == "" <==> segs == []
  {
    if segs != [] {
      assert segs[0] in segs;
    }
  }

  lemma {:induction false} JoinHead(segs: seq<string>)
    requires segs != [] && SlashFree(segs[0]) && segs[0] != ""
    ensures Join(segs) != "" && Join(segs)[0] == segs[0][0] && !IsAbs(Join(segs))
  {
  }

  lemma {:induction false} JoinMember(segs: seq<string>, c: char)
    requires c != '/'
    ensures c in Join(segs) <==> exists i :: 0 <= i < |segs| && c in segs[i]
  {
    if |segs| > 1 {
      JoinMember(segs[1..], c);
      if c in Join(segs[1..]) {
        var j :| 0 <= j < |segs[1..]| && c in segs[1..][j];
        assert c in segs[j + 1];
      }
      if i :| 0 <= i < |segs| && c in segs[i] {
        if i > 0 { assert c in segs[1..][i - 1]; }
      }
    } else if |segs| == 1 {
      assert c in Join(segs) <==> c in segs[0];
    }
  }

  lemma SplitMember(s: string, c: char)
    requires c != '/'
    ensures c in s <==> exists i :: 0 <= i < |Split(s)| && c in Split(s)[i]
  {
    JoinSplit(s);
    JoinMember(Split(s), c);
  }

  lemma SplitNulFree(s: string)
    ensures NulFree(s) <==> AllNulFree(Split(s))
  {
    SplitMember(s, '\0');
  }

  lemma JoinNulFree(segs: seq<string>)
    ensures NulFree(Join(segs)) <==> AllNulFree(segs)
  {
    JoinMember(segs, '\0');
  }

  // ----- resolution -----

  /** What resolution leaves: naming segments, with ".." only in front and never at the root. */
  ghost predicate Reduced(rooted: bool, stack: seq<string>) {
    && AllSlashFree(stack)
    && (forall i :: 0 <= i < |stack| ==> Names(stack[i]))
    && (forall i :: 0 <= i < |stack| && stack[i] == ".." ==> !rooted && forall j :: 0 <= j < i ==> stack[j] == "..")
  }

  lemma PushReduced(rooted: bool, stack: seq<string>, seg: string)
    requires Reduced(rooted, stack) && SlashFree(seg)
    ensures Reduced(rooted, Push(rooted, stack, seg))
  {
    if seg == ".." && !rooted && (stack == [] || stack[|stack| - 1] == "..") {
      assert forall j :: 0 <= j < |stack| ==> stack[j] == "..";
    }
  }

  lemma {:induction false} ResolveReduced(rooted: bool, stack: seq<string>, segs: seq<string>)
    requires Reduced(rooted, stack) && AllSlashFree(segs)
    ensures Reduced(rooted, Resolve(rooted, stack, segs))
    decreases |segs|
  {
    if segs != [] {
      PushReduced(rooted, stack, segs[0]);
      ResolveReduced(rooted, Push(rooted, stack, segs[0]), segs[1..]);
    }
  }

  lemma StackReduced(s: string)
    ensures Reduced(IsAbs(s), Stack(s))
  {
    ResolveReduced(IsAbs(s), [], Split(s));
  }

  /** Resolution does nothing to a reduced tail. */
  lemma {:induction false} ResolveFixed(rooted: bool, stack: seq<string>, segs: seq<string>)
    requires Reduced(rooted, stack + segs)
    ensures Resolve(rooted, stack, segs) == stack + segs
    decreases |segs|
  {
    if segs == [] {
      assert stack + segs == stack;
    } else {
      var all := stack + segs;
      assert all[|stack|] == segs[0];
      if segs[0] == ".." && stack != [] {
        assert all[|stack| - 1] == "..";
      }
      assert Push(rooted, stack, segs[0]) == stack + [segs[0]];
      assert (stack + [segs[0]]) + segs[1..] == all;
      ResolveFixed(rooted, stack + [segs[0]], segs[1..]);
    }
  }

  lemma ResolveSkips(rooted: bool, segs: seq<string>)
    requires segs != [] && segs[0] == ""
    ensures Resolve(rooted, [], segs) == Resolve(rooted, [], segs[1..])
  {
  }

  /** Without "..", resolution only drops the segments that name nothing. */
  lemma {:induction false} ResolvePlain(rooted: bool, stack: seq<string>, segs: seq<string>)
    requires ".." !in segs
    ensures Resolve(rooted, stack, segs) == stack + Kept(segs)
    decreases |segs|
  {
    if segs == [] {
      assert stack + Kept(segs) == stack;
    } else {
      ResolvePlain(rooted, Push(rooted, stack, segs[0]), segs[1..]);
      if Names(segs[0]) {
        assert (stack + [segs[0]]) + Kept(segs[1..]) == stack + ([segs[0]] + Kept(segs[1..]));
      }
    }
  }

  lemma {:induction false} ResolveAppend(rooted: bool, stack: seq<string>, a: seq<string>, b: seq<string>)
    ensures Resolve(rooted, stack, a + b) == Resolve(rooted, Resolve(rooted, stack, a), b)
    decreases |a|
  {
    if a == [] {
      assert a + b == b;
    } else {
      assert (a + b)[0] == a[0] && (a + b)[1..] == a[1..] + b;
      ResolveAppend(rooted, Push(rooted, stack, a[0]), a[1..], b);
    }
  }

  lemma ResolveOne(rooted: bool, stack: seq<string>, x: string)
    ensures Resolve(rooted, stack, [x]) == Push(rooted, stack, x)
  {
    assert [x][1..] == [];
  }

  lemma ResolveTwo(rooted: bool, stack: seq<string>, x: string, y: string)
    ensures Resolve(rooted, stack, [x, y]) == Push(rooted, Push(rooted, stack, x), y)
  {
    assert [x, y][1..] == [y];
    ResolveOne(rooted, Push(rooted, stack, x), y);
  }

  /**
    The rules of path.Clean, anywhere in a path: an empty segment and "." can go,
    a name goes with the ".." after it, and ".." at the root goes. What no rule
    applies to is reduced, and a reduced path resolves to itself (ResolveFixed).
  */
  lemma CleanRules(rooted: bool, a: seq<string>, x: string, b: seq<string>)
    requires Names(x) && x != ".."
    ensures Resolve(rooted, [], a + [""] + b) == Resolve(rooted, [], a + b)
    ensures Resolve(rooted, [], a + ["."] + b) == Resolve(rooted, [], a + b)
    ensures Resolve(rooted, [], a + [x, ".."] + b) == Resolve(rooted, [], a + b)
    ensures Resolve(true, [], [".."] + b) == Resolve(true, [], b)
  {
    var stack := Resolve(rooted, [], a);
    ResolveAppend(rooted, [], a, b);
    SegmentsGo(rooted, a, [""], b);
    ResolveOne(rooted, stack, "");
    SegmentsGo(rooted, a, ["."], b);
    ResolveOne(rooted, stack, ".");
    SegmentsGo(rooted, a, [x, ".."], b);
    ResolveTwo(rooted, stack, x, "..");
    ResolveAppend(true, [], [".."], b);
    ResolveOne(true, [], "..");
  }

  lemma SegmentsGo(rooted: bool, a: seq<string>, middle: seq<string>, b: seq<string>)
    ensures Resolve(rooted, [], a + middle + b) ==
            Resolve(rooted, Resolve(rooted, Resolve(rooted, [], a), middle), b)
  {
    ResolveAppend(rooted, [], a + middle, b);
    ResolveAppend(rooted, [], a, middle);
  }

  lemma StackOfRootedJoin(stack: seq<string>)
    requires Reduced(true, stack)
    ensures Stack("/" + Join(stack)) == stack
  {
    var s := "/" + Join(stack);
    SplitAt("", Join(stack));
    assert "" + "/" + Join(stack) == s;
    assert Split("") == [""];
    assert Split(s)[1..] == Split(Join(stack));
    ResolveSkips(true, Split(s));
    if stack == [] {
      assert Resolve(true, [], [""]) == [];
    } else {
      SplitJoin(stack);
      assert [] + stack == stack;
      ResolveFixed(true, [], stack);
    }
  }

  lemma StackOfRelativeJoin(stack: seq<string>)
    requires Reduced(false, stack) && stack != []
    ensures !IsAbs(Join(stack)) && Stack(Join(stack)) == stack
  {
    JoinHead(stack);
    SplitJoin(stack);
    assert [] + stack == stack;
    ResolveFixed(false, [], stack);
  }

  /** Cleaning keeps the resolved stack, so it is idempotent. */
  lemma CleanStack(s: string)
    ensures IsAbs(Clean(s)) == IsAbs(s)
    ensures Stack(Clean(s)) == Stack(s)
    ensures Clean(Clean(s)) == Clean(s)
  {
    StackReduced(s);
    if IsAbs(s) {
      StackOfRootedJoin(Stack(s));
    } else if Stack(s) == [] {
      assert Split(".") == ["."] by { SplitSlashFree("."); }
      assert Stack(".") == [];
    } else {
      StackOfRelativeJoin(Stack(s));
    }
  }
}
