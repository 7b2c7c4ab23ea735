/** Validation of the mount target inside the container (internal/security/targetpath.go). */
module TargetPaths {
  import opened Results
  import opened Lexical

  const DENIED_EXACT: set<string> := {"/", "/proc", "/sys", "/dev"}

  const STATE_DIRECTORY := "kruise-agents-nfs-csi"

  const DENIED_PREFIXES: seq<string> := [
    "/proc/",
    "/sys/",
    "/dev/",
    "/run/secrets/",
    "/var/run/secrets/",
    "/etc/kubernetes/",
    "/etc/ssl/private/",
    "/root/.kube/",
    "/var/lib/kubelet/",
    "/var/lib/" + STATE_DIRECTORY + "/"
  ]

  const DENIED_FILES: set<string> := {"/etc/passwd", "/etc/shadow", "/etc/group"}

  predicate HasDeniedPrefix(cleaned: string) {
    exists i :: 0 <= i < |DENIED_PREFIXES| && (DENIED_PREFIXES[i] <= cleaned + "/" || DENIED_PREFIXES[i] <= cleaned)
  }

  function ValidateTargetPath(targetPath: string): Result<string> {
    if !NulFree(targetPath) then Err
    else if !IsAbs(targetPath) then Err
    else
      var cleaned := Clean(targetPath);
      if cleaned in DENIED_EXACT then Err
      else if cleaned in DENIED_FILES then Err
      else if HasDeniedPrefix(cleaned) then Err
      else Ok(cleaned)
  }

  /** The denied subtrees, as segment lists. */
  const DENIED_ROOTS: seq<seq<string>> := [
    ["proc"],
    ["sys"],
    ["dev"],
    ["run", "secrets"],
    ["var", "run", "secrets"],
    ["etc", "kubernetes"],
    ["etc", "ssl", "private"],
    ["root", ".kube"],
    ["var", "lib", "kubelet"],
    ["var", "lib", STATE_DIRECTORY]
  ]

  const DENIED_LEAVES: seq<seq<string>> := [["etc", "passwd"], ["etc", "shadow"], ["etc", "group"]]

  /** The verdict, said about the segments a target resolves to and nothing else. */
  ghost predicate AllowedStack(stack: seq<string>) {
    && stack != []
    && (forall i :: 0 <= i < |DENIED_ROOTS| ==> !(DENIED_ROOTS[i] <= stack))
    && (forall i :: 0 <= i < |DENIED_LEAVES| ==> DENIED_LEAVES[i] != stack)
  }

  function Absolute(segs: seq<string>): string { "/" + Join(segs) }

  ghost predicate Proper(segs: seq<string>) {
    AllSlashFree(segs) && forall i :: 0 <= i < |segs| ==> segs[i] != ""
  }

  lemma Pair(a: string, b: string)
    requires SlashFree(a) && SlashFree(b) && a != "" && b != ""
    ensures Proper([a, b]) && Absolute([a, b]) == "/" + a + "/" + b
  {
    assert [a, b][1..] == [b];
    assert Join([a, b]) == a + "/" + b;
  }

  lemma Triple(a: string, b: string, c: string)
    requires SlashFree(a) && SlashFree(b) && SlashFree(c) && a != "" && b != "" && c != ""
    ensures Proper([a, b, c]) && Absolute([a, b, c]) == "/" + a + "/" + b + "/" + c
  {
    assert [a, b, c][1..] == [b, c];
    Pair(b, c);
    assert "/" + (a + "/" + Join([b, c])) == "/" + a + Absolute([b, c]);
  }

  ghost predicate TableEntry(i: nat) {
    && i < |DENIED_PREFIXES| == |DENIED_ROOTS|
    && Proper(DENIED_ROOTS[i]) && DENIED_ROOTS[i] != []
    && DENIED_PREFIXES[i] == Absolute(DENIED_ROOTS[i]) + "/"
  }

  lemma ShortEntries()
    ensures TableEntry(0) && TableEntry(1) && TableEntry(2)
  {
  }

  lemma RunSecretsPairEntry()
    ensures TableEntry(3)
  {
    Pair("run", "secrets");
  }

  lemma KubernetesEntry()
    ensures TableEntry(5)
  {
    Pair("etc", "kubernetes");
  }

  lemma KubeEntry()
    ensures TableEntry(7)
  {
    Pair("root", ".kube");
  }

  lemma PairEntries()
    ensures TableEntry(3) && TableEntry(5) && TableEntry(7)
  {
    RunSecretsPairEntry();
    KubernetesEntry();
    KubeEntry();
  }

  lemma RunSecretsEntry()
    ensures TableEntry(4)
  {
    Triple("var", "run", "secrets");
  }

  lemma PrivateEntry()
    ensures TableEntry(6)
  {
    Triple("etc", "ssl", "private");
  }

  lemma KubeletEntry()
    ensures TableEntry(8)
  {
    Triple("var", "lib", "kubelet");
  }

  lemma StateDirectoryName()
    ensures SlashFree(STATE_DIRECTORY) && STATE_DIRECTORY != ""
  {
  }

  lemma StateEntry()
    ensures TableEntry(9)
  {
    var name := STATE_DIRECTORY;
    StateDirectoryName();
    Triple("var", "lib", name);
    assert "/" + "var" + "/" + "lib" + "/" == "/var/lib/";
    assert "/" + "var" + "/" + "lib" + "/" + name + "/" == "/var/lib/" + name + "/";
  }

  /** The string table and the segment table say the same. */
  lemma PrefixTable(i: nat)
    requires i < |DENIED_PREFIXES|
    ensures TableEntry(i)
  {
    ShortEntries();
    PairEntries();
    RunSecretsEntry();
    PrivateEntry();
    KubeletEntry();
    StateEntry();
    assert i == 0 || i == 1 || i == 2 || i == 3 || i == 4 || i == 5 || i == 6 || i == 7 || i == 8 || i == 9;
  }

  lemma FileTable()
    ensures |DENIED_LEAVES| == 3
    ensures forall i :: 0 <= i < |DENIED_LEAVES| ==> Proper(DENIED_LEAVES[i]) && DENIED_LEAVES[i] != []
    ensures Absolute(DENIED_LEAVES[0]) == "/etc/passwd"
    ensures Absolute(DENIED_LEAVES[1]) == "/etc/shadow"
    ensures Absolute(DENIED_LEAVES[2]) == "/etc/group"
  {
    Pair("etc", "passwd");
    Pair("etc", "shadow");
    Pair("etc", "group");
  }

  lemma AbsoluteInjective(a: seq<string>, b: seq<string>)
    requires Proper(a) && Proper(b) && Absolute(a) == Absolute(b)
    ensures a == b
  {
    assert Join(a) == Absolute(a)[1..];
    assert Join(b) == Absolute(b)[1..];
    if a == [] || b == [] {
      assert forall x :: x in a ==> x != "";
      assert forall x :: x in b ==> x != "";
      JoinEmpty(a);
      JoinEmpty(b);
    } else {
      SplitJoin(a);
      SplitJoin(b);
    }
  }

  /** Up to their first slash, two strings with a common prefix agree. */
  lemma FirstSegment(a: string, x: string, b: string, y: string)
    requires SlashFree(a) && SlashFree(b)
    requires a + "/" + x <= b + "/" + y
    ensures a == b && x <= y
  {
    var s, t := a + "/" + x, b + "/" + y;
    assert s[|a|] == '/' && t[|b|] == '/';
    assert forall i :: 0 <= i < |a| ==> s[i] == a[i] && a[i] in a;
    assert forall i :: 0 <= i < |b| ==> t[i] == b[i] && b[i] in b;
    assert t[|a|] == '/';
    assert |a| == |b|;
    assert a == s[..|a|] == t[..|a|] == b;
    assert x == s[|a| + 1..] && y == t[|a| + 1..];
  }

  /** "d/" is a string prefix of "s/" exactly when d is a segment prefix of s. */
  lemma {:induction false} SegmentPrefix(d: seq<string>, s: seq<string>)
    requires Proper(d) && Proper(s) && d != [] && s != []
    ensures Join(d) + "/" <= Join(s) + "/" <==> d <= s
    decreases |d|
  {
    var dTail := if |d| == 1 then "" else Join(d[1..]) + "/";
    var sTail := if |s| == 1 then "" else Join(s[1..]) + "/";
    assert Join(d) + "/" == d[0] + "/" + dTail;
    assert Join(s) + "/" == s[0] + "/" + sTail;
    if Join(d) + "/" <= Join(s) + "/" {
      FirstSegment(d[0], dTail, s[0], sTail);
      if |d| > 1 && |s| > 1 {
        SegmentPrefix(d[1..], s[1..]);
        assert d == [d[0]] + d[1..] && s == [s[0]] + s[1..];
      }
    }
    if d <= s {
      assert d[0] == s[0];
      if |d| > 1 {
        assert d[1..] <= s[1..];
        SegmentPrefix(d[1..], s[1..]);
      }
      assert dTail <= sTail;
    }
  }

  lemma PrefixTail(x: string, y: string)
    ensures "/" + x <= "/" + y <==> x <= y
  {
    assert ("/" + x)[1..] == x && ("/" + y)[1..] == y;
  }

  /** A cleaned absolute name has a denied prefix exactly when it is at or below a denied root. */
  lemma DeniedPrefixMeans(stack: seq<string>)
    requires Proper(stack) && stack != []
    ensures HasDeniedPrefix(Absolute(stack)) <==>
            exists i :: 0 <= i < |DENIED_ROOTS| && DENIED_ROOTS[i] <= stack
  {
    var cleaned := Absolute(stack);
    forall i | 0 <= i < |DENIED_PREFIXES|
      ensures |DENIED_ROOTS| == |DENIED_PREFIXES|
      ensures (DENIED_PREFIXES[i] <= cleaned + "/" || DENIED_PREFIXES[i] <= cleaned) <==> DENIED_ROOTS[i] <= stack
    {
      PrefixTable(i);
      var d := DENIED_ROOTS[i];
      SegmentPrefix(d, stack);
      assert cleaned + "/" == "/" + (Join(stack) + "/");
      assert DENIED_PREFIXES[i] == "/" + (Join(d) + "/");
      PrefixTail(Join(d) + "/", Join(stack) + "/");
      assert DENIED_PREFIXES[i] <= cleaned ==> DENIED_PREFIXES[i] <= cleaned + "/";
    }
    PrefixTable(0);
  }

  lemma ExactAreRoots(stack: seq<string>)
    requires Proper(stack)
    ensures Absolute(stack) in DENIED_EXACT <==>
            stack == [] || stack == ["proc"] || stack == ["sys"] || stack == ["dev"]
  {
    assert Absolute([]) == "/" && Absolute(["proc"]) == "/proc" && Absolute(["sys"]) == "/sys"
      && Absolute(["dev"]) == "/dev";
    if Absolute(stack) == "/" { AbsoluteInjective(stack, []); }
    if Absolute(stack) == "/proc" { AbsoluteInjective(stack, ["proc"]); }
    if Absolute(stack) == "/sys" { AbsoluteInjective(stack, ["sys"]); }
    if Absolute(stack) == "/dev" { AbsoluteInjective(stack, ["dev"]); }
  }

  lemma FilesAreLeaves(stack: seq<string>)
    requires Proper(stack)
    ensures Absolute(stack) in DENIED_FILES <==> exists i :: 0 <= i < |DENIED_LEAVES| && DENIED_LEAVES[i] == stack
  {
    FileTable();
    if Absolute(stack) == "/etc/passwd" { AbsoluteInjective(stack, DENIED_LEAVES[0]); }
    if Absolute(stack) == "/etc/shadow" { AbsoluteInjective(stack, DENIED_LEAVES[1]); }
    if Absolute(stack) == "/etc/group" { AbsoluteInjective(stack, DENIED_LEAVES[2]); }
    if Absolute(stack) in DENIED_FILES {
      assert stack == DENIED_LEAVES[0] || stack == DENIED_LEAVES[1] || stack == DENIED_LEAVES[2];
    }
  }

  /**
    The verdict and the output depend on the resolved segments alone: a NUL-free
    absolute target is accepted exactly when it is not the root, not at or below
    a denied subtree and not a denied file.
  */
  lemma VerdictIsLexical(t: string)
    ensures ValidateTargetPath(t) ==
            if NulFree(t) && IsAbs(t) && AllowedStack(Stack(t)) then Ok(Absolute(Stack(t))) else Err
  {
    if NulFree(t) && IsAbs(t) {
      var stack := Stack(t);
      StackReduced(t);
      assert Proper(stack);
      ExactAreRoots(stack);
      FilesAreLeaves(stack);
      if stack != [] {
        DeniedPrefixMeans(stack);
        if stack == ["proc"] { assert DENIED_ROOTS[0] <= stack; }
        if stack == ["sys"] { assert DENIED_ROOTS[1] <= stack; }
        if stack == ["dev"] { assert DENIED_ROOTS[2] <= stack; }
      }
    }
  }

  /** Two absolute NUL-free spellings of one resolved target get one answer. */
  lemma SpellingIrrelevant(t: string, u: string)
    requires NulFree(t) && NulFree(u) && IsAbs(t) && IsAbs(u) && Stack(t) == Stack(u)
    ensures ValidateTargetPath(t) == ValidateTargetPath(u)
  {
    VerdictIsLexical(t);
    VerdictIsLexical(u);
  }

  lemma {:induction false} ResolveNulFree(rooted: bool, stack: seq<string>, segs: seq<string>)
    requires AllNulFree(stack) && AllNulFree(segs)
    ensures AllNulFree(Resolve(rooted, stack, segs))
    decreases |segs|
  {
    if segs != [] {
      var next := Push(rooted, stack, segs[0]);
      assert NulFree(segs[0]);
      assert AllNulFree(next);
      ResolveNulFree(rooted, next, segs[1..]);
    }
  }

  /** An accepted output resolves to the same segments, none of them "", "." or "..", and is a fixed point. */
  lemma OutputIsFixed(t: string)
    requires ValidateTargetPath(t).Ok?
    ensures var out := ValidateTargetPath(t).value;
            && ValidateTargetPath(out) == Ok(out)
            && Stack(out) == Stack(t)
            && AllowedStack(Stack(out))
            && forall i :: 0 <= i < |Stack(out)| ==> Names(Stack(out)[i]) && Stack(out)[i] != ".."
  {
    var out := ValidateTargetPath(t).value;
    VerdictIsLexical(t);
    StackReduced(t);
    StackOfRootedJoin(Stack(t));
    SplitNulFree(t);
    ResolveNulFree(true, [], Split(t));
    JoinNulFree(Stack(t));
    assert NulFree(out);
    VerdictIsLexical(out);
  }
}
