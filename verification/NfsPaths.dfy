/**
  The NFS side of a mount plan: the PV's subDir (internal/node/nfspath.go), the
  remote path handed to the kernel (mountNFS in internal/node/mounter_linux.go)
  and the export-root test that decides whether a key is needed.
*/
module NfsPaths {
  import opened Results
  import opened Lexical
  import opened WhiteSpace
  import SourceSubPaths

  datatype PersistentVolume = PersistentVolume(
    name: string,
    volumeHandle: string,
    server: string,
    share: string,
    subDir: string,
    mountOptions: seq<string>)

  datatype MountPlan = MountPlan(
    pv: PersistentVolume,
    podUID: string,
    containerName: string,
    containerID: string,
    sourceSubPath: string,
    targetPath: string)

  function TrimLeft(s: string, drop: char -> bool): string {
    if s != "" && drop(s[0]) then TrimLeft(s[1..], drop) else s
  }

  function TrimRight(s: string, drop: char -> bool): string {
    if s != "" && drop(s[|s| - 1]) then TrimRight(s[..|s| - 1], drop) else s
  }

  predicate IsSlash(c: char) { c == '/' }

  function NormalizeNFSSubDir(value: string): Result<string> {
    var value := TrimSpace(value);
    if !NulFree(value) then Err
    else if ".." in Split(value) then Err
    else
      var cleaned := Clean("/" + TrimLeft(value, IsSlash));
      if cleaned == "/" then Ok("") else Ok(cleaned[1..])
  }

  predicate IsNFSExportRoot(plan: MountPlan) { plan.pv.subDir == "" && plan.sourceSubPath == "" }

  /** The path part of the NFS source that mountNFS builds. */
  function RemotePath(pv: PersistentVolume): string {
    if pv.subDir != "" && pv.subDir != "/" then
      TrimRight(pv.share, IsSlash) + "/" + TrimLeft(pv.subDir, IsSlash)
    else pv.share
  }

  // ----- trimming -----

  lemma {:induction false} SegmentsTrimLeft(s: string)
    ensures Segments(TrimLeft(s, IsSlash)) == Segments(s)
    ensures ".." in Split(TrimLeft(s, IsSlash)) <==> ".." in Split(s)
    ensures TrimLeft(s, IsSlash) == "" || TrimLeft(s, IsSlash)[0] != '/'
  {
    if s != "" && IsSlash(s[0]) {
      SegmentsTrimLeft(s[1..]);
      assert Split(s) == [""] + Split(s[1..]);
      assert Split(s)[1..] == Split(s[1..]);
    }
  }

  lemma {:induction false} SegmentsTrimRight(s: string)
    ensures Segments(TrimRight(s, IsSlash)) == Segments(s)
  {
    if s != "" && IsSlash(s[|s| - 1]) {
      var front := s[..|s| - 1];
      SegmentsTrimRight(front);
      assert s == front + "/" + "";
      SegmentsAt(front, "");
      assert Segments("") == [];
    }
  }

  // ----- normalization -----

  /** A subDir is accepted exactly when, trimmed, it has no NUL and no ".."; the output joins its segments. */
  lemma NormalizeMeans(value: string)
    ensures var v := TrimSpace(value);
            NormalizeNFSSubDir(value) ==
            if NulFree(v) && ".." !in Split(v) then Ok(Join(Segments(v))) else Err
  {
    var v := TrimSpace(value);
    if NulFree(v) && ".." !in Split(v) {
      var t := TrimLeft(v, IsSlash);
      SegmentsTrimLeft(v);
      var s := "/" + t;
      SplitAt("", t);
      assert s == "" + "/" + t;
      assert Split("") == [""];
      assert Split(s)[1..] == Split(t);
      assert ".." !in Split(s);
      ResolvePlain(true, [], Split(s));
      assert [] + Kept(Split(s)) == Kept(Split(s));
      assert Stack(s) == Segments(v);
      assert Clean(s)[1..] == Join(Segments(v));
      JoinEmpty(Segments(v));
    }
  }

  lemma {:induction false} KeptShorter(segs: seq<string>)
    ensures |Join(Kept(segs))| <= |Join(segs)|
    ensures Kept(segs) != [] && !Names(segs[0]) ==> |Join(Kept(segs))| < |Join(segs)|
  {
    if |segs| > 1 {
      KeptShorter(segs[1..]);
    } else if |segs| == 1 {
      assert Kept(segs[1..]) == [];
    }
  }

  lemma SpacedSegments()
    ensures Segments("/ a") == [" a"] && Split("/ a") == ["", " a"]
  {
    SplitAt("", " a");
    assert "" + "/" + " a" == "/ a";
    SplitSlashFree(" a");
    assert Split("") == [""];
    assert ["", " a"][1..] == [" a"];
    assert [" a"][1..] == [];
  }

  lemma SpacedTrims()
    ensures TrimSpace("/ a") == "/ a" && TrimSpace(" a") == "a"
  {
    TrimSpaceLength("/ a");
    assert " a"[1..] == "a";
    assert TrimFront("a") == "a";
  }

  /** " a" is the output for "/ a", and normalizing it again gives "a". */
  lemma NormalizeNotIdempotent()
    ensures NormalizeNFSSubDir("/ a") == Ok(" a")
    ensures NormalizeNFSSubDir(" a") == Ok("a")
  {
    SpacedTrims();
    NormalizeMeans("/ a");
    SpacedSegments();
    assert NulFree("/ a") && ".." !in Split("/ a");
    NormalizeMeans(" a");
    SplitSlashFree("a");
    assert ["a"][1..] == [];
    assert Segments("a") == ["a"];
  }

  lemma {:induction false} JoinLast(segs: seq<string>)
    requires |segs| > 1
    ensures Join(segs) == Join(segs[..|segs| - 1]) + "/" + segs[|segs| - 1]
  {
    var init, last := segs[..|segs| - 1], segs[|segs| - 1];
    assert init[0] == segs[0];
    if |segs| == 2 {
      assert segs[1..] == [last];
    } else {
      JoinLast(segs[1..]);
      assert segs[1..][..|segs| - 2] == init[1..];
      var a, b, c := segs[0] + "/", Join(init[1..]), "/" + last;
      Assoc(a, b, c);
      assert Join(init[1..]) + "/" + last == b + c;
      assert Join(init) + "/" + last == (a + b) + c;
    }
  }

  /** White space at the ends of a join is white space at the start of its first segment or the end of its last. */
  lemma JoinBounds(segs: seq<string>)
    requires segs != []
    ensures SpaceAtFront(Join(segs)) == SpaceAtFront(segs[0])
    ensures SpaceAtBack(Join(segs)) == SpaceAtBack(segs[|segs| - 1])
  {
    if |segs| > 1 {
      SlashBounds(segs[0], Join(segs[1..]));
      JoinLast(segs);
      SlashBounds(Join(segs[..|segs| - 1]), segs[|segs| - 1]);
    }
  }

  /** Neither the first segment starts nor the last one ends with white space. */
  predicate BareEnds(segs: seq<string>) {
    segs == [] || (SpaceAtFront(segs[0]) == 0 && SpaceAtBack(segs[|segs| - 1]) == 0)
  }

  lemma BareJoin(segs: seq<string>)
    ensures TrimSpace(Join(segs)) == Join(segs) <==> BareEnds(segs)
    ensures |TrimSpace(Join(segs))| == |Join(segs)| <==> BareEnds(segs)
  {
    TrimSpaceLength(Join(segs));
    if segs != [] { JoinBounds(segs); }
  }

  /**
    Exactly when cleaning a subDir a second time changes nothing: when the value
    that is cleaned, trimmed, neither starts its first segment nor ends its last
    with white space.
  */
  lemma NormalizeFixedIffBare(value: string)
    requires NormalizeNFSSubDir(value).Ok?
    ensures var out := NormalizeNFSSubDir(value).value;
            NormalizeNFSSubDir(out) == Ok(out) <==> BareEnds(Segments(TrimSpace(value)))
  {
    NormalizeMeans(value);
    var v := TrimSpace(value);
    var segs := Segments(v);
    var out := Join(segs);
    NormalizeMeans(out);
    BareJoin(segs);
    if BareEnds(segs) {
      JoinedAgain(v);
    } else {
      var w := TrimSpace(out);
      TrimSpaceLength(out);
      KeptShorter(Split(w));
      JoinSplit(w);
    }
  }

  /** The join of a string's segments has those segments, and no NUL or ".." that the string has not. */
  lemma JoinedAgain(v: string)
    requires NulFree(v) && ".." !in Split(v)
    ensures var out := Join(Segments(v));
            Segments(out) == Segments(v) && NulFree(out) && ".." !in Split(out)
  {
    var segs := Segments(v);
    var out := Join(segs);
    SegmentsJoin(segs);
    SplitNulFree(v);
    SplitNulFree(out);
    if segs == [] {
      assert Split(out) == [""];
    } else {
      SplitJoin(segs);
      forall i | 0 <= i < |segs|
        ensures NulFree(segs[i])
      {
        assert segs[i] in segs;
        assert segs[i] in Split(v);
      }
    }
  }

  // ----- root classification -----

  /** The directory a plan mounts, as segments below the server's root. */
  function EffectiveSegments(plan: MountPlan): seq<string> {
    Segments(RemotePath(plan.pv)) + Segments(plan.sourceSubPath)
  }

  /** What a PV's raw subDir and a request's raw sub-path add below the share. */
  function AddedSegments(rawSubDir: string, rawSubPath: string): seq<string> {
    Segments(TrimSpace(rawSubDir)) + Segments(rawSubPath)
  }

  /**
    A plan built from normalized parts mounts the share's segments followed by
    the segments its PV and its request added, none of them ".."; it is an
    export-root plan exactly when they added nothing.
  */
  lemma RootClassificationExact(plan: MountPlan, rawSubDir: string, rawSubPath: string)
    requires NormalizeNFSSubDir(rawSubDir) == Ok(plan.pv.subDir)
    requires SourceSubPaths.ValidateSourceSubPath(rawSubPath) == Ok(plan.sourceSubPath)
    ensures EffectiveSegments(plan) == Segments(plan.pv.share) + AddedSegments(rawSubDir, rawSubPath)
    ensures ".." !in AddedSegments(rawSubDir, rawSubPath)
    ensures IsNFSExportRoot(plan) <==> AddedSegments(rawSubDir, rawSubPath) == []
  {
    var dirSegs := Segments(TrimSpace(rawSubDir));
    var pathSegs := Segments(rawSubPath);
    SubDirSegments(rawSubDir);
    SubPathSegments(rawSubPath);
    Classify(plan, dirSegs, pathSegs);
  }

  lemma Classify(plan: MountPlan, dirSegs: seq<string>, pathSegs: seq<string>)
    requires AllSlashFree(dirSegs) && forall x :: x in dirSegs ==> Names(x)
    requires plan.pv.subDir == Join(dirSegs) && (plan.pv.subDir == "" <==> dirSegs == [])
    requires Segments(plan.sourceSubPath) == pathSegs && (plan.sourceSubPath == "" <==> pathSegs == [])
    ensures EffectiveSegments(plan) == Segments(plan.pv.share) + (dirSegs + pathSegs)
    ensures IsNFSExportRoot(plan) <==> dirSegs + pathSegs == []
  {
    RemoteSegments(plan.pv, dirSegs);
    Concatenation(Segments(plan.pv.share), dirSegs, pathSegs);
  }

  lemma Concatenation(a: seq<string>, b: seq<string>, c: seq<string>)
    ensures (a + b) + c == a + (b + c) && (b + c == [] <==> b == [] && c == [])
  {
    assert |b + c| == |b| + |c|;
  }

  lemma SubDirSegments(rawSubDir: string)
    requires NormalizeNFSSubDir(rawSubDir).Ok?
    ensures var out, segs := NormalizeNFSSubDir(rawSubDir).value, Segments(TrimSpace(rawSubDir));
            && out == Join(segs) && ".." !in segs && (out == "" <==> segs == [])
            && AllSlashFree(segs) && forall x :: x in segs ==> Names(x)
  {
    NormalizeMeans(rawSubDir);
    JoinEmpty(Segments(TrimSpace(rawSubDir)));
  }

  lemma SubPathSegments(rawSubPath: string)
    requires SourceSubPaths.ValidateSourceSubPath(rawSubPath).Ok?
    ensures var out, segs := SourceSubPaths.ValidateSourceSubPath(rawSubPath).value, Segments(rawSubPath);
            Segments(out) == segs && ".." !in segs && (out == "" <==> segs == [])
  {
    SourceSubPaths.ParsersAgree(rawSubPath);
    SourceSubPaths.OutputIsFixed(rawSubPath);
    JoinEmpty(Segments(rawSubPath));
  }

  lemma RemoteSegments(pv: PersistentVolume, dirSegs: seq<string>)
    requires AllSlashFree(dirSegs) && (forall x :: x in dirSegs ==> Names(x)) && pv.subDir == Join(dirSegs)
    ensures Segments(RemotePath(pv)) == Segments(pv.share) + dirSegs
  {
    SegmentsJoin(dirSegs);
    if dirSegs == [] {
      assert Segments(pv.share) + dirSegs == Segments(pv.share);
    } else {
      assert dirSegs[0] in dirSegs;
      JoinHead(dirSegs);
      SegmentsAt(TrimRight(pv.share, IsSlash), TrimLeft(pv.subDir, IsSlash));
      SegmentsTrimRight(pv.share);
      SegmentsTrimLeft(pv.subDir);
    }
  }
}
