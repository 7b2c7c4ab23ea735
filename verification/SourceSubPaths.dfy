/**
  The two parsers of a request's source sub-path. The API side cleans the whole
  string (internal/security/subpath.go); the node side cuts it into the
  segments of the directory walk (internal/node/mounter_linux.go).
*/
module SourceSubPaths {
  import opened Results
  import opened Lexical

  function ValidateSourceSubPath(subPath: string): Result<string> {
    if subPath == "" then Ok("")
    else if !NulFree(subPath) then Err
    else if IsAbs(subPath) then Err
    else if ".." in Split(subPath) then Err
    else
      var cleaned := Clean(subPath);
      if cleaned == "." then Ok("") else Ok(cleaned)
  }

  /** What either parser takes: a relative path with no NUL and no "..". */
  ghost predicate Accepted(s: string) {
    !IsAbs(s) && NulFree(s) && ".." !in Split(s)
  }

  /** What an append loop has kept of the first i parts. */
  function KeptUpTo(parts: seq<string>, i: nat): seq<string>
    requires i <= |parts|
  {
    if i == 0 then []
    else if Names(parts[i - 1]) then KeptUpTo(parts, i - 1) + [parts[i - 1]]
    else KeptUpTo(parts, i - 1)
  }

  lemma {:induction false} KeptUpToIsKept(parts: seq<string>, i: nat)
    requires i <= |parts|
    ensures KeptUpTo(parts, i) == Kept(parts[..i])
  {
    if i > 0 {
      KeptUpToIsKept(parts, i - 1);
      assert parts[..i] == parts[..i - 1] + [parts[i - 1]];
      KeptAppend(parts[..i - 1], [parts[i - 1]]);
    }
  }

  predicate Plain(segment: string) { segment != ".." && NulFree(segment) }

  lemma AcceptedSegments(s: string)
    ensures Accepted(s) <==> !IsAbs(s) && forall i :: 0 <= i < |Split(s)| ==> Plain(Split(s)[i])
  {
    SplitNulFree(s);
  }

  /** The node side: an append loop with early returns. */
  method SourceSubPathSegments(sourceSubPath: string) returns (r: Result<seq<string>>)
    ensures r == if Accepted(sourceSubPath) then Ok(Segments(sourceSubPath)) else Err
  {
    AcceptedSegments(sourceSubPath);
    if IsAbs(sourceSubPath) {
      return Err;
    }
    var parts := Split(sourceSubPath);
    var segments: seq<string> := [];
    for i := 0 to |parts|
      invariant segments == KeptUpTo(parts, i)
      invariant forall j :: 0 <= j < i ==> Plain(parts[j])
    {
      var segment := parts[i];
      if segment == ".." {
        assert !Plain(parts[i]);
        return Err;
      }
      if Names(segment) {
        if !NulFree(segment) {
          assert !Plain(parts[i]);
          return Err;
        }
        segments := segments + [segment];
      }
    }
    KeptUpToIsKept(parts, |parts|);
    assert parts[..|parts|] == parts;
    return Ok(segments);
  }

  /**
    The parsers agree: they accept the same strings, and the API's output is
    the slash-join of the node's segments, none of which is "..".
  */
  lemma ParsersAgree(s: string)
    ensures ValidateSourceSubPath(s) == if Accepted(s) then Ok(Join(Segments(s))) else Err
    ensures Accepted(s) ==> ".." !in Segments(s)
  {
    if s == "" {
      assert Split(s) == [""];
      assert Segments(s) == [];
    } else if Accepted(s) {
      ResolvePlain(false, [], Split(s));
      assert [] + Segments(s) == Segments(s);
      assert Stack(s) == Segments(s);
      if Segments(s) != [] {
        JoinNotDot(Segments(s));
      }
    }
  }

  lemma JoinNotDot(segs: seq<string>)
    requires segs != [] && AllSlashFree(segs) && forall x :: x in segs ==> Names(x)
    ensures Join(segs) != "."
  {
    assert segs[0] in segs;
    SplitJoin(segs);
    SplitSlashFree(".");
    assert Split(Join(segs))[0] != Split(".")[0];
  }

  /** Parsing an accepted output again gives the same segments, and it is a fixed point. */
  lemma OutputIsFixed(s: string)
    requires ValidateSourceSubPath(s).Ok?
    ensures var out := ValidateSourceSubPath(s).value;
            && Accepted(out)
            && Segments(out) == Segments(s)
            && ValidateSourceSubPath(out) == Ok(out)
  {
    ParsersAgree(s);
    var segs := Segments(s);
    var out := Join(segs);
    SegmentsJoin(segs);
    if segs == [] {
      assert Split(out) == [""];
    } else {
      assert segs[0] in segs;
      JoinHead(segs);
      SplitJoin(segs);
      SplitNulFree(s);
      JoinNulFree(segs);
      forall i | 0 <= i < |segs|
        ensures NulFree(segs[i])
      {
        assert segs[i] in segs;
        assert segs[i] in Split(s);
      }
    }
    ParsersAgree(out);
  }
}
