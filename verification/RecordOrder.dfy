/** The order in which records are listed (sortDesiredMounts in internal/wrapper/state.go). */
module RecordOrder {
  import opened MountRecords

  /** Go's string order: by bytes, a proper prefix first. */
  predicate Less(a: string, b: string) {
    if b == "" then false
    else if a == "" then true
    else if a[0] != b[0] then a[0] < b[0]
    else Less(a[1..], b[1..])
  }

  predicate KeyLess(a: Key, b: Key) {
    if a.podUID != b.podUID then Less(a.podUID, b.podUID)
    else if a.containerName != b.containerName then Less(a.containerName, b.containerName)
    else Less(a.targetPath, b.targetPath)
  }

  /** a stops, or has the smaller character, where the two first differ. */
  predicate DiffersAt(a: string, b: string, i: nat) {
    i < |b| && i <= |a| && a[..i] == b[..i] && (i == |a| || a[i] < b[i])
  }

  lemma SameHead(a: string, b: string, i: nat)
    requires DiffersAt(a, b, i) && i > 0
    ensures a != "" && a[0] == b[0]
  {
    assert a[..i][0] == b[..i][0];
  }

  lemma {:induction false} LessMeans(a: string, b: string)
    ensures Less(a, b) <==> exists i :: DiffersAt(a, b, i)
    decreases |a|
  {
    forall i: nat | DiffersAt(a, b, i) && i > 0
      ensures a != "" && a[0] == b[0]
    {
      SameHead(a, b, i);
    }
    if b != "" && a != "" && a[0] == b[0] {
      var x, y := a[1..], b[1..];
      LessMeans(x, y);
      if i: nat :| DiffersAt(x, y, i) {
        assert a[..i + 1] == [a[0]] + x[..i] && b[..i + 1] == [b[0]] + y[..i];
        assert DiffersAt(a, b, i + 1);
      }
      if i: nat :| DiffersAt(a, b, i) {
        assert i > 0;
        assert x[..i - 1] == a[..i][1..] && y[..i - 1] == b[..i][1..];
        assert DiffersAt(x, y, i - 1);
      }
    } else {
      assert DiffersAt(a, b, 0) <==> Less(a, b);
    }
  }

  /** Keys are ordered by pod UID, then container name, then target, each as its bytes compare. */
  lemma KeyLessMeans(a: Key, b: Key)
    ensures KeyLess(a, b) <==>
            || (exists i :: DiffersAt(a.podUID, b.podUID, i))
            || (a.podUID == b.podUID && exists i :: DiffersAt(a.containerName, b.containerName, i))
            || (a.podUID == b.podUID && a.containerName == b.containerName
                && exists i :: DiffersAt(a.targetPath, b.targetPath, i))
  {
    LessMeans(a.podUID, b.podUID);
    LessMeans(a.containerName, b.containerName);
    LessMeans(a.targetPath, b.targetPath);
    LessIrreflexive(a.podUID);
    LessIrreflexive(a.containerName);
  }

  lemma {:induction false} LessIrreflexive(a: string)
    ensures !Less(a, a)
  {
    if a != "" { LessIrreflexive(a[1..]); }
  }

  lemma {:induction false} LessTotal(a: string, b: string)
    ensures a == b || Less(a, b) || Less(b, a)
    decreases |a|
  {
    if a != "" && b != "" && a[0] == b[0] {
      LessTotal(a[1..], b[1..]);
      assert a == [a[0]] + a[1..] && b == [b[0]] + b[1..];
    }
  }

  lemma {:induction false} LessTransitive(a: string, b: string, c: string)
    requires Less(a, b) && Less(b, c)
    ensures Less(a, c)
    decreases |a|
  {
    if a != "" && a[0] == b[0] && b[0] == c[0] {
      LessTransitive(a[1..], b[1..], c[1..]);
    }
  }

  lemma KeyLessStrict(a: Key, b: Key)
    ensures a == b || KeyLess(a, b) || KeyLess(b, a)
    ensures !(KeyLess(a, b) && KeyLess(b, a))
    ensures !KeyLess(a, a)
  {
    LessTotal(a.podUID, b.podUID);
    LessTotal(a.containerName, b.containerName);
    LessTotal(a.targetPath, b.targetPath);
    LessIrreflexive(a.targetPath);
    if KeyLess(a, b) && KeyLess(b, a) {
      KeyLessTransitive(a, b, a);
    }
  }

  lemma KeyLessTransitive(a: Key, b: Key, c: Key)
    requires KeyLess(a, b) && KeyLess(b, c)
    ensures KeyLess(a, c)
  {
    LessIrreflexive(a.podUID);
    LessIrreflexive(a.containerName);
    if a.podUID != b.podUID && b.podUID != c.podUID {
      LessTransitive(a.podUID, b.podUID, c.podUID);
    }
    if a.containerName != b.containerName && b.containerName != c.containerName {
      if a.podUID == b.podUID == c.podUID {
        LessTransitive(a.containerName, b.containerName, c.containerName);
      }
    }
    if a.podUID == b.podUID == c.podUID && a.containerName == b.containerName == c.containerName {
      LessTransitive(a.targetPath, b.targetPath, c.targetPath);
    }
  }

  ghost predicate Sorted(s: seq<DesiredMount>) {
    forall i, j :: 0 <= i < j < |s| ==> KeyLess(KeyOf(s[i]), KeyOf(s[j]))
  }

  /** s lists the records of m, in order. */
  ghost predicate Listing(s: seq<DesiredMount>, m: map<Key, DesiredMount>) {
    && Sorted(s)
    && (forall k :: k in m ==> m[k] in s && KeyOf(m[k]) == k)
    && (forall x :: x in s ==> KeyOf(x) in m && m[KeyOf(x)] == x)
  }

  lemma ListingHead(s: seq<DesiredMount>, t: seq<DesiredMount>, m: map<Key, DesiredMount>)
    requires Listing(s, m) && Listing(t, m) && s != [] && t != []
    ensures s[0] == t[0]
  {
    assert s[0] in s && t[0] in t;
    assert s[0] in t && t[0] in s;
    var i :| 0 <= i < |t| && t[i] == s[0];
    var j :| 0 <= j < |s| && s[j] == t[0];
    KeyLessStrict(KeyOf(s[0]), KeyOf(t[0]));
  }

  lemma ListingTail(s: seq<DesiredMount>, m: map<Key, DesiredMount>)
    requires Listing(s, m) && s != []
    ensures Listing(s[1..], m - {KeyOf(s[0])})
  {
    var rest := m - {KeyOf(s[0])};
    forall k | k in rest
      ensures m[k] in s[1..]
    {
      var i :| 0 <= i < |s| && s[i] == m[k];
      assert i != 0;
      assert s[1..][i - 1] == m[k];
    }
    forall x | x in s[1..]
      ensures KeyOf(x) in rest && rest[KeyOf(x)] == x
    {
      var i :| 0 <= i < |s[1..]| && s[1..][i] == x;
      assert s[i + 1] == x;
      KeyLessStrict(KeyOf(s[0]), KeyOf(x));
    }
  }

  lemma ListingTails(s: seq<DesiredMount>, t: seq<DesiredMount>, m: map<Key, DesiredMount>)
    requires Listing(s, m) && Listing(t, m) && s != [] && t != []
    ensures s[0] == t[0]
    ensures Listing(s[1..], m - {KeyOf(s[0])}) && Listing(t[1..], m - {KeyOf(s[0])})
  {
    ListingHead(s, t, m);
    ListingTail(s, m);
    ListingTail(t, m);
  }

  lemma ListingNonempty(s: seq<DesiredMount>, t: seq<DesiredMount>, m: map<Key, DesiredMount>)
    requires Listing(s, m) && Listing(t, m) && s != []
    ensures t != []
  {
    assert s[0] in s;
    assert m[KeyOf(s[0])] in t;
  }

  /** A map has one listing. */
  lemma {:induction false} ListingUnique(s: seq<DesiredMount>, t: seq<DesiredMount>, m: map<Key, DesiredMount>)
    requires Listing(s, m) && Listing(t, m)
    ensures s == t
    decreases |s|
  {
    if s != [] { ListingNonempty(s, t, m); }
    if t != [] { ListingNonempty(t, s, m); }
    if s != [] {
      ListingTails(s, t, m);
      ListingUnique(s[1..], t[1..], m - {KeyOf(s[0])});
      assert s == [s[0]] + s[1..] && t == [t[0]] + t[1..];
    }
  }

  // ----- sorting -----

  ghost predicate DistinctKeys(s: seq<DesiredMount>) {
    forall i, j :: 0 <= i < j < |s| ==> KeyOf(s[i]) != KeyOf(s[j])
  }

  function Insert(x: DesiredMount, s: seq<DesiredMount>): (r: seq<DesiredMount>)
    ensures forall y :: y in r <==> y == x || y in s
  {
    if s == [] then [x]
    else if KeyLess(KeyOf(x), KeyOf(s[0])) then [x] + s
    else [s[0]] + Insert(x, s[1..])
  }

  lemma {:induction false} InsertSorted(x: DesiredMount, s: seq<DesiredMount>)
    requires Sorted(s) && forall y :: y in s ==> KeyOf(y) != KeyOf(x)
    ensures Sorted(Insert(x, s))
    decreases |s|
  {
    if s != [] {
      assert s[0] in s;
      KeyLessStrict(KeyOf(x), KeyOf(s[0]));
      if KeyLess(KeyOf(x), KeyOf(s[0])) {
        forall j | 0 < j < |s|
          ensures KeyLess(KeyOf(x), KeyOf(s[j]))
        {
          KeyLessTransitive(KeyOf(x), KeyOf(s[0]), KeyOf(s[j]));
        }
      } else {
        InsertSorted(x, s[1..]);
        var tail := Insert(x, s[1..]);
        forall j | 0 <= j < |tail|
          ensures KeyLess(KeyOf(s[0]), KeyOf(tail[j]))
        {
          assert tail[j] in tail;
          if tail[j] != x {
            var i :| 0 <= i < |s[1..]| && s[1..][i] == tail[j];
            assert s[i + 1] == tail[j];
          }
        }
      }
    }
  }

  method SortDesiredMounts(mounts: seq<DesiredMount>) returns (sorted: seq<DesiredMount>)
    requires DistinctKeys(mounts)
    ensures Sorted(sorted)
    ensures forall x :: x in sorted <==> x in mounts
  {
    sorted := [];
    for i := 0 to |mounts|
      invariant Sorted(sorted)
      invariant forall x :: x in sorted <==> x in mounts[..i]
    {
      assert forall y :: y in mounts[..i] ==> KeyOf(y) != KeyOf(mounts[i]);
      InsertSorted(mounts[i], sorted);
      assert mounts[..i + 1] == mounts[..i] + [mounts[i]];
      sorted := Insert(mounts[i], sorted);
    }
    assert mounts[..|mounts|] == mounts;
  }

  // ----- filtering by pod -----

  function ForPod(s: seq<DesiredMount>, p: PodKey): (r: seq<DesiredMount>)
    ensures forall x :: x in r <==> x in s && PodKeyOf(x) == p
  {
    if s == [] then []
    else if PodKeyOf(s[0]) == p then [s[0]] + ForPod(s[1..], p)
    else ForPod(s[1..], p)
  }

  lemma {:induction false} ForPodSorted(s: seq<DesiredMount>, p: PodKey)
    requires Sorted(s)
    ensures Sorted(ForPod(s, p))
    decreases |s|
  {
    if s != [] {
      ForPodSorted(s[1..], p);
      var tail := ForPod(s[1..], p);
      forall j | 0 <= j < |tail|
        ensures KeyLess(KeyOf(s[0]), KeyOf(tail[j]))
      {
        assert tail[j] in tail;
        var i :| 0 <= i < |s[1..]| && s[1..][i] == tail[j];
        assert s[i + 1] == tail[j];
      }
    }
  }

  function OfPod(m: map<Key, DesiredMount>, p: PodKey): map<Key, DesiredMount> {
    map k | k in m && PodKeyOf(m[k]) == p :: m[k]
  }

  lemma ForPodLists(s: seq<DesiredMount>, m: map<Key, DesiredMount>, p: PodKey)
    requires Listing(s, m)
    ensures Listing(ForPod(s, p), OfPod(m, p))
  {
    ForPodSorted(s, p);
  }
}
