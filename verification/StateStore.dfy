/**
  The indexed durable store (internal/wrapper/state.go): a map of records, an
  index of their keys by pod, and a directory with one file per record.
*/
module StateStore {
  import opened Results
  import opened MountRecords
  import opened RecordOrder
  import Lexical
  import Sections

  // ----- file names -----

  predicate NulFreeKey(k: Key) {
    Lexical.NulFree(k.podUID) && Lexical.NulFree(k.containerName) && Lexical.NulFree(k.targetPath)
  }

  /** The bytes that are hashed into a file name: each field followed by a NUL. */
  function Encode(k: Key): string { k.podUID + "\0" + (k.containerName + "\0" + (k.targetPath + "\0")) }

  /** The encoding reads back: three fields, in order, each up to its NUL, and nothing after. */
  lemma EncodeReads(k: Key)
    ensures var e, c := Encode(k), |k.podUID| + 1;
            var t := c + |k.containerName| + 1;
            && |e| == t + |k.targetPath| + 1
            && e[..c] == k.podUID + "\0" && e[c..t] == k.containerName + "\0" && e[t..] == k.targetPath + "\0"
  {
    var c := |k.podUID| + 1;
    var t := c + |k.containerName| + 1;
    assert Encode(k) == (k.podUID + "\0") + (k.containerName + "\0") + (k.targetPath + "\0");
  }

  /** A directory entry's name: a stem and the suffix ".json", or a name without that suffix. */
  datatype FileName = JsonFile(stem: string) | OtherFile(name: string)

  const SUFFIX := ".json"

  predicate HasSuffix(name: string) { |name| >= |SUFFIX| && name[|name| - |SUFFIX|..] == SUFFIX }

  function Classify(name: string): FileName {
    if HasSuffix(name) then JsonFile(name[..|name| - |SUFFIX|]) else OtherFile(name)
  }

  function Filename(hash: string -> string, k: Key): FileName { JsonFile(hash(Encode(k))) }

  /** The loop that feeds a key's fields to the hash. */
  method MountStateFilename(hash: string -> string, key: Key) returns (name: FileName)
    ensures name == Filename(hash, key)
  {
    var fields := [key.podUID, key.containerName, key.targetPath];
    var bytes := "";
    for i := 0 to |fields|
      invariant bytes == if i == 0 then "" else if i == 1 then fields[0] + "\0"
                         else if i == 2 then (fields[0] + "\0") + (fields[1] + "\0")
                         else (fields[0] + "\0") + (fields[1] + "\0") + (fields[2] + "\0")
    {
      bytes := bytes + (fields[i] + "\0");
    }
    assert bytes == Encode(key);
    name := JsonFile(hash(bytes));
  }

  /** The name the source writes, the hash and the suffix, is the one the model keeps; no two names are confused. */
  lemma ClassifyExact(name: string, other: string, stem: string)
    ensures Classify(stem + SUFFIX) == JsonFile(stem)
    ensures Classify(name) == Classify(other) ==> name == other
  {
    assert (stem + SUFFIX)[|stem|..] == SUFFIX && (stem + SUFFIX)[..|stem|] == stem;
    if HasSuffix(name) && HasSuffix(other) && Classify(name) == Classify(other) {
      assert name == name[..|name| - |SUFFIX|] + SUFFIX;
      assert other == other[..|other| - |SUFFIX|] + SUFFIX;
    }
  }

  predicate KeysApart(hash: string -> string, a: Key, b: Key) {
    hash(Encode(a)) == hash(Encode(b)) ==> Encode(a) == Encode(b)
  }

  /** The keys in use: none has a NUL, and the hash does not confuse two of them. */
  ghost predicate KeysOk(hash: string -> string, known: iset<Key>) {
    && (forall k :: k in known ==> NulFreeKey(k))
    && (forall a, b {:trigger KeysApart(hash, a, b)} :: a in known && b in known ==> KeysApart(hash, a, b))
  }

  lemma CutAtNul(a: string, x: string, b: string, y: string)
    requires Lexical.NulFree(a) && Lexical.NulFree(b) && a + "\0" + x == b + "\0" + y
    ensures a == b && x == y
  {
    var s, t := a + "\0" + x, b + "\0" + y;
    assert s[|a|] == '\0' && t[|b|] == '\0';
    assert forall i :: 0 <= i < |a| ==> s[i] == a[i] && a[i] in a;
    assert forall i :: 0 <= i < |b| ==> t[i] == b[i] && b[i] in b;
    assert |a| == |b|;
    assert a == s[..|a|] && b == t[..|b|];
    assert x == s[|a| + 1..] && y == t[|b| + 1..];
  }

  lemma EncodeInjective(a: Key, b: Key)
    requires NulFreeKey(a) && NulFreeKey(b) && Encode(a) == Encode(b)
    ensures a == b
  {
    var x, y := a.containerName + "\0" + (a.targetPath + "\0"), b.containerName + "\0" + (b.targetPath + "\0");
    CutAtNul(a.podUID, x, b.podUID, y);
    CutAtNul(a.containerName, a.targetPath + "\0", b.containerName, b.targetPath + "\0");
    assert a.targetPath == (a.targetPath + "\0")[..|a.targetPath|];
  }

  /** Different NUL-free keys get different files, if the hash keeps their two encodings apart. */
  lemma FilenameInjective(hash: string -> string, a: Key, b: Key)
    requires KeysApart(hash, a, b) && NulFreeKey(a) && NulFreeKey(b) && Filename(hash, a) == Filename(hash, b)
    ensures a == b
  {
    EncodeInjective(a, b);
  }

  // ----- directories -----

  /** A directory entry: a state file's JSON, any other file, or a directory. */
  datatype Entry = Json(file: StateFile) | Other | Subdirectory

  type Directory = map<FileName, Entry>

  /** What loading looks at: files, by their suffix. */
  predicate Considered(name: FileName, entry: Entry) { name.JsonFile? && !entry.Subdirectory? }

  predicate EntryOk(hash: string -> string, name: FileName, entry: Entry) {
    && entry.Json?
    && (entry.file.version == LEGACY_VERSION || entry.file.version == CURRENT_VERSION)
    && name == Filename(hash, RequestKey(entry.file.request))
  }

  /** Every entry that is considered is a state file under its own name. */
  ghost predicate DirectoryOk(hash: string -> string, dir: Directory) {
    forall name :: name in dir && Considered(name, dir[name]) ==> EntryOk(hash, name, dir[name])
  }

  /** The state files are of keys in use, and no such key's name is taken by a directory. */
  ghost predicate DirectoryKnown(hash: string -> string, dir: Directory, known: iset<Key>) {
    && (forall name :: name in dir && name.JsonFile? && dir[name].Json? ==> RequestKey(dir[name].file.request) in known)
    && (forall k :: k in known && Filename(hash, k) in dir ==> !dir[Filename(hash, k)].Subdirectory?)
  }

  /** The keys that have a state file, and their files. */
  ghost function FilesOf(hash: string -> string, dir: Directory): (files: map<Key, StateFile>)
    requires DirectoryOk(hash, dir)
    ensures forall k :: k in files <==>
              Filename(hash, k) in dir
              && dir[Filename(hash, k)].Json? && RequestKey(dir[Filename(hash, k)].file.request) == k
    ensures forall k :: k in files ==> files[k] == dir[Filename(hash, k)].file
  {
    var keys := set name | name in dir && name.JsonFile? && dir[name].Json? :: RequestKey(dir[name].file.request);
    forall k
      ensures k in keys <==>
              Filename(hash, k) in dir
              && dir[Filename(hash, k)].Json? && RequestKey(dir[Filename(hash, k)].file.request) == k
    {
    }
    map k | k in keys :: dir[Filename(hash, k)].file
  }

  const TEMPORARY_PREFIX := ".mount-state-"

  /** The names that os.CreateTemp makes for the pattern ".mount-state-*". */
  predicate IsTemporaryName(name: string) {
    && |name| >= |TEMPORARY_PREFIX| && name[..|TEMPORARY_PREFIX|] == TEMPORARY_PREFIX
    && forall i :: |TEMPORARY_PREFIX| <= i < |name| ==> '0' <= name[i] <= '9'
  }

  /** Such a name ends in a digit or a dash, so it is not a state file's. */
  lemma TemporaryIsOther(name: string)
    requires IsTemporaryName(name)
    ensures Classify(name) == OtherFile(name)
  {
    var n, p := |name|, |TEMPORARY_PREFIX|;
    assert n == p ==> name[n - 1] == name[..p][p - 1];
    SuffixEnds(name);
  }

  lemma SuffixEnds(name: string)
    ensures HasSuffix(name) ==> name[|name| - 1] == 'n'
  {
    if HasSuffix(name) {
      assert name[|name| - |SUFFIX|..][|SUFFIX| - 1] == SUFFIX[|SUFFIX| - 1];
    }
  }

  /** A temporary file left behind changes nothing about what the directory holds. */
  lemma TemporaryIgnored(hash: string -> string, dir: Directory, name: string, entry: Entry)
    requires DirectoryOk(hash, dir) && IsTemporaryName(name)
    ensures DirectoryOk(hash, dir[Classify(name) := entry])
    ensures FilesOf(hash, dir[Classify(name) := entry]) == FilesOf(hash, dir)
  {
    TemporaryIsOther(name);
  }

  /** No other key's state file has the name of k's. */
  lemma OwnName(hash: string -> string, dir: Directory, known: iset<Key>, k: Key)
    requires KeysOk(hash, known) && DirectoryOk(hash, dir) && DirectoryKnown(hash, dir, known) && k in known
    ensures forall x :: x != k && x in FilesOf(hash, dir) ==> Filename(hash, x) != Filename(hash, k)
  {
    forall x | x != k && x in FilesOf(hash, dir)
      ensures Filename(hash, x) != Filename(hash, k)
    {
      assert x in known;
      assert KeysApart(hash, x, k);
      if Filename(hash, x) == Filename(hash, k) {
        FilenameInjective(hash, x, k);
      }
    }
  }

  lemma WriteFile(hash: string -> string, dir: Directory, known: iset<Key>, mount: DesiredMount)
    requires KeysOk(hash, known) && DirectoryOk(hash, dir) && DirectoryKnown(hash, dir, known) && KeyOf(mount) in known
    ensures var k := KeyOf(mount);
            var dir' := dir[Filename(hash, k) := Json(Persist(mount))];
            && DirectoryOk(hash, dir') && DirectoryKnown(hash, dir', known)
            && FilesOf(hash, dir') == FilesOf(hash, dir)[k := Persist(mount)]
  {
    var k := KeyOf(mount);
    OwnName(hash, dir, known, k);
    Rewritten(hash, dir, k, Persist(mount));
  }

  lemma Rewritten(hash: string -> string, dir: Directory, k: Key, file: StateFile)
    requires DirectoryOk(hash, dir) && RequestKey(file.request) == k && file.version == CURRENT_VERSION
    requires forall x :: x != k && x in FilesOf(hash, dir) ==> Filename(hash, x) != Filename(hash, k)
    ensures var dir' := dir[Filename(hash, k) := Json(file)];
            DirectoryOk(hash, dir') && FilesOf(hash, dir') == FilesOf(hash, dir)[k := file]
  {
    var dir' := dir[Filename(hash, k) := Json(file)];
    assert DirectoryOk(hash, dir');
    var before, after := FilesOf(hash, dir), FilesOf(hash, dir');
    forall x
      ensures x in after <==> x == k || x in before
      ensures x in after ==> after[x] == if x == k then file else before[x]
    {
    }
  }

  lemma RemoveFile(hash: string -> string, dir: Directory, known: iset<Key>, k: Key)
    requires KeysOk(hash, known) && DirectoryOk(hash, dir) && DirectoryKnown(hash, dir, known) && k in known
    ensures var dir' := dir - {Filename(hash, k)};
            && DirectoryOk(hash, dir') && DirectoryKnown(hash, dir', known)
            && FilesOf(hash, dir') == FilesOf(hash, dir) - {k}
  {
    OwnName(hash, dir, known, k);
    Unlinked(hash, dir, k);
  }

  lemma Unlinked(hash: string -> string, dir: Directory, k: Key)
    requires DirectoryOk(hash, dir)
    requires forall x :: x != k && x in FilesOf(hash, dir) ==> Filename(hash, x) != Filename(hash, k)
    ensures var dir' := dir - {Filename(hash, k)};
            DirectoryOk(hash, dir') && FilesOf(hash, dir') == FilesOf(hash, dir) - {k}
  {
    var dir' := dir - {Filename(hash, k)};
    assert DirectoryOk(hash, dir');
    var before, after := FilesOf(hash, dir), FilesOf(hash, dir');
    forall x
      ensures x in after <==> x != k && x in before
      ensures x in after ==> after[x] == before[x]
    {
    }
  }

  // ----- the index -----

  /** The index says of every pod exactly which keys are its records', and no entry is empty. */
  ghost predicate IndexOk(mounts: map<Key, DesiredMount>, byPod: map<PodKey, set<Key>>) {
    && (forall k :: k in mounts ==>
        KeyOf(mounts[k]) == k && PodKeyOf(mounts[k]) in byPod && k in byPod[PodKeyOf(mounts[k])])
    && (forall p :: p in byPod ==> byPod[p] != {})
    && (forall p, k :: p in byPod && k in byPod[p] ==> k in mounts && PodKeyOf(mounts[k]) == p)
  }

  lemma IndexInsert(mounts: map<Key, DesiredMount>, byPod: map<PodKey, set<Key>>, mount: DesiredMount)
    requires IndexOk(mounts, byPod) && KeyOf(mount) !in mounts
    ensures var p := PodKeyOf(mount);
            IndexOk(mounts[KeyOf(mount) := mount], byPod[p := (if p in byPod then byPod[p] else {}) + {KeyOf(mount)}])
  {
    var key, pod := KeyOf(mount), PodKeyOf(mount);
    var mounts' := mounts[key := mount];
    var byPod' := byPod[pod := (if pod in byPod then byPod[pod] else {}) + {key}];
    assert key in byPod'[pod];
    forall p, k | p in byPod' && k in byPod'[p]
      ensures k in mounts' && PodKeyOf(mounts'[k]) == p
    {
      if k != key {
        assert p in byPod && k in byPod[p];
      }
    }
  }

  /** Memory holds exactly what the entries already read say, and they were all well formed. */
  ghost predicate ReadSoFar(hash: string -> string, dir: Directory, rest: set<FileName>,
                            mounts: map<Key, DesiredMount>) {
    && (forall name :: name in dir && name !in rest && Considered(name, dir[name]) ==>
          && EntryOk(hash, name, dir[name])
          && Lookup(mounts, RequestKey(dir[name].file.request)) == Some(MountRecords.Load(dir[name].file)))
    && (forall k :: k in mounts ==>
          var name := Filename(hash, k);
          name in dir && name !in rest && EntryOk(hash, name, dir[name]) && RequestKey(dir[name].file.request) == k)
  }

  lemma ReadAll(hash: string -> string, dir: Directory, mounts: map<Key, DesiredMount>)
    requires ReadSoFar(hash, dir, {}, mounts)
    ensures DirectoryOk(hash, dir)
    ensures mounts == map k | k in FilesOf(hash, dir) :: MountRecords.Load(FilesOf(hash, dir)[k])
  {
    assert DirectoryOk(hash, dir);
    forall k
      ensures k in mounts <==> k in FilesOf(hash, dir)
      ensures k in mounts ==> mounts[k] == MountRecords.Load(FilesOf(hash, dir)[k])
    {
    }
  }

  class FileMountStateStore {
    const hash: string -> string
    ghost const known: iset<Key>   // the keys that may be stored
    var mounts: map<Key, DesiredMount>
    var byPod: map<PodKey, set<Key>>
    var dir: Directory

    ghost predicate Valid()
      reads this
    {
      && KeysOk(hash, known)
      && IndexOk(mounts, byPod)
      && DirectoryOk(hash, dir)
      && DirectoryKnown(hash, dir, known)
      && forall k :: k in mounts ==> k in known
    }

    ghost function Files(): map<Key, StateFile>
      requires DirectoryOk(hash, dir)
      reads this
    {
      FilesOf(hash, dir)
    }

    /** A store over a directory, with nothing read from it yet. */
    constructor (hash: string -> string, dir: Directory, ghost known: iset<Key>)
      ensures this.hash == hash && this.dir == dir && this.known == known
      ensures mounts == map[] && byPod == map[]
      ensures IndexOk(mounts, byPod)
    {
      this.hash := hash;
      this.dir := dir;
      this.known := known;
      mounts := map[];
      byPod := map[];
    }

    /**
      Reads the directory, in any order. It succeeds exactly when every state
      file is well formed, memory then holds what each file loads as, and the
      store is usable if its files are of the keys it is for.
    */
    method Load() returns (ok: bool)
      requires mounts == map[] && byPod == map[]
      modifies this`mounts, this`byPod
      ensures ok <==> DirectoryOk(hash, dir)
      ensures ok <==> forall name :: name in dir && name.JsonFile? && !dir[name].Subdirectory? ==>
                        && dir[name].Json? && dir[name].file.version in {1, 2}
                        && name == JsonFile(hash(Encode(RequestKey(dir[name].file.request))))
      ensures ok ==> IndexOk(mounts, byPod)
      ensures ok ==> mounts == map k | k in Files() :: MountRecords.Load(Files()[k])
      ensures ok ==> forall k :: k in mounts ==>
                var file, legacy := Files()[k], Files()[k].version == 1;
                mounts[k] == DesiredMount(file.request, file.containerID, legacy, !legacy && file.rootAuthorized,
                                          if legacy then "" else file.fingerprint)
      ensures ok && KeysOk(hash, known) && DirectoryKnown(hash, dir, known) ==> Valid()
    {
      var rest := dir.Keys;
      while rest != {}
        invariant rest <= dir.Keys && IndexOk(mounts, byPod)
        invariant ReadSoFar(hash, dir, rest, mounts)
        decreases rest
      {
        var name :| name in rest;
        rest := rest - {name};
        if dir[name].Subdirectory? || name.OtherFile? {
          continue;
        }
        var entry := dir[name];
        if !entry.Json? || (entry.file.version != LEGACY_VERSION && entry.file.version != CURRENT_VERSION) {
          assert !EntryOk(hash, name, entry);
          return false;
        }
        var mount := MountRecords.Load(entry.file);
        if name != Filename(hash, KeyOf(mount)) {
          assert !EntryOk(hash, name, entry);
          return false;
        }
        PutInMemory(mount);
      }
      ReadAll(hash, dir, mounts);
      ok := true;
    }

    method Get(k: Key) returns (r: Option<DesiredMount>)
      ensures r == Lookup(mounts, k)
    {
      r := if k in mounts then Some(mounts[k]) else None;
    }

    method PutInMemory(mount: DesiredMount)
      requires IndexOk(mounts, byPod)
      modifies this`mounts, this`byPod
      ensures IndexOk(mounts, byPod)
      ensures mounts == old(mounts)[KeyOf(mount) := mount]
    {
      var key := KeyOf(mount);
      if key in mounts {
        DeleteInMemory(KeyOf(mounts[key]));
      }
      IndexInsert(mounts, byPod, mount);
      ghost var indexed := byPod;
      mounts := mounts[key := mount];
      var podKey := PodKeyOf(mount);
      if podKey !in byPod {
        byPod := byPod[podKey := {}];
      }
      byPod := byPod[podKey := byPod[podKey] + {key}];
      assert byPod == indexed[podKey := (if podKey in indexed then indexed[podKey] else {}) + {key}];
    }

    method DeleteInMemory(key: Key)
      requires IndexOk(mounts, byPod)
      modifies this`mounts, this`byPod
      ensures IndexOk(mounts, byPod)
      ensures mounts == old(mounts) - {key}
    {
      if key !in mounts {
        return;
      }
      var podKey := PodKeyOf(mounts[key]);
      mounts := mounts - {key};
      byPod := byPod[podKey := byPod[podKey] - {key}];
      if byPod[podKey] == {} {
        byPod := byPod - {podKey};
      }
    }

    /** The answer decides how far the write gets: done, refused, or failed after the rename. */
    method Put(mount: DesiredMount, answer: Sections.StoreAnswer) returns (ok: bool)
      requires Valid() && KeyOf(mount) in known
      modifies this`mounts, this`byPod, this`dir
      ensures Valid() && ok == answer.Done?
      ensures mounts == if answer.Done? then old(mounts)[KeyOf(mount) := mount] else old(mounts)
      ensures var file := StateFile(2, mount.request, mount.containerID, mount.rootAuthorized, mount.fingerprint);
              Files() == if answer.Refused? then old(Files()) else old(Files())[KeyOf(mount) := file]
      ensures var w := Sections.Put(Sections.World(old(mounts), old(Files()), []), mount, answer);
              mounts == w.mem && Files() == w.disk
    {
      if answer.Refused? {
        return false;
      }
      WriteFile(hash, dir, known, mount);
      dir := dir[Filename(hash, KeyOf(mount)) := Json(Persist(mount))];
      if answer.Torn? {
        return false;
      }
      PutInMemory(mount);
      ok := true;
    }

    method Delete(key: Key, answer: Sections.StoreAnswer) returns (ok: bool)
      requires Valid()
      modifies this`mounts, this`byPod, this`dir
      ensures Valid() && ok == Sections.DeleteOk(Sections.World(old(mounts), old(Files()), []), key, answer)
      ensures mounts == if answer.Done? then old(mounts) - {key} else old(mounts)
      ensures Files() == if answer.Refused? || key !in old(mounts) then old(Files()) else old(Files()) - {key}
      ensures var w := Sections.Delete(Sections.World(old(mounts), old(Files()), []), key, answer);
              mounts == w.mem && Files() == w.disk
    {
      if key !in mounts {
        return true;
      }
      if answer.Refused? {
        return false;
      }
      RemoveFile(hash, dir, known, key);
      dir := dir - {Filename(hash, key)};
      if answer.Torn? {
        return false;
      }
      DeleteInMemory(key);
      ok := true;
    }

    method List() returns (r: seq<DesiredMount>)
      requires IndexOk(mounts, byPod)
      ensures Listing(r, mounts)
    {
      r := Collect(mounts.Keys);
      assert forall x :: x in r ==> KeyOf(x) in mounts && mounts[KeyOf(x)] == x;
      r := SortDesiredMounts(r);
    }

    /** The index answers as a scan of all records would: the same records, in the same order. */
    method ListForPod(p: PodKey) returns (r: seq<DesiredMount>)
      requires IndexOk(mounts, byPod)
      ensures Listing(r, OfPod(mounts, p))
      ensures forall all :: Listing(all, mounts) ==> r == ForPod(all, p)
    {
      var keys := if p in byPod then byPod[p] else {};
      r := Collect(keys);
      r := SortDesiredMounts(r);
      forall all | Listing(all, mounts)
        ensures r == ForPod(all, p)
      {
        ForPodLists(all, mounts, p);
        ListingUnique(r, ForPod(all, p), OfPod(mounts, p));
      }
    }

    /** The records of some keys, in map order, which is any order. */
    method Collect(keys: set<Key>) returns (r: seq<DesiredMount>)
      requires keys <= mounts.Keys && forall k :: k in mounts ==> KeyOf(mounts[k]) == k
      ensures DistinctKeys(r)
      ensures forall x :: x in r <==> KeyOf(x) in keys && mounts[KeyOf(x)] == x
    {
      r := [];
      var rest := keys;
      while rest != {}
        invariant rest <= keys && DistinctKeys(r)
        invariant forall x :: x in r <==> KeyOf(x) in keys - rest && mounts[KeyOf(x)] == x
        decreases rest
      {
        var k :| k in rest;
        assert forall x :: x in r ==> KeyOf(x) != k;
        r := r + [mounts[k]];
        rest := rest - {k};
      }
    }
  }
  /** What a store has written, another process can open: it starts with what each file reads as. */
  method Reopen(store: FileMountStateStore) returns (next: FileMountStateStore)
    requires store.Valid()
    ensures fresh(next) && next.Valid()
    ensures next.hash == store.hash && next.known == store.known && next.dir == store.dir
    ensures next.mounts == map k | k in store.Files() :: MountRecords.Load(store.Files()[k])
  {
    next := new FileMountStateStore(store.hash, store.dir, store.known);
    var ok := next.Load();
    assert ok;
  }
}
