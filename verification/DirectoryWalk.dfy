/**
  The no-follow walk to a source sub-path (internal/node/mounter_linux.go:312-426),
  over a kernel whose directory tree and other descriptors anyone may change
  between any two system calls.
*/
module DirectoryWalk {
  import opened Results
  import Lexical
  import SourceSubPaths

  type Inode = nat

  datatype Node = Directory(entries: map<string, Inode>) | Symlink(to: string) | File

  type Tree = map<Inode, Node>

  datatype Errno = ENOENT | ENOTDIR | ELOOP | ENAMETOOLONG | EEXIST | EOTHER

  datatype Sys = Fd(fd: int) | Failure(errno: Errno)

  /** An openat that succeeded: in the tree of that moment, parent's entry of that name was a directory. */
  datatype Hop = Hop(tree: Tree, parent: Inode, name: string, child: Inode)

  /** A mkdirat that succeeded, with the trees just before and just after it. */
  datatype Making = Making(before: Tree, after: Tree, parent: Inode, name: string)

  /** A system call of the walk: where, on what name, and its error if it failed. */
  datatype Call =
    | OpenStage(errno: Option<Errno>)
    | Open(parent: Inode, name: string, errno: Option<Errno>)
    | Make(parent: Inode, name: string, errno: Option<Errno>)

  predicate IsDirectory(tree: Tree, inode: Inode) { inode in tree && tree[inode].Directory? }

  predicate HasEntry(tree: Tree, parent: Inode, name: string) {
    IsDirectory(tree, parent) && name in tree[parent].entries
  }

  predicate HopOk(h: Hop) {
    && HasEntry(h.tree, h.parent, h.name)
    && h.tree[h.parent].entries[h.name] == h.child
    && IsDirectory(h.tree, h.child)
  }

  /** A directory that was not there is; nothing that was there changed otherwise. */
  ghost predicate MakingOk(m: Making) {
    && IsDirectory(m.before, m.parent)
    && !HasEntry(m.before, m.parent, m.name)
    && exists child ::
         && child !in m.before
         && m.after ==
            m.before[m.parent := Directory(m.before[m.parent].entries[m.name := child])][child := Directory(map[])]
  }

  /** These descriptors are open on what they were open on. */
  predicate Keeps(held: set<int>, before: map<int, Inode>, after: map<int, Inode>) {
    forall f :: f in held ==> f in before && f in after && after[f] == before[f]
  }

  class Kernel {
    var tree: Tree
    var fds: map<int, Inode>
    var mine: set<int>        // the descriptors the walking thread holds
    var opens: seq<Hop>       // its openat calls that succeeded
    var made: seq<Making>     // its mkdirat calls that succeeded
    var calls: seq<Call>      // all its calls, in order

    ghost predicate Valid()
      reads this
    {
      forall f :: f in mine ==> f in fds
    }

    /** The rest of the system: any change to the tree, and to descriptors that are not ours. */
    method Interfere()
      requires Valid()
      modifies this`tree, this`fds
      ensures Valid() && Keeps(mine, old(fds), fds)
    {
      var elsewhere: Tree := *;
      var others: map<int, Inode> := *;
      tree := elsewhere;
      fds := others + map f | f in mine :: fds[f];
    }

    /** open(2) of the staged mount as a directory. */
    method OpenStage() returns (r: Sys, root: Inode)
      requires Valid()
      modifies this`tree, this`fds, this`mine, this`calls
      ensures Valid() && Keeps(old(mine), old(fds), fds)
      ensures calls == old(calls) + [Call.OpenStage(if r.Failure? then Some(r.errno) else None)]
      ensures r.Failure? ==> mine == old(mine)
      ensures r.Fd? ==> r.fd !in old(mine) && mine == old(mine) + {r.fd} && fds[r.fd] == root && IsDirectory(tree, root)
    {
      Interfere();
      root := *;
      var fd: int := *;
      if !IsDirectory(tree, root) || fd in fds {
        calls := calls + [Call.OpenStage(Some(EOTHER))];
        return Failure(EOTHER), root;
      }
      calls := calls + [Call.OpenStage(None)];
      fds, mine := fds[fd := root], mine + {fd};
      return Fd(fd), root;
    }

    /** openat(2) with O_PATH, O_DIRECTORY and O_NOFOLLOW. */
    method Openat(dir: int, name: string) returns (r: Sys)
      requires Valid() && dir in mine
      modifies this`tree, this`fds, this`mine, this`opens, this`calls
      ensures Valid() && Keeps(old(mine), old(fds), fds)
      ensures calls == old(calls) + [Open(old(fds[dir]), name, if r.Failure? then Some(r.errno) else None)]
      ensures r.Failure? ==> mine == old(mine) && opens == old(opens)
      ensures r.Fd? ==>
                && r.fd !in old(mine) && mine == old(mine) + {r.fd}
                && opens == old(opens) + [Hop(tree, old(fds[dir]), name, fds[r.fd])]
                && HopOk(Hop(tree, old(fds[dir]), name, fds[r.fd]))
    {
      Interfere();
      var fault: Option<Errno>, fd: int := *, *;
      var parent := fds[dir];
      r := Resolve(parent, name, fault, fd);
      calls := calls + [Open(parent, name, if r.Failure? then Some(r.errno) else None)];
      if r.Fd? {
        var child := tree[parent].entries[name];
        fds, mine := fds[fd := child], mine + {fd};
        opens := opens + [Hop(tree, parent, name, child)];
      }
    }

    /** What openat answers, without a fault: the entry, if it is a directory. */
    function Resolve(parent: Inode, name: string, fault: Option<Errno>, fd: int): (r: Sys)
      reads this
      ensures r.Fd? ==>
                && r.fd == fd && fd !in fds
                && HasEntry(tree, parent, name) && IsDirectory(tree, tree[parent].entries[name])
    {
      if fault.Some? then Failure(fault.value)
      else if !HasEntry(tree, parent, name) then Failure(ENOENT)
      else
        var child := tree[parent].entries[name];
        if !IsDirectory(tree, child) then Failure(if child in tree && tree[child].Symlink? then ELOOP else ENOTDIR)
        else if fd in fds then Failure(EOTHER)
        else Fd(fd)
    }

    method Mkdirat(dir: int, name: string) returns (errno: Option<Errno>)
      requires Valid() && dir in mine
      modifies this`tree, this`fds, this`made, this`calls
      ensures Valid() && Keeps(mine, old(fds), fds)
      ensures calls == old(calls) + [Make(old(fds[dir]), name, errno)]
      ensures errno.Some? ==> made == old(made)
      ensures errno.None? ==>
                && |made| == |old(made)| + 1 && made[..|old(made)|] == old(made)
                && var m := made[|old(made)|];
                   MakingOk(m) && m.parent == old(fds[dir]) && m.name == name && m.after == tree
    {
      Interfere();
      var fault: Option<Errno>, child: Inode := *, *;
      var parent := fds[dir];
      errno := if fault.Some? then fault
               else if !IsDirectory(tree, parent) then Some(ENOENT)
               else if name in tree[parent].entries then Some(EEXIST)
               else if child in tree then Some(EOTHER)
               else None;
      calls := calls + [Make(parent, name, errno)];
      if errno.None? {
        var before := tree;
        tree := tree[parent := Directory(tree[parent].entries[name := child])][child := Directory(map[])];
        made := made + [Making(before, tree, parent, name)];
      }
    }

    /** close(2). Only an open descriptor of ours may be closed: its number may be someone else's afterwards. */
    method Close(fd: int)
      requires Valid() && fd in mine
      modifies this`fds, this`mine
      ensures Valid() && mine == old(mine) - {fd}
      ensures Keeps(mine, old(fds), fds)
    {
      fds, mine := fds - {fd}, mine - {fd};
    }
  }

  // ----- the walk -----

  datatype WalkError = BadSubPath | StageError | OpenError | CreateError

  datatype Walk = Opened(fd: int) | Stopped(error: WalkError)

  /** Where a trail of hops from the root leads. */
  function End(root: Inode, trail: seq<Hop>): Inode { if trail == [] then root else trail[|trail| - 1].child }

  /** The trail follows existing directory entries, one per name, each from where the last one led. */
  ghost predicate Follows(root: Inode, trail: seq<Hop>, names: seq<string>) {
    && |trail| == |names|
    && forall i :: 0 <= i < |trail| ==>
         HopOk(trail[i]) && trail[i].name == names[i] && trail[i].parent == End(root, trail[..i])
  }

  /** Every directory made is a component of the path that was missing where the trail had led by then. */
  ghost predicate MadeAlong(root: Inode, trail: seq<Hop>, names: seq<string>, made: seq<Making>) {
    forall i :: 0 <= i < |made| ==> MakingOk(made[i]) && MadeOn(root, trail, names, made[i])
  }

  ghost predicate MadeOn(root: Inode, trail: seq<Hop>, names: seq<string>, m: Making) {
    exists j :: 0 <= j <= |trail| && j < |names| && m.name == names[j] && m.parent == End(root, trail[..j])
  }

  lemma MadeOnLonger(root: Inode, trail: seq<Hop>, hop: Hop, names: seq<string>, m: Making)
    requires MadeOn(root, trail, names, m)
    ensures MadeOn(root, trail + [hop], names, m)
  {
    var j :| 0 <= j <= |trail| && j < |names| && m.name == names[j] && m.parent == End(root, trail[..j]);
    assert (trail + [hop])[..j] == trail[..j];
  }

  lemma OneHop(root: Inode, trail: seq<Hop>, names: seq<string>, made: seq<Making>, hop: Hop)
    requires |trail| < |names| && Follows(root, trail, names[..|trail|]) && MadeAlong(root, trail, names, made)
    requires HopOk(hop) && hop.name == names[|trail|] && hop.parent == End(root, trail)
    ensures Follows(root, trail + [hop], names[..|trail| + 1])
    ensures MadeAlong(root, trail + [hop], names, made)
    ensures End(root, trail + [hop]) == hop.child
  {
    var longer := trail + [hop];
    forall i | 0 <= i < |longer|
      ensures HopOk(longer[i]) && longer[i].name == names[i] && longer[i].parent == End(root, longer[..i])
    {
      assert longer[..i] == trail[..i];
      if i == |trail| {
        assert longer[..i] == trail;
      } else {
        assert names[..|trail|][i] == names[i];
      }
    }
    forall i | 0 <= i < |made|
      ensures MadeOn(root, longer, names, made[i])
    {
      MadeOnLonger(root, trail, hop, names, made[i]);
    }
  }

  lemma OneMaking(root: Inode, trail: seq<Hop>, names: seq<string>, made: seq<Making>, m: Making)
    requires |trail| < |names| && MadeAlong(root, trail, names, made)
    requires MakingOk(m) && m.name == names[|trail|] && m.parent == End(root, trail)
    ensures MadeAlong(root, trail, names, made + [m])
  {
    assert trail[..|trail|] == trail;
    assert MadeOn(root, trail, names, m);
  }

  /** sourceSubPathOpenError: which failures are the caller's fault. */
  function OpenFailure(errno: Errno, missingIsBad: bool): WalkError {
    if errno.ENOTDIR? || errno.ELOOP? || errno.ENAMETOOLONG? || (missingIsBad && errno.ENOENT?)
    then BadSubPath
    else OpenError
  }

  /**
    How a walk's calls follow each other. A failed one is the last, but for a
    component that is missing where creation is on: that one is made, unless it
    was just made, and then, made or found there, opened again. Nothing else is
    ever made.
  */
  ghost predicate Orderly(calls: seq<Call>, createMissing: bool) {
    forall i :: 0 <= i < |calls| ==> OrderlyAt(calls, i, createMissing)
  }

  ghost predicate OrderlyAt(calls: seq<Call>, i: nat, createMissing: bool)
    requires i < |calls|
  {
    match calls[i]
    case OpenStage(errno) => errno.Some? ==> i + 1 == |calls|
    case Open(parent, name, errno) =>
      errno.Some? && i + 1 < |calls| ==>
        && createMissing && errno.value.ENOENT?
        && (i == 0 || !calls[i - 1].Make?)
        && calls[i + 1].Make? && calls[i + 1].parent == parent && calls[i + 1].name == name
    case Make(parent, name, errno) =>
      && createMissing && i > 0 && calls[i - 1] == Open(parent, name, Some(ENOENT))
      && (i + 1 < |calls| ==>
            && (errno.None? || errno.value.EEXIST?)
            && calls[i + 1].Open? && calls[i + 1].parent == parent && calls[i + 1].name == name)
  }

  /** The last of the calls succeeded at opening. */
  ghost predicate Arrived(calls: seq<Call>) {
    calls != [] && !calls[|calls| - 1].Make? && calls[|calls| - 1].errno.None?
  }

  /**
    The last of the calls failed, and with no way on: the error it makes a walk
    stop with. A bad path is one that leads through something that is no directory
    or a link, that is too long, or that is missing where nothing is created.
  */
  ghost predicate Stops(calls: seq<Call>, createMissing: bool, error: WalkError) {
    && calls != [] && calls[|calls| - 1].errno.Some?
    && match calls[|calls| - 1]
       case OpenStage(_) => error.StageError?
       case Make(_, _, errno) => !errno.value.EEXIST? && error.CreateError?
       case Open(_, _, errno) =>
         && (createMissing && errno.value.ENOENT? ==> |calls| > 1 && calls[|calls| - 2].Make?)
         && error ==
            (if errno.value in {ENOTDIR, ELOOP, ENAMETOOLONG} || (errno.value.ENOENT? && !createMissing)
             then BadSubPath else OpenError)
  }

  lemma OrderlyOn(a: seq<Call>, b: seq<Call>, createMissing: bool)
    requires Orderly(a, createMissing) && Arrived(a) && Orderly(b, createMissing) && b != [] && b[0].Open?
    ensures Orderly(a + b, createMissing)
    ensures Arrived(b) ==> Arrived(a + b)
    ensures forall error :: Stops(b, createMissing, error) ==> Stops(a + b, createMissing, error)
  {
    var all := a + b;
    forall i | 0 <= i < |all|
      ensures OrderlyAt(all, i, createMissing)
    {
      if i < |a| {
        assert OrderlyAt(a, i, createMissing);
      } else {
        assert OrderlyAt(b, i - |a|, createMissing);
      }
    }
  }

  method CloseDirectoryWalkFDs(kernel: Kernel, dirFD: int, currentFD: int)
    requires kernel.Valid() && dirFD in kernel.mine && currentFD in kernel.mine
    modifies kernel`fds, kernel`mine
    ensures kernel.Valid() && kernel.mine == old(kernel.mine) - {dirFD, currentFD}
    ensures Keeps(kernel.mine, old(kernel.fds), kernel.fds)
  {
    if currentFD != dirFD {
      kernel.Close(currentFD);
    }
    kernel.Close(dirFD);
  }

  /** What a walk has done: the trail covers the first segments, and the directories made are along it. */
  ghost predicate Walked(root: Inode, trail: seq<Hop>, made: seq<Making>, names: seq<string>, createMissing: bool) {
    && |trail| <= |names|
    && Follows(root, trail, names[..|trail|])
    && MadeAlong(root, trail, names, made)
    && (!createMissing ==> made == [])
  }

  /** What opening one component may have made: nothing, or that component. */
  ghost predicate MadeOne(made: seq<Making>, parent: Inode, name: string, createMissing: bool) {
    made == [] || (createMissing && |made| == 1 && MakingOk(made[0]) && made[0].parent == parent
                   && made[0].name == name)
  }

  lemma WalkedOne(root: Inode, trail: seq<Hop>, made: seq<Making>, names: seq<string>, createMissing: bool,
                  more: seq<Making>, hop: Option<Hop>)
    requires Walked(root, trail, made, names, createMissing) && |trail| < |names|
    requires MadeOne(more, End(root, trail), names[|trail|], createMissing)
    requires hop.Some? ==> HopOk(hop.value) && hop.value.name == names[|trail|] && hop.value.parent == End(root, trail)
    ensures Walked(root, trail, made + more, names, createMissing)
    ensures hop.Some? ==>
              && Walked(root, trail + [hop.value], made + more, names, createMissing)
              && End(root, trail + [hop.value]) == hop.value.child
  {
    if more == [] {
      assert made + more == made;
    } else {
      assert more == [more[0]];
      OneMaking(root, trail, names, made, more[0]);
    }
    if hop.Some? {
      OneHop(root, trail, names, made + more, hop.value);
    }
  }

  /** Calls on one component, how they follow each other and what they come to. */
  ghost predicate OnComponent(calls: seq<Call>, parent: Inode, name: string, createMissing: bool,
                              error: Option<WalkError>)
  {
    && calls != [] && calls[0].Open?
    && (forall i :: 0 <= i < |calls| ==> !calls[i].OpenStage? && calls[i].parent == parent && calls[i].name == name)
    && Orderly(calls, createMissing)
    && if error.Some? then Stops(calls, createMissing, error.value) else Arrived(calls)
  }

  /** Opens one component below the current directory, creating it if it is missing and that is asked for. */
  method OpenOrCreate(kernel: Kernel, currentFD: int, segment: string, createMissing: bool)
    returns (next: int, error: Option<WalkError>, ghost hop: Option<Hop>, ghost more: seq<Making>,
             ghost calls: seq<Call>)
    requires kernel.Valid() && currentFD in kernel.mine
    modifies kernel
    ensures kernel.Valid() && Keeps(old(kernel.mine), old(kernel.fds), kernel.fds)
    ensures kernel.calls == old(kernel.calls) + calls
    ensures OnComponent(calls, old(kernel.fds[currentFD]), segment, createMissing, error)
    ensures kernel.made == old(kernel.made) + more
    ensures MadeOne(more, old(kernel.fds[currentFD]), segment, createMissing)
    ensures error.Some? <==> hop.None?
    ensures hop.None? ==> kernel.mine == old(kernel.mine) && kernel.opens == old(kernel.opens)
    ensures hop.Some? ==>
              && next !in old(kernel.mine) && kernel.mine == old(kernel.mine) + {next}
              && kernel.opens == old(kernel.opens) + [hop.value]
              && HopOk(hop.value) && hop.value.parent == old(kernel.fds[currentFD]) && hop.value.name == segment
              && kernel.fds[next] == hop.value.child
  {
    hop, more := None, [];
    ghost var parent := kernel.fds[currentFD];
    var attempt := kernel.Openat(currentFD, segment);
    calls := [Open(parent, segment, if attempt.Failure? then Some(attempt.errno) else None)];
    if attempt == Failure(ENOENT) && createMissing {
      var mkdirErr := kernel.Mkdirat(currentFD, segment);
      calls := calls + [Make(parent, segment, mkdirErr)];
      if mkdirErr.None? {
        more := [kernel.made[|kernel.made| - 1]];
      }
      if mkdirErr.Some? && mkdirErr != Some(EEXIST) {
        return -1, Some(CreateError), None, more, calls;
      }
      attempt := kernel.Openat(currentFD, segment);
      calls := calls + [Open(parent, segment, if attempt.Failure? then Some(attempt.errno) else None)];
      if attempt.Failure? {
        return -1, Some(OpenFailure(attempt.errno, false)), None, more, calls;
      }
    }
    if attempt.Failure? {
      return -1, Some(OpenFailure(attempt.errno, !createMissing)), None, more, calls;
    }
    hop := Some(kernel.opens[|kernel.opens| - 1]);
    return attempt.fd, None, hop, more, calls;
  }

  /** The last of the calls is on the component after those that the trail covers. */
  ghost predicate StopsAt(calls: seq<Call>, root: Inode, trail: seq<Hop>, names: seq<string>) {
    && calls != [] && |trail| < |names|
    && var last := calls[|calls| - 1];
       !last.OpenStage? && last.parent == End(root, trail) && last.name == names[|trail|]
  }

  /**
    For every tree, path and interference: success holds exactly one descriptor
    more, reached from the staged mount by one existing directory entry per
    segment; failure holds none more. Nothing is closed that is not held. Only
    missing components of the path are made, they are not taken back when the
    walk stops later, and with creation off nothing is made. The walk stops on a
    failed call of its own alone, with the error that call means, and with
    creation on a missing component stops it only if making it, or opening it
    once it is made, fails.
  */
  method OpenDirectoryNoFollow(kernel: Kernel, sourceSubPath: string, createMissing: bool)
    returns (walk: Walk, ghost root: Inode, ghost trail: seq<Hop>, ghost made: seq<Making>, ghost calls: seq<Call>)
    requires kernel.Valid()
    modifies kernel
    ensures kernel.Valid() && Keeps(old(kernel.mine), old(kernel.fds), kernel.fds)
    ensures walk.Stopped? ==> kernel.mine == old(kernel.mine)
    ensures walk.Opened? ==> walk.fd !in old(kernel.mine) && kernel.mine == old(kernel.mine) + {walk.fd}
    ensures !SourceSubPaths.Accepted(sourceSubPath) ==> walk == Stopped(BadSubPath) && unchanged(kernel)
    ensures kernel.opens == old(kernel.opens) + trail && kernel.made == old(kernel.made) + made
    ensures Walked(root, trail, made, Lexical.Segments(sourceSubPath), createMissing)
    ensures walk.Opened? ==> |trail| == |Lexical.Segments(sourceSubPath)| && kernel.fds[walk.fd] == End(root, trail)
    ensures kernel.calls == old(kernel.calls) + calls && Orderly(calls, createMissing)
    ensures SourceSubPaths.Accepted(sourceSubPath) ==>
              if walk.Opened? then Arrived(calls) else Stops(calls, createMissing, walk.error)
    ensures walk.Stopped? && SourceSubPaths.Accepted(sourceSubPath) && !walk.error.StageError? ==>
              StopsAt(calls, root, trail, Lexical.Segments(sourceSubPath))
  {
    root, trail, made, calls := 0, [], [], [];
    var parsed := SourceSubPaths.SourceSubPathSegments(sourceSubPath);
    if parsed.Err? {
      return Stopped(BadSubPath), root, trail, made, calls;
    }
    var segments := parsed.value;
    var stage;
    stage, root := kernel.OpenStage();
    calls := [Call.OpenStage(if stage.Failure? then Some(stage.errno) else None)];
    if stage.Failure? {
      return Stopped(StageError), root, trail, made, calls;
    }
    if |segments| == 0 {
      return Opened(stage.fd), root, trail, made, calls;
    }
    ghost var more;
    walk, trail, made, more := WalkSegments(kernel, stage.fd, segments, createMissing, root);
    OrderlyOn(calls, more, createMissing);
    calls := calls + more;
  }

  /** One turn of the walk's loop: go down one segment, or close both descriptors and stop. */
  method WalkOn(kernel: Kernel, dirFD: int, currentFD: int, segment: string, createMissing: bool)
    returns (nextFD: int, error: Option<WalkError>, ghost hop: Option<Hop>, ghost more: seq<Making>,
             ghost calls: seq<Call>)
    requires kernel.Valid() && dirFD in kernel.mine && currentFD in kernel.mine
    modifies kernel
    ensures kernel.calls == old(kernel.calls) + calls
    ensures OnComponent(calls, old(kernel.fds[currentFD]), segment, createMissing, error)
    ensures kernel.Valid() && Keeps(old(kernel.mine) * kernel.mine, old(kernel.fds), kernel.fds)
    ensures kernel.made == old(kernel.made) + more && MadeOne(more, old(kernel.fds[currentFD]), segment, createMissing)
    ensures error.Some? <==> hop.None?
    ensures hop.None? ==> kernel.mine == old(kernel.mine) - {dirFD, currentFD} && kernel.opens == old(kernel.opens)
    ensures hop.Some? ==>
              && nextFD !in old(kernel.mine)
              && kernel.mine == old(kernel.mine) - (if currentFD == dirFD then {} else {currentFD}) + {nextFD}
              && kernel.opens == old(kernel.opens) + [hop.value]
              && HopOk(hop.value) && hop.value.parent == old(kernel.fds[currentFD]) && hop.value.name == segment
              && kernel.fds[nextFD] == hop.value.child
  {
    nextFD, error, hop, more, calls := OpenOrCreate(kernel, currentFD, segment, createMissing);
    if error.Some? {
      CloseDirectoryWalkFDs(kernel, dirFD, currentFD);
    } else if currentFD != dirFD {
      kernel.Close(currentFD);
    }
  }

  /** The same, told in terms of the walk so far. */
  method WalkFurther(kernel: Kernel, dirFD: int, currentFD: int, segments: seq<string>, createMissing: bool,
                     ghost root: Inode,
                     ghost opens: seq<Hop>, ghost trail: seq<Hop>, ghost before: seq<Making>, ghost made: seq<Making>,
                     i: nat)
    returns (nextFD: int, error: Option<WalkError>, ghost trail': seq<Hop>, ghost made': seq<Making>,
             ghost calls: seq<Call>)
    requires kernel.Valid() && dirFD in kernel.mine && currentFD in kernel.mine
    requires kernel.opens == opens + trail && kernel.made == before + made
    requires Walked(root, trail, made, segments, createMissing) && |trail| == i < |segments|
    requires kernel.fds[currentFD] == End(root, trail)
    modifies kernel
    ensures kernel.Valid() && Keeps(old(kernel.mine) * kernel.mine, old(kernel.fds), kernel.fds)
    ensures kernel.calls == old(kernel.calls) + calls
    ensures OnComponent(calls, End(root, trail), segments[i], createMissing, error)
    ensures error.Some? ==> trail' == trail
    ensures kernel.opens == opens + trail' && kernel.made == before + made'
    ensures Walked(root, trail', made', segments, createMissing)
    ensures error.Some? ==> kernel.mine == old(kernel.mine) - {dirFD, currentFD}
    ensures error.None? ==>
              && nextFD !in old(kernel.mine) && |trail'| == i + 1
              && kernel.mine == old(kernel.mine) - (if currentFD == dirFD then {} else {currentFD}) + {nextFD}
              && kernel.fds[nextFD] == End(root, trail')
  {
    ghost var hop, more;
    nextFD, error, hop, more, calls := WalkOn(kernel, dirFD, currentFD, segments[i], createMissing);
    WalkedOne(root, trail, made, segments, createMissing, more, hop);
    Lexical.Assoc(before, made, more);
    trail', made' := trail, made + more;
    if hop.Some? {
      Lexical.Assoc(opens, trail, [hop.value]);
      trail' := trail + [hop.value];
    }
  }

  /** Calls on components that follow each other as they should. */
  ghost predicate Called(calls: seq<Call>, createMissing: bool) {
    calls != [] && calls[0].Open? && Orderly(calls, createMissing)
  }

  lemma CalledOn(a: seq<Call>, b: seq<Call>, parent: Inode, name: string, createMissing: bool, error: Option<WalkError>)
    requires a != [] ==> Called(a, createMissing) && Arrived(a)
    requires OnComponent(b, parent, name, createMissing, error)
    ensures Called(a + b, createMissing)
    ensures if error.Some? then Stops(a + b, createMissing, error.value) else Arrived(a + b)
    ensures var last := (a + b)[|a + b| - 1]; !last.OpenStage? && last.parent == parent && last.name == name
  {
    if a == [] {
      assert a + b == b;
    } else {
      OrderlyOn(a, b, createMissing);
    }
  }

  /** The loop of the walk, which owns the stage's descriptor. */
  method WalkSegments(kernel: Kernel, dirFD: int, segments: seq<string>, createMissing: bool, ghost root: Inode)
    returns (walk: Walk, ghost trail: seq<Hop>, ghost made: seq<Making>, ghost calls: seq<Call>)
    requires kernel.Valid() && dirFD in kernel.mine && kernel.fds[dirFD] == root && segments != []
    modifies kernel
    ensures kernel.Valid() && Keeps(old(kernel.mine) - {dirFD}, old(kernel.fds), kernel.fds)
    ensures walk.Stopped? ==> kernel.mine == old(kernel.mine) - {dirFD}
    ensures walk.Opened? ==> walk.fd !in old(kernel.mine) && kernel.mine == old(kernel.mine) - {dirFD} + {walk.fd}
    ensures kernel.opens == old(kernel.opens) + trail && kernel.made == old(kernel.made) + made
    ensures Walked(root, trail, made, segments, createMissing)
    ensures walk.Opened? ==> |trail| == |segments| && kernel.fds[walk.fd] == End(root, trail)
    ensures kernel.calls == old(kernel.calls) + calls && Called(calls, createMissing)
    ensures if walk.Opened? then Arrived(calls)
            else Stops(calls, createMissing, walk.error) && StopsAt(calls, root, trail, segments)
  {
    trail, made, calls := [], [], [];
    var currentFD := dirFD;
    for i := 0 to |segments|
      invariant kernel.Valid() && kernel.mine == old(kernel.mine) + {currentFD}
      invariant if i == 0 then currentFD == dirFD else currentFD !in old(kernel.mine)
      invariant Keeps(old(kernel.mine), old(kernel.fds), kernel.fds)
      invariant kernel.opens == old(kernel.opens) + trail && kernel.made == old(kernel.made) + made
      invariant Walked(root, trail, made, segments, createMissing) && |trail| == i
      invariant kernel.fds[currentFD] == End(root, trail)
      invariant kernel.calls == old(kernel.calls) + calls
      invariant if i == 0 then calls == [] else Called(calls, createMissing) && Arrived(calls)
    {
      var nextFD, error;
      ghost var more, parent := [], End(root, trail);
      nextFD, error, trail, made, more :=
        WalkFurther(kernel, dirFD, currentFD, segments, createMissing, root, old(kernel.opens), trail, old(kernel.made),
                    made, i);
      CalledOn(calls, more, parent, segments[i], createMissing, error);
      Lexical.Assoc(old(kernel.calls), calls, more);
      calls := calls + more;
      if error.Some? {
        return Stopped(error.value), trail, made, calls;
      }
      currentFD := nextFD;
    }
    kernel.Close(dirFD);
    return Opened(currentFD), trail, made, calls;
  }
}
