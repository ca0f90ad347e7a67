/** Opening a directory chain one component at a time. */
module PathWalk {
  import opened Prelude
  import opened FileSystemModel

  /** A directory as the source spells it: an anchor and the components below it. */
  datatype DirPath = DirPath(absolute: bool, components: seq<Name>)

  predicate Skipped(component: Name) {
    component == "" || component == "."
  }

  /** The directory `start/components[..i]` names on one fixed disk. */
  function Resolve(d: Disk, start: Ino, components: seq<Name>, i: nat): Option<Ino>
    requires i <= |components|
  {
    if i == 0 then Some(start)
    else
      var above := Resolve(d, start, components, i - 1);
      var c := components[i - 1];
      if Skipped(c) then above
      else if above == None || c == ".." then None
      else Step(d, above.value, c)
  }

  function Anchor(fs: FileSystem, path: DirPath): Ino {
    if path.absolute then fs.root else fs.cwd
  }

  /** The directory a path names at this moment. */
  function Named(fs: FileSystem, path: DirPath): Option<Ino>
    reads fs`disk
  {
    Resolve(fs.disk, Anchor(fs, path), path.components, |path.components|)
  }

  lemma {:induction false} UnresolvedBelow(d: Disk, start: Ino, components: seq<Name>, i: nat, j: nat)
    requires i <= j <= |components| && Resolve(d, start, components, i) == None
    ensures Resolve(d, start, components, j) == None
  {
    if i < j {
      UnresolvedBelow(d, start, components, i, j - 1);
    }
  }

  lemma {:induction false} ResolveKept(a: Disk, b: Disk, start: Ino, components: seq<Name>, i: nat)
    requires i <= |components|
    requires forall dir, component :: Step(b, dir, component) == Step(a, dir, component)
    ensures Resolve(b, start, components, i) == Resolve(a, start, components, i)
  {
    if i > 0 {
      ResolveKept(a, b, start, components, i - 1);
    }
  }

  /** Paths depend on the volatile names alone, and not on the names of regular files. */
  lemma NamedKept(a: Disk, b: Disk, l: Loc, start: Ino, components: seq<Name>)
    requires forall k | k != l :: Lookup(b.names, k) == Lookup(a.names, k)
    requires Lookup(a.names, l) == None || Lookup(a.names, l).value.kind.Regular?
    requires Lookup(b.names, l) == None || Lookup(b.names, l).value.kind.Regular?
    ensures Resolve(a, start, components, |components|) == Resolve(b, start, components, |components|)
  {
    StepsKept(a, b, l);
    ResolveKept(a, b, start, components, |components|);
  }

  lemma NamedBySameNames(a: Disk, b: Disk, start: Ino, components: seq<Name>)
    requires a.names == b.names
    ensures Resolve(a, start, components, |components|) == Resolve(b, start, components, |components|)
  {
    ResolveKept(a, b, start, components, |components|);
  }

  /** At crash point `k`, `component` leads from `above` to `d`. */
  ghost predicate Hop(h: seq<Disk>, k: nat, above: Ino, component: Name, d: Ino) {
    k < |h| && Step(h[k], above, component) == Some(d)
  }

  /** `d` was reached component by component, each one bound at some later moment
      of the history than the one before it. */
  ghost predicate Reached(h: seq<Disk>, from: nat, to: nat, start: Ino, components: seq<Name>, i: nat, d: Ino)
    requires i <= |components|
  {
    if i == 0 then d == start
    else if Skipped(components[i - 1]) then Reached(h, from, to, start, components, i - 1, d)
    else
      && components[i - 1] != ".."
      && exists k: nat, above: Ino {:trigger Hop(h, k, above, components[i - 1], d)} ::
           && from <= k < to && Hop(h, k, above, components[i - 1], d)
           && Reached(h, from, k, start, components, i - 1, above)
  }

  lemma ReachedStart(h: seq<Disk>, from: nat, start: Ino, components: seq<Name>)
    ensures Reached(h, from, |h|, start, components, 0, start)
  {
  }

  lemma {:induction false} ReachedLater(
    h: seq<Disk>, h': seq<Disk>, from: nat, to: nat, to': nat, start: Ino, components: seq<Name>, i: nat, d: Ino)
    requires i <= |components| && to <= to' && h <= h'
    requires Reached(h, from, to, start, components, i, d)
    ensures Reached(h', from, to', start, components, i, d)
  {
    if i > 0 {
      if Skipped(components[i - 1]) {
        ReachedLater(h, h', from, to, to', start, components, i - 1, d);
      } else {
        var k: nat, above: Ino :|
          && from <= k < to && Hop(h, k, above, components[i - 1], d)
          && Reached(h, from, k, start, components, i - 1, above);
        ReachedLater(h, h', from, k, k, start, components, i - 1, above);
        assert Hop(h', k, above, components[i - 1], d);
      }
    }
  }

  lemma {:induction false} ReachedSooner(
    h: seq<Disk>, from: nat, from': nat, to: nat, start: Ino, components: seq<Name>, i: nat, d: Ino)
    requires i <= |components| && from <= from'
    requires Reached(h, from', to, start, components, i, d)
    ensures Reached(h, from, to, start, components, i, d)
  {
    if i > 0 {
      if Skipped(components[i - 1]) {
        ReachedSooner(h, from, from', to, start, components, i - 1, d);
      } else {
        var k: nat, above: Ino :|
          && from' <= k < to && Hop(h, k, above, components[i - 1], d)
          && Reached(h, from', k, start, components, i - 1, above);
        ReachedSooner(h, from, from', k, start, components, i - 1, above);
      }
    }
  }

  /** One disk on which the whole path resolves is a special case of being reached. */
  lemma {:induction false} ResolvedIsReached(
    h: seq<Disk>, from: nat, k: nat, start: Ino, components: seq<Name>, i: nat, d: Ino)
    requires i <= |components| && forall j | from <= j < |h| :: h[j] == h[from]
    requires from + i <= k <= |h| && from < |h| && Resolve(h[from], start, components, i) == Some(d)
    ensures Reached(h, from, k, start, components, i, d)
  {
    if i > 0 {
      if Skipped(components[i - 1]) {
        ResolvedIsReached(h, from, k, start, components, i - 1, d);
      } else {
        var above := Resolve(h[from], start, components, i - 1).value;
        ResolvedIsReached(h, from, k - 1, start, components, i - 1, above);
        assert Hop(h, k - 1, above, components[i - 1], d);
      }
    }
  }

  /** The frame of a walk: unless it may make directories it binds no name. */
  twostate predicate Walked(fs: FileSystem, create: bool)
    reads fs
  {
    && fs.Valid()
    && old(fs.history) <= fs.history
    && fs.claim == old(fs.claim) && fs.faults >= old(fs.faults)
    && (!create ==> fs.Elapsed() && fs.touched == old(fs.touched))
  }

  /** `b` is `a` with the directory `made` bound in `dir` as `component`, and that durably. */
  predicate Made(a: Disk, b: Disk, dir: Ino, component: Name, made: Ino) {
    && Loc(dir, component) !in a.names && Bare(a, made) && made != dir && made.kind == Directory(true)
    && b == FsyncedDirectory(Created(a, Loc(dir, component), made), dir)
  }

  /** `b` has the names of `a`, and more that are durable. */
  predicate Grown(a: Disk, b: Disk) {
    && (forall l | l in a.names :: Lookup(b.names, l) == Some(a.names[l]))
    && (forall l | l in b.names && l !in a.names :: Lookup(b.durable, l) == Some(b.names[l]))
  }

  predicate Empty(d: Disk, dir: Ino) {
    forall l | l in d.names :: l.dir != dir
  }

  /** Whether a path can be walked from component `i` on when missing directories may be made:
      below the first of these every component is missing, and only ".." is refused. */
  predicate Makeable(d: Disk, dir: Option<Ino>, components: seq<Name>, i: nat)
    requires i <= |components|
    decreases |components| - i
  {
    if i == |components| then true
    else if Skipped(components[i]) then Makeable(d, dir, components, i + 1)
    else
      && components[i] != ".."
      && if dir == None || Loc(dir.value, components[i]) !in d.names then Makeable(d, None, components, i + 1)
         else Step(d, dir.value, components[i]).Some? && Makeable(d, Step(d, dir.value, components[i]), components, i + 1)
  }

  /** The directory can be opened, perhaps after making some part of its path. */
  predicate Reachable(fs: FileSystem, path: DirPath)
    reads fs`disk
  {
    Makeable(fs.disk, Some(Anchor(fs, path)), path.components, 0)
  }

  lemma {:induction false} ResolveGrows(a: Disk, b: Disk, start: Ino, components: seq<Name>, i: nat)
    requires i <= |components| && Grown(a, b) && Resolve(a, start, components, i).Some?
    ensures Resolve(b, start, components, i) == Resolve(a, start, components, i)
  {
    if i > 0 {
      ResolveGrows(a, b, start, components, i - 1);
    }
  }

  lemma GrownFurther(a: Disk, b: Disk, c: Disk, dir: Ino, component: Name, made: Ino)
    requires Grown(a, b) && Made(b, c, dir, component, made)
    ensures Grown(a, c) && Grown(b, c) && Empty(c, made) && Step(c, dir, component) == Some(made)
  {
  }

  /** What a walk that makes directories has established after `i` components when nothing
      moves: it is on a part of the path that was there, or in a directory of its own. */
  ghost predicate Making(a: Disk, d: Disk, start: Ino, components: seq<Name>, i: nat, dir: Ino)
    requires i <= |components|
  {
    && Grown(a, d) && Resolve(d, start, components, i) == Some(dir)
    && var met := Resolve(a, start, components, i);
    && (if met.Some? then d == a else Empty(d, dir))
    && (Makeable(a, Some(start), components, 0) <==> Makeable(a, met, components, i))
  }

  lemma MakingNext(a: Disk, d: Disk, e: Disk, start: Ino, components: seq<Name>, i: nat, dir: Ino, made: Ino)
    requires i < |components| && Making(a, d, start, components, i, dir)
    requires
      && !Skipped(components[i]) && components[i] != ".."
      && Step(d, dir, components[i]) == None && Loc(dir, components[i]) !in d.names
      ==> Made(d, e, dir, components[i], made)
    ensures
      var c := components[i];
      if Skipped(c) then Making(a, d, start, components, i + 1, dir)
      else if c != ".." && Step(d, dir, c).Some? then Making(a, d, start, components, i + 1, Step(d, dir, c).value)
      else if c != ".." && Loc(dir, c) !in d.names then Making(a, e, start, components, i + 1, made)
      else !Makeable(a, Some(start), components, 0)
  {
    var c := components[i];
    if !Skipped(c) && c != ".." && Loc(dir, c) !in d.names {
      GrownFurther(a, d, e, dir, c, made);
      ResolveGrows(d, e, start, components, i);
    }
  }

  lemma MakingStarts(a: Disk, start: Ino, components: seq<Name>)
    ensures Making(a, a, start, components, 0, start) && OnCourse(a, start, components, 0, start)
  {
  }

  lemma MakingDone(a: Disk, d: Disk, start: Ino, components: seq<Name>, dir: Ino)
    requires Making(a, d, start, components, |components|, dir)
    ensures Makeable(a, Some(start), components, 0)
    ensures Grown(a, d) && Resolve(d, start, components, |components|) == Some(dir)
    ensures Resolve(a, start, components, |components|) == None ==> Empty(d, dir)
  {
  }

  /** Inspects an entry, making it a directory when it is missing and `create` is set. */
  method FindOrMake(fs: FileSystem, fd: Fd, component: Name, create: bool) returns (r: Outcome<Meta>)
    requires fs.Valid() && fd in fs.fds && (create ==> fs.claim == None)
    modifies fs`disk, fs`history, fs`faults, fs`touched
    ensures Walked(fs, create)
    ensures r.Raised? ==> r.error in {ConfigurationError, FileNotFound}
    ensures r == Raised(FileNotFound) ==> fs.Entry(fd, component) == None && !create
    ensures fs.calm && old(fs.Entry(fd, component)).Some? ==>
      fs.disk == old(fs.disk) && fs.touched == old(fs.touched) && r == Ok(MetaOf(fs.disk, old(fs.Entry(fd, component)).value))
    ensures fs.calm && !create && fs.Entry(fd, component) == None ==> r == Raised(FileNotFound)
    ensures fs.calm && create && old(fs.Entry(fd, component)) == None ==>
      && fs.Entry(fd, component).Some? && r == Ok(MetaOf(fs.disk, fs.Entry(fd, component).value))
      && Made(old(fs.disk), fs.disk, fs.fds[fd], component, r.value.ino)
      && fs.touched == old(fs.touched) + {Loc(fs.fds[fd], component)}
  {
    var found := fs.Stat(fd, component);
    if found.Ok? { return found; }
    if found.error != FileNotFound { return Raised(ConfigurationError); }
    if !create { return Raised(FileNotFound); }
    var made, _ := fs.Mkdir(fd, component);
    if made.Raised? { return Raised(ConfigurationError); }
    var synced, _ := fs.FsyncDirectory(fd);
    if synced.Raised? { return Raised(ConfigurationError); }
    found := fs.Stat(fd, component);
    if found.Raised? { return Raised(ConfigurationError); }
    r := found;
  }

  /** Confirms that an opened directory is the inspected entry; for a symbolic link,
      that the link itself is still the inspected one.  Anything else is closed. */
  method Confirm(fs: FileSystem, fd: Fd, component: Name, entry: Meta, child: Fd) returns (r: Outcome<Fd>)
    requires fs.Valid() && fd in fs.fds && child in fs.fds && child != fd
    modifies fs`disk, fs`history, fs`faults, fs`fds
    ensures fs.Elapsed()
    ensures if r.Ok? then r.value == child && fs.fds == old(fs.fds)
            else r.error == ConfigurationError && fs.fds == old(fs.fds) - {child}
    ensures fs.calm && r.Raised? ==>
      || !old(fs.fds[child]).kind.Directory?
      || if entry.ino.kind.Symlink? then old(fs.Entry(fd, component)) != Some(entry.ino)
         else old(fs.fds[child]) != entry.ino
    ensures r.Ok? ==> fs.fds[child].kind.Directory? && (!entry.ino.kind.Symlink? ==> fs.fds[child] == entry.ino)
  {
    var inspected := fs.Fstat(child);
    if inspected.Raised? {
      fs.Close(child);
      return Raised(ConfigurationError);
    }
    var stable := inspected.value.ino == entry.ino;
    if entry.ino.kind.Symlink? {
      var again := fs.Stat(fd, component);
      if again.Raised? {
        fs.Close(child);
        return Raised(ConfigurationError);
      }
      stable := again.value.ino == entry.ino;
    }
    if !inspected.value.ino.kind.Directory? || !stable {
      fs.Close(child);
      return Raised(ConfigurationError);
    }
    r := Ok(child);
  }

  /** An entry that no path may lead through: a symbolic link that this process could have
      redirected, or neither a directory nor a link. */
  predicate Refused(dir: Ino, entry: Ino) {
    if entry.kind.Symlink? then dir.kind != Directory(false) else !entry.kind.Directory?
  }

  /** Opens the inspected entry: a directory as it is, a symbolic link only when this
      process cannot have redirected it. */
  method OpenEntry(fs: FileSystem, fd: Fd, component: Name, entry: Meta) returns (r: Outcome<Fd>)
    requires fs.Valid() && fd in fs.fds
    modifies fs`disk, fs`history, fs`faults, fs`fds
    ensures fs.Elapsed()
    ensures r.Raised? ==> fs.fds == old(fs.fds) && r.error in {ConfigurationError, ValidationError}
    ensures Refused(old(fs.fds[fd]), entry.ino) ==> r == Raised(ValidationError)
    ensures fs.calm && r == Raised(ValidationError) ==> Refused(old(fs.fds[fd]), entry.ino)
    ensures r.Ok? ==>
      && r.value !in old(fs.fds) && r.value in fs.fds && fs.fds == old(fs.fds)[r.value := fs.fds[r.value]]
      && Step(fs.disk, fs.fds[fd], component) == Some(fs.fds[r.value]) && |old(fs.history)| < |fs.history|
    ensures fs.calm && old(fs.Entry(fd, component)) == Some(entry.ino) ==>
      (r.Ok? <==> Step(old(fs.disk), old(fs.fds[fd]), component).Some?)
  {
    hide FileSystem.Valid, ViewOf;
    if entry.ino.kind.Symlink? {
      var writable := fs.Access(fd);
      if writable { return Raised(ValidationError); }
    }
    if !entry.ino.kind.Symlink? && !entry.ino.kind.Directory? { return Raised(ValidationError); }
    var child := fs.OpenDirectory(fd, component, entry.ino.kind.Symlink?);
    if child.Raised? { return Raised(ConfigurationError); }
    r := child;
  }

  /** One component of the walk. */
  method OpenComponent(fs: FileSystem, fd: Fd, component: Name, create: bool) returns (r: Outcome<Fd>, ghost at: nat)
    requires fs.Valid() && fd in fs.fds && (create ==> fs.claim == None)
    modifies fs`disk, fs`history, fs`faults, fs`touched, fs`fds
    ensures Walked(fs, create)
    ensures r.Raised? ==> fs.fds == old(fs.fds)
    ensures r.Raised? ==> r.error in {ConfigurationError, ValidationError, FileNotFound}
    ensures r == Raised(FileNotFound) ==> fs.Entry(fd, component) == None && !create
    ensures fs.calm && old(fs.Entry(fd, component)).Some? ==>
      (r == Raised(ValidationError) <==> Refused(old(fs.fds[fd]), old(fs.Entry(fd, component)).value))
    ensures r.Ok? ==>
      && r.value !in old(fs.fds) && r.value in fs.fds
      && fs.fds == old(fs.fds)[r.value := fs.fds[r.value]]
      && fs.fds[r.value].kind.Directory?
      && |old(fs.history)| <= at && Hop(fs.history, at, old(fs.fds[fd]), component, fs.fds[r.value])
    ensures fs.calm && Step(old(fs.disk), old(fs.fds[fd]), component).Some? ==>
      && fs.disk == old(fs.disk) && fs.touched == old(fs.touched)
      && r.Ok? && Some(fs.fds[r.value]) == Step(old(fs.disk), old(fs.fds[fd]), component)
    ensures fs.calm && (create ==> old(fs.Entry(fd, component)).Some?) && Step(old(fs.disk), old(fs.fds[fd]), component) == None ==>
      r.Raised?
    ensures fs.calm && create && old(fs.Entry(fd, component)) == None ==>
      r.Ok? && Made(old(fs.disk), fs.disk, old(fs.fds[fd]), component, fs.fds[r.value])
    ensures fs.calm && !create ==> (r == Raised(FileNotFound) <==> old(fs.Entry(fd, component)) == None)
  {
    hide FileSystem.Valid, ViewOf;
    at := 0;
    var found := FindOrMake(fs, fd, component, create);
    if found.Raised? { return Raised(found.error), at; }
    var entry := found.value;
    var child := OpenEntry(fs, fd, component, entry);
    if child.Raised? { return child, at; }
    fs.Present();
    at := |fs.history| - 1;
    assert Hop(fs.history, at, old(fs.fds[fd]), component, fs.fds[child.value]);
    r := Confirm(fs, fd, component, entry, child.value);
  }

  /** The first component that cannot be followed is one that has no entry. */
  ghost predicate Missing(d: Disk, start: Ino, components: seq<Name>) {
    exists i :: 0 <= i < |components| && MissingAt(d, start, components, i)
  }

  predicate MissingAt(d: Disk, start: Ino, components: seq<Name>, i: nat)
    requires i < |components|
  {
    && !Skipped(components[i]) && components[i] != ".."
    && var above := Resolve(d, start, components, i);
    above.Some? && Loc(above.value, components[i]) !in d.names
  }

  /** A walk that comes to a dead end at component `i` for another reason misses nothing. */
  lemma DeadEnd(d: Disk, start: Ino, components: seq<Name>, i: nat)
    requires i < |components| && !MissingAt(d, start, components, i)
    requires Resolve(d, start, components, i + 1) == None
    requires forall j | 0 <= j < i :: !MissingAt(d, start, components, j)
    ensures !Missing(d, start, components) && Resolve(d, start, components, |components|) == None
  {
    forall j | i < j <= |components| ensures Resolve(d, start, components, j) == None {
      UnresolvedBelow(d, start, components, i + 1, j);
    }
  }

  lemma ReachedNext(
    h: seq<Disk>, h': seq<Disk>, from: nat, at: nat, start: Ino, components: seq<Name>, i: nat, dir: Ino, d: Ino)
    requires i < |components| && h <= h' && from <= |h| <= at
    requires Reached(h, from, |h|, start, components, i, dir)
    requires
      if Skipped(components[i]) then d == dir
      else components[i] != ".." && Hop(h', at, dir, components[i], d)
    ensures Reached(h', from, |h'|, start, components, i + 1, d)
  {
    if Skipped(components[i]) {
      ReachedLater(h, h', from, |h|, |h'|, start, components, i, dir);
    } else {
      ReachedLater(h, h', from, |h|, at, start, components, i, dir);
    }
  }

  /** Component `i` was looked up at crash point `k`, below a directory that the components
      before it had led to, and had no entry there. */
  ghost predicate LostAt(h: seq<Disk>, from: nat, start: Ino, components: seq<Name>, i: nat, k: nat, above: Ino) {
    && i < |components| && from <= k < |h|
    && Reached(h, from, k + 1, start, components, i, above)
    && Loc(above, components[i]) !in h[k].names
  }

  /** Somewhere along the path a component had no entry. */
  ghost predicate Lost(h: seq<Disk>, from: nat, start: Ino, components: seq<Name>) {
    exists i: nat, k: nat, above: Ino :: LostAt(h, from, start, components, i, k, above)
  }

  lemma LostNow(h: seq<Disk>, h': seq<Disk>, from: nat, start: Ino, components: seq<Name>, i: nat, above: Ino)
    requires i < |components| && from < |h| && h <= h' && Reached(h, from, |h|, start, components, i, above)
    requires Loc(above, components[i]) !in h'[|h'| - 1].names
    ensures Lost(h', from, start, components)
  {
    ReachedLater(h, h', from, |h|, |h'|, start, components, i, above);
    assert LostAt(h', from, start, components, i, |h'| - 1, above);
  }

  /** What a walk has established after `i` components when nothing moves. */
  ghost predicate OnCourse(d: Disk, start: Ino, components: seq<Name>, i: nat, dir: Ino)
    requires i <= |components|
  {
    && Resolve(d, start, components, i) == Some(dir)
    && forall j | 0 <= j < i :: !MissingAt(d, start, components, j)
  }

  lemma OnCourseNext(d: Disk, start: Ino, components: seq<Name>, i: nat, dir: Ino)
    requires i < |components| && OnCourse(d, start, components, i, dir)
    ensures
      var c := components[i];
      if Skipped(c) then OnCourse(d, start, components, i + 1, dir)
      else if c != ".." && Step(d, dir, c).Some? then OnCourse(d, start, components, i + 1, Step(d, dir, c).value)
      else
        && Resolve(d, start, components, |components|) == None
        && (Missing(d, start, components) <==> c != ".." && Loc(dir, c) !in d.names)
  {
    var c := components[i];
    if !Skipped(c) && !(c != ".." && Step(d, dir, c).Some?) {
      UnresolvedBelow(d, start, components, i + 1, |components|);
      if c != ".." && Loc(dir, c) !in d.names {
        assert MissingAt(d, start, components, i);
      } else {
        DeadEnd(d, start, components, i);
      }
    }
  }

  lemma Arrived(d: Disk, start: Ino, components: seq<Name>, dir: Ino)
    requires OnCourse(d, start, components, |components|, dir)
    ensures !Missing(d, start, components) && Resolve(d, start, components, |components|) == Some(dir)
  {
  }

  /** Moves a walk one component on, from the open directory to the next. */
  method Advance(
    fs: FileSystem, descriptor: Fd, path: DirPath, i: nat, create: bool, ghost from: nat, ghost base: map<Fd, Ino>)
    returns (r: Outcome<Fd>)
    requires fs.Valid() && (create ==> fs.claim == None)
    requires i < |path.components| && from < |fs.history|
    requires descriptor !in base && descriptor in fs.fds && fs.fds == base[descriptor := fs.fds[descriptor]]
    requires fs.fds[descriptor].kind.Directory?
    requires Reached(fs.history, from, |fs.history|, Anchor(fs, path), path.components, i, fs.fds[descriptor])
    modifies fs`disk, fs`history, fs`faults, fs`touched, fs`fds
    ensures Walked(fs, create)
    ensures r.Raised? ==> fs.fds == base && r.error in {ConfigurationError, ValidationError, FileNotFound}
    ensures r == Raised(FileNotFound) ==> !create && Lost(fs.history, from, Anchor(fs, path), path.components)
    ensures r.Ok? ==>
      && r.value !in base && r.value in fs.fds && fs.fds == base[r.value := fs.fds[r.value]]
      && fs.fds[r.value].kind.Directory?
      && Reached(fs.history, from, |fs.history|, Anchor(fs, path), path.components, i + 1, fs.fds[r.value])
    ensures
      var c, next := path.components[i], Step(old(fs.disk), old(fs.fds[descriptor]), path.components[i]);
      fs.calm ==>
        if Skipped(c) then
          fs.disk == old(fs.disk) && fs.touched == old(fs.touched) && r.Ok? && fs.fds[r.value] == old(fs.fds[descriptor])
        else if c != ".." && next.Some? then
          fs.disk == old(fs.disk) && fs.touched == old(fs.touched) && r.Ok? && fs.fds[r.value] == next.value
        else if create && c != ".." && Loc(old(fs.fds[descriptor]), c) !in old(fs.disk.names) then
          r.Ok? && Made(old(fs.disk), fs.disk, old(fs.fds[descriptor]), c, fs.fds[r.value])
        else
          && r.Raised?
          && (r == Raised(FileNotFound) <==> c != ".." && Loc(old(fs.fds[descriptor]), c) !in old(fs.disk.names))
  {
    hide FileSystem.Valid, ViewOf, Reached, Step, Lost, Made;
    var component := path.components[i];
    ghost var h, dir := fs.history, fs.fds[descriptor];
    if Skipped(component) {
      ReachedNext(h, h, from, |h|, Anchor(fs, path), path.components, i, dir, dir);
      return Ok(descriptor);
    }
    if component == ".." {
      fs.Close(descriptor);
      return Raised(ValidationError);
    }
    var child, at := OpenComponent(fs, descriptor, component, create);
    if child.Raised? {
      if child.error == FileNotFound {
        fs.Present();
        LostNow(h, fs.history, from, Anchor(fs, path), path.components, i, dir);
      }
      fs.Close(descriptor);
      return child;
    }
    ReachedNext(h, fs.history, from, at, Anchor(fs, path), path.components, i, dir, fs.fds[child.value]);
    fs.Close(descriptor);
    r := child;
  }

  /** `_open_artifact_directory` */
  method OpenArtifactDirectory(fs: FileSystem, path: DirPath, create: bool) returns (r: Outcome<Fd>)
    requires fs.Valid() && (create ==> fs.claim == None)
    modifies fs`disk, fs`history, fs`faults, fs`touched, fs`fds
    ensures Walked(fs, create)
    ensures r.Raised? ==> fs.fds == old(fs.fds) && r.error in {ConfigurationError, ValidationError, FileNotFound}
    ensures r == Raised(FileNotFound) ==>
      !create && Lost(fs.history, |old(fs.history)|, Anchor(fs, path), path.components)
    ensures r.Ok? ==>
      && r.value !in old(fs.fds) && r.value in fs.fds
      && fs.fds == old(fs.fds)[r.value := fs.fds[r.value]]
      && fs.fds[r.value].kind.Directory?
      && Reached(fs.history, |old(fs.history)|, |fs.history|, Anchor(fs, path), path.components, |path.components|, fs.fds[r.value])
    ensures fs.calm && old(Named(fs, path)).Some? ==>
      && fs.disk == old(fs.disk) && fs.touched == old(fs.touched) && r.Ok? && Some(fs.fds[r.value]) == old(Named(fs, path))
    ensures fs.calm && !create && old(Named(fs, path)) == None ==> r.Raised?
    ensures fs.calm && !create ==>
      (r == Raised(FileNotFound) <==> Missing(old(fs.disk), Anchor(fs, path), path.components))
    ensures fs.calm && create ==>
      && (r.Ok? <==> old(Reachable(fs, path)))
      && (r.Ok? ==>
            && Grown(old(fs.disk), fs.disk) && Named(fs, path) == Some(fs.fds[r.value])
            && (old(Named(fs, path)) == None ==> Empty(fs.disk, fs.fds[r.value])))
  {
    hide FileSystem.Valid, ViewOf, Reached, Step, Missing, MissingAt, Lost, Made, Makeable, Making, OnCourse;
    ghost var start, components, before := Anchor(fs, path), path.components, fs.disk;
    var anchored := fs.OpenAnchor(path.absolute);
    if anchored.Raised? { return Raised(ConfigurationError); }
    fs.Present();
    var descriptor := anchored.value;
    ReachedStart(fs.history, |old(fs.history)|, start, components);
    MakingStarts(before, start, components);
    for i := 0 to |path.components|
      invariant |old(fs.history)| < |fs.history| && Walked(fs, create)
      invariant descriptor !in old(fs.fds) && descriptor in fs.fds
      invariant fs.fds == old(fs.fds)[descriptor := fs.fds[descriptor]] && fs.fds[descriptor].kind.Directory?
      invariant Reached(fs.history, |old(fs.history)|, |fs.history|, start, components, i, fs.fds[descriptor])
      invariant fs.calm && (!create || old(Named(fs, path)).Some?) ==>
        && fs.disk == before && fs.touched == old(fs.touched)
        && OnCourse(before, start, components, i, fs.fds[descriptor])
      invariant fs.calm && create ==> Making(before, fs.disk, start, components, i, fs.fds[descriptor])
    {
      if fs.calm && (!create || old(Named(fs, path)).Some?) {
        OnCourseNext(before, start, components, i, fs.fds[descriptor]);
      }
      ghost var dir, last := fs.fds[descriptor], fs.disk;
      var next := Advance(fs, descriptor, path, i, create, |old(fs.history)|, old(fs.fds));
      if fs.calm && create {
        MakingNext(before, last, fs.disk, start, components, i, dir, if next.Ok? then fs.fds[next.value] else dir);
      }
      if next.Raised? { return next; }
      descriptor := next.value;
    }
    if fs.calm && (!create || old(Named(fs, path)).Some?) {
      Arrived(before, start, components, fs.fds[descriptor]);
    }
    if fs.calm && create { MakingDone(before, fs.disk, start, components, fs.fds[descriptor]); }
    r := Ok(descriptor);
  }
}
