/**
 A POSIX file system seen by one process.  Every call may fail, every call may
 be preceded by arbitrary activity of other processes, and the disk after every
 step is kept in `history`: a crash may strike at any element of it, leaving the
 `durable` names and the `saved` bytes of that element.
 */
module FileSystemModel {
  import opened Prelude

  type Name = string
  type Fd = nat
  type Byte = bv8

  /** An inode's identity.  Its kind never changes, so the identity carries it;
      `writable` says whether this process may replace entries of a directory. */
  datatype Ino = Ino(serial: nat, kind: Kind)
  datatype Kind = Regular | Directory(writable: bool) | Symlink(target: Ino) | Special

  /** `saved` is what a crash leaves of `bytes`; `clean` says that every byte written
      so far has been saved; `confined` that group and others are granted nothing. */
  datatype Data = Data(bytes: seq<Byte>, saved: seq<Byte>, clean: bool, confined: bool)

  const EMPTY := Data([], [], true, true)

  datatype Loc = Loc(dir: Ino, name: Name)

  datatype Disk = Disk(data: map<Ino, Data>, names: map<Loc, Ino>, durable: map<Loc, Ino>)

  /** The part of `os.stat_result` the source reads. */
  datatype Meta = Meta(ino: Ino, nlink: nat, size: nat, confined: bool)

  predicate WellFormed(d: Disk) {
    && (forall l | l in d.names :: d.names[l] in d.data)
    && (forall l | l in d.durable :: d.durable[l] in d.data)
  }

  function Node(d: Disk, ino: Ino): Data {
    if ino in d.data then d.data[ino] else EMPTY
  }

  function LinkSet(d: Disk, ino: Ino): set<Loc> {
    set l | l in d.names && d.names[l] == ino
  }

  function Links(d: Disk, ino: Ino): nat {
    |LinkSet(d, ino)|
  }

  function MetaOf(d: Disk, ino: Ino): Meta {
    Meta(ino, Links(d, ino), |Node(d, ino).bytes|, Node(d, ino).confined)
  }

  lemma LinksByNames(a: Disk, b: Disk, ino: Ino)
    requires a.names == b.names
    ensures Links(a, ino) == Links(b, ino)
  {
    assert LinkSet(a, ino) == LinkSet(b, ino);
  }

  lemma SoleLink(d: Disk, l: Loc, ino: Ino)
    requires Lookup(d.names, l) == Some(ino) && Links(d, ino) == 1
    ensures LinkSet(d, ino) == {l}
  {
    var rest := LinkSet(d, ino) - {l};
    assert LinkSet(d, ino) == rest + {l};
  }

  lemma SoleLinkExcludes(d: Disk, l: Loc, other: Loc, ino: Ino)
    requires Lookup(d.names, l) == Some(ino) && Links(d, ino) == 1 && other != l
    ensures Lookup(d.names, other) != Some(ino)
  {
    SoleLink(d, l, ino);
    assert other !in LinkSet(d, ino);
  }

  /** One step of path resolution from directory `dir`; a symbolic link is followed
      only out of a directory this process cannot modify. */
  function Step(d: Disk, dir: Ino, component: Name): Option<Ino> {
    var entry := Lookup(d.names, Loc(dir, component));
    if entry == None then None
    else
      match entry.value.kind
      case Directory(_) => entry
      case Symlink(target) => if dir.kind == Directory(false) && target.kind.Directory? then Some(target) else None
      case _ => None
  }

  /** What the controller lays claim to while it handles one artifact: two names in one
      held directory, and the inode it stages.  `before` holds the bindings, volatile and
      durable, that the destination had when it was claimed. */
  datatype Claim = Claim(
    dir: Ino, dest: Name, temp: Name, content: seq<Byte>,
    staged: Option<Ino>, before: set<Option<Ino>>)
  {
    function Dest(): Loc { Loc(dir, dest) }
    function Temp(): Loc { Loc(dir, temp) }
  }

  /** The claimed part of a disk. */
  datatype View = View(
    dest: Option<Ino>, temp: Option<Ino>, durableDest: Option<Ino>, durableTemp: Option<Ino>,
    links: nat, node: Data)

  function ViewOf(d: Disk, c: Claim): View {
    View(
      Lookup(d.names, c.Dest()), Lookup(d.names, c.Temp()),
      Lookup(d.durable, c.Dest()), Lookup(d.durable, c.Temp()),
      if c.staged.Some? then Links(d, c.staged.value) else 0,
      if c.staged.Some? then Node(d, c.staged.value) else EMPTY)
  }

  /** What other processes and the kernel's write-back may do to the claimed part: a name
      keeps its binding but may become durable at any moment, unsaved bytes may be written
      back in any form, other links may come and go, and an inode that has lost its last
      name cannot be linked again. */
  predicate Drift(v: View, w: View) {
    && w.dest == v.dest && (w.durableDest == v.durableDest || w.durableDest == v.dest)
    && w.temp == v.temp && (w.durableTemp == v.durableTemp || w.durableTemp == v.temp)
    && (v.links == 0 ==> w.links == 0)
    && w.node == v.node.(saved := w.node.saved)
    && (v.node.clean ==> w.node.saved == v.node.saved)
  }

  /** Everything other processes may do between two calls: anything at all outside the claim. */
  predicate Environment(a: Disk, b: Disk, claim: Option<Claim>) {
    && WellFormed(b)
    && a.data.Keys <= b.data.Keys
    && (claim.Some? ==> Drift(ViewOf(a, claim.value), ViewOf(b, claim.value)))
  }

  /** The staged bytes are complete, and a crash cannot lose any of them. */
  predicate Complete(v: View, c: Claim) {
    v.node.clean && v.node.bytes == c.content && v.node.saved == c.content
  }

  /** Complete, and private. */
  predicate Whole(v: View, c: Claim) {
    v.node.confined && Complete(v, c)
  }

  /** Whatever was said to be saved has been. */
  predicate Coherent(v: View) {
    v.node.clean ==> v.node.saved == v.node.bytes
  }

  /** A binding the destination may have: none, one it had before, or the staged inode. */
  predicate Expected(c: Claim, binding: Option<Ino>) {
    binding == None || binding in c.before || binding == c.staged
  }

  predicate Bounded(v: View, c: Claim) {
    Expected(c, v.durableDest) && Expected(c, v.dest)
  }

  /** A binding that a crash may leave the destination: none, one it had before, or the
      staged inode once that is complete. */
  predicate Allowed(v: View, c: Claim, binding: Option<Ino>) {
    binding == None || binding in c.before || (binding == c.staged && Complete(v, c))
  }

  /** A crash now leaves the destination absent, as it was, or holding the whole content. */
  predicate CrashSafe(v: View, c: Claim) {
    Allowed(v, c, v.durableDest) && Allowed(v, c, v.dest)
  }

  /** What holds at every crash point of a claim; `sound` says that nothing incomplete was
      ever linked to the destination. */
  predicate Kept(v: View, c: Claim, sound: bool) {
    Bounded(v, c) && (sound ==> CrashSafe(v, c))
  }

  lemma DriftIsKept(v: View, w: View, c: Claim, sound: bool)
    requires Kept(v, c, sound) && Drift(v, w)
    ensures Kept(w, c, sound) && (Complete(v, c) <==> Complete(w, c)) && (Coherent(v) ==> Coherent(w))
  {
  }

  /** Linking the staged inode keeps what `sound` says of it. */
  lemma LinkingIsKept(v: View, w: View, c: Claim, sound: bool)
    requires Kept(v, c, sound) && Coherent(v) && Drift(v, w) && c.staged.Some?
    ensures
      var linked := w.(dest := c.staged, links := w.links + 1);
      Kept(linked, c, sound && Complete(v, c)) && Coherent(linked)
  {
  }

  /** So does unbinding a name. */
  lemma ShrinkingIsKept(v: View, w: View, c: Claim, sound: bool)
    requires Kept(v, c, sound) && Coherent(v) && w.dest in {v.dest, None} && w.durableDest == v.durableDest && w.node == v.node
    ensures Kept(w, c, sound) && Coherent(w)
  {
  }

  /** Why completeness is the exact condition: once the destination is bound to the staged
      inode, no activity outside the claim can make a crash lose content if and only if the
      inode is complete. */
  lemma LinkedSafely(v: View, c: Claim)
    requires Coherent(v) && c.staged.Some? && v.dest == c.staged
    ensures Complete(v, c) <==> forall w | Drift(v, w) :: w.durableDest == c.staged ==> w.node.saved == c.content
  {
    if !Complete(v, c) {
      var lost := if v.node.clean then v.node.saved else c.content + [0];
      var w := v.(durableDest := v.dest, node := v.node.(saved := lost));
      assert Drift(v, w) && w.durableDest == c.staged;
      assert |c.content + [0]| != |c.content|;
    }
  }

  function FsyncedDirectory(d: Disk, dir: Ino): Disk {
    d.(durable := map l | l in d.durable.Keys + d.names.Keys && (if l.dir == dir then l in d.names else l in d.durable)
                    :: if l.dir == dir then d.names[l] else d.durable[l])
  }

  function Linked(d: Disk, l: Loc, ino: Ino): Disk {
    d.(names := d.names[l := ino])
  }

  function Unlinked(d: Disk, l: Loc): Disk {
    d.(names := d.names - {l})
  }

  lemma LinkedLinks(d: Disk, l: Loc, ino: Ino, other: Ino)
    requires l !in d.names
    ensures Links(Linked(d, l, ino), other) == Links(d, other) + if other == ino then 1 else 0
  {
    assert LinkSet(Linked(d, l, ino), other) == LinkSet(d, other) + if other == ino then {l} else {};
  }

  lemma LinkedView(d: Disk, c: Claim, l: Loc, ino: Ino)
    requires c.dest != c.temp && l !in d.names
    ensures ViewOf(Linked(d, l, ino), c) ==
      var v := ViewOf(d, c);
      v.(dest := if l == c.Dest() then Some(ino) else v.dest,
         temp := if l == c.Temp() then Some(ino) else v.temp,
         links := if c.staged == Some(ino) then v.links + 1 else v.links)
  {
    hide Links;
    if c.staged.Some? { LinkedLinks(d, l, ino, c.staged.value); }
  }

  lemma UnlinkedLinks(d: Disk, l: Loc, other: Ino)
    requires l in d.names
    ensures Links(d, other) == Links(Unlinked(d, l), other) + if other == d.names[l] then 1 else 0
  {
    if d.names[l] == other { assert l in LinkSet(d, other); }
    assert LinkSet(Unlinked(d, l), other) == LinkSet(d, other) - {l};
  }

  lemma UnlinkedView(d: Disk, c: Claim, l: Loc)
    requires c.dest != c.temp && l in d.names
    ensures ViewOf(Unlinked(d, l), c) ==
      var v := ViewOf(d, c);
      v.(dest := if l == c.Dest() then None else v.dest,
         temp := if l == c.Temp() then None else v.temp,
         links := if c.staged == Some(d.names[l]) && v.links > 0 then v.links - 1 else v.links)
    ensures c.staged == Some(d.names[l]) ==> ViewOf(d, c).links > 0
  {
    hide Links;
    if c.staged.Some? { UnlinkedLinks(d, l, c.staged.value); }
  }

  function Created(d: Disk, l: Loc, ino: Ino): Disk {
    Disk(d.data[ino := EMPTY], d.names[l := ino], d.durable)
  }

  /** An inode not in use, and a directory without entries. */
  predicate Bare(d: Disk, ino: Ino) {
    ino !in d.data && forall l | l in d.names :: l.dir != ino
  }

  lemma CreatedView(d: Disk, c: Claim, ino: Ino)
    requires WellFormed(d) && c.staged == None && c.dest != c.temp && c.Temp() !in d.names && ino !in d.data
    ensures WellFormed(Created(d, c.Temp(), ino))
    ensures Coherent(ViewOf(Created(d, c.Temp(), ino), c.(staged := Some(ino))))
    ensures forall sound | Kept(ViewOf(d, c), c, sound) ::
      Kept(ViewOf(Created(d, c.Temp(), ino), c.(staged := Some(ino))), c.(staged := Some(ino)), sound)
    ensures
      var v, w := ViewOf(d, c), ViewOf(Created(d, c.Temp(), ino), c.(staged := Some(ino)));
      w == v.(temp := Some(ino), links := 1, node := EMPTY) && v.dest != Some(ino) && v.durableDest != Some(ino)
  {
    assert LinkSet(Created(d, c.Temp(), ino), ino) == {c.Temp()};
  }

  /** Staging an inode takes nothing back from the crash points already passed. */
  lemma StagingKeepsSafety(d: Disk, c: Claim, staged: Option<Ino>, sound: bool)
    requires c.staged == None && Kept(ViewOf(d, c), c, sound)
    ensures Kept(ViewOf(d, c.(staged := staged)), c.(staged := staged), sound)
  {
  }

  /** The safety of a claim at every crash point since it was made. */
  ghost predicate KeptSince(h: seq<Disk>, since: nat, c: Claim, sound: bool) {
    forall k | since <= k < |h| :: Kept(ViewOf(h[k], c), c, sound)
  }

  lemma KeptLonger(h: seq<Disk>, since: nat, c: Claim, sound: bool, d: Disk)
    requires KeptSince(h, since, c, sound) && Kept(ViewOf(d, c), c, sound)
    ensures KeptSince(h + [d], since, c, sound)
  {
    hide Kept, ViewOf;
  }

  lemma KeptLess(h: seq<Disk>, since: nat, c: Claim, sound: bool, less: bool)
    requires KeptSince(h, since, c, sound) && (less ==> sound)
    ensures KeptSince(h, since, c, less)
  {
    hide ViewOf, Bounded, CrashSafe;
    forall k | since <= k < |h| ensures Kept(ViewOf(h[k], c), c, less) {
      assert Kept(ViewOf(h[k], c), c, sound);
    }
  }

  lemma StagingKeepsHistory(h: seq<Disk>, since: nat, c: Claim, staged: Option<Ino>, sound: bool)
    requires c.staged == None && KeptSince(h, since, c, sound)
    ensures KeptSince(h, since, c.(staged := staged), sound)
  {
    hide ViewOf, Kept;
    forall k | since <= k < |h| ensures Kept(ViewOf(h[k], c.(staged := staged)), c.(staged := staged), sound) {
      StagingKeepsSafety(h[k], c, staged, sound);
    }
  }

  /** Binding or unbinding the name of a regular file leaves every path where it was. */
  lemma StepsKept(a: Disk, b: Disk, l: Loc)
    requires forall k | k != l :: Lookup(b.names, k) == Lookup(a.names, k)
    requires Lookup(a.names, l) == None || Lookup(a.names, l).value.kind.Regular?
    requires Lookup(b.names, l) == None || Lookup(b.names, l).value.kind.Regular?
    ensures forall dir, component :: Step(b, dir, component) == Step(a, dir, component)
  {
  }

  function Below(n: nat): (r: set<nat>)
    ensures |r| == n
    ensures forall i | i in r :: i < n
  {
    if n == 0 then {} else Below(n - 1) + {n - 1}
  }

  /** Descriptors and inode numbers in use are finite, so an unused one exists. */
  method Unused(taken: set<nat>) returns (n: nat)
    ensures n !in taken
  {
    n := 0;
    while n in taken
      invariant Below(n) <= taken
      decreases |taken - Below(n)|
    {
      assert taken - Below(n) == (taken - Below(n + 1)) + {n};
      n := n + 1;
    }
  }

  class FileSystem {
    /** While set, nothing interferes and no call fails but those that `stuck` and `lossy` make
        fail. */
    var calm: bool
    /** While set, writing to a file and removing a name fail. */
    var stuck: bool
    /** While set, saving the bytes of a file fails. */
    var lossy: bool
    const root: Ino
    const cwd: Ino
    var disk: Disk
    var fds: map<Fd, Ino>
    var claim: Option<Claim>
    ghost var history: seq<Disk>
    /** The crash point at which the claim was made. */
    ghost var since: nat
    /** Names this process bound or unbound. */
    ghost var touched: set<Loc>
    /** Calls of this process that failed for a reason of the system's own. */
    ghost var faults: nat
    /** Nothing incomplete was linked to the claimed destination. */
    ghost var sound: bool

    /** The class invariant holds the safety of the claim at every crash point since it was
        made. */
    ghost predicate Valid()
      reads this
    {
      && WellFormed(disk)
      && |history| > 0 && history[|history| - 1] == disk
      && root.kind.Directory? && cwd.kind.Directory?
      && (claim.Some? ==>
            && claim.value.dest != claim.value.temp
            && since < |history|
            && (claim.value.staged.Some? ==> claim.value.staged.value in disk.data)
            && Coherent(View()) && Kept(View(), claim.value, sound)
            && KeptSince(history, since, claim.value, sound))
    }

    /** Nothing interferes and no call fails, but perhaps the saving of bytes. */
    predicate Serene()
      reads this
    {
      calm && !stuck
    }

    /** The weather changes. */
    method Turn(calm: bool, stuck: bool, lossy: bool)
      requires Valid()
      modifies this`calm, this`stuck, this`lossy
      ensures Valid() && this.calm == calm && this.stuck == stuck && this.lossy == lossy
    {
      this.calm, this.stuck, this.lossy := calm, stuck, lossy;
    }

    lemma Present()
      requires Valid()
      ensures |history| > 0 && history[|history| - 1] == disk
      ensures root.kind.Directory? && cwd.kind.Directory?
    {
    }

    ghost function View(): View
      requires claim.Some?
      reads this
    {
      ViewOf(disk, claim.value)
    }

    lemma ClaimedApart()
      requires Valid() && claim.Some?
      ensures claim.value.Dest() != claim.value.Temp()
      ensures claim.value.staged.Some? ==> claim.value.staged.value in disk.data
    {
    }

    lemma Glimpse()
      requires claim.Some?
      ensures View().dest == Lookup(disk.names, claim.value.Dest())
      ensures View().temp == Lookup(disk.names, claim.value.Temp())
      ensures claim.value.staged.Some? ==>
        && View().links == Links(disk, claim.value.staged.value)
        && View().node == Node(disk, claim.value.staged.value)
    {
    }

    /** What any stretch of time leaves behind in which this process changed nothing
        that is claimed. */
    twostate predicate Passed()
      reads this
    {
      && Valid()
      && old(history) <= history
      && claim == old(claim)
      && (claim.Some? ==> Drift(old(View()), View()))
      && faults >= old(faults)
      && (calm ==> disk == old(disk))
    }

    /** Likewise, and no call failed that is not bound to. */
    twostate predicate Elapsed()
      reads this
    {
      Passed() && (calm ==> faults == old(faults))
    }

    /** What a call leaves behind that took `mid` to the present disk in one step. */
    twostate predicate Acted(mid: Disk)
      reads this
    {
      && Valid()
      && (claim.Some? <==> old(claim.Some?))
      && old(history) <= history
      && (claim.Some? && old(claim.Some?) ==> Drift(old(View()), ViewOf(mid, old(claim.value))))
      && faults == old(faults)
      && (calm ==> mid == old(disk))
    }

    /** Records the present disk as one more crash point. */
    ghost method Record()
      requires WellFormed(disk) && root.kind.Directory? && cwd.kind.Directory?
      requires claim.Some? ==>
        && claim.value.dest != claim.value.temp && since < |history|
        && (claim.value.staged.Some? ==> claim.value.staged.value in disk.data)
        && Coherent(View()) && Kept(View(), claim.value, sound)
        && KeptSince(history, since, claim.value, sound)
      modifies this`history
      ensures Valid() && history == old(history) + [disk]
    {
      if claim.Some? { KeptLonger(history, since, claim.value, sound, disk); }
      history := history + [disk];
    }

    /** Lets the environment act. */
    method Interfere()
      requires Valid()
      modifies this`disk, this`history
      ensures Elapsed() && history == old(history) + [disk]
    {
      var t: Disk := *;
      if !calm && Environment(disk, t, claim) {
        if claim.Some? { DriftIsKept(ViewOf(disk, claim.value), ViewOf(t, claim.value), claim.value, sound); }
        disk := t;
      }
      Record();
    }

    /** Whether a call fails; `bound` says that it has to. */
    method Fails(bound: bool) returns (failed: bool)
      modifies this`faults
      ensures faults == old(faults) + (if failed then 1 else 0)
      ensures bound ==> failed
      ensures calm && !bound ==> !failed
    {
      failed := *;
      failed := bound || (failed && !calm);
      if failed { faults := faults + 1; }
    }

    function Entry(fd: Fd, name: Name): Option<Ino>
      requires fd in fds
      reads this
    {
      Lookup(disk.names, Loc(fds[fd], name))
    }

    /** `os.stat(name, dir_fd=fd, follow_symlinks=False)` */
    method Stat(fd: Fd, name: Name) returns (r: Outcome<Meta>)
      requires Valid() && fd in fds
      modifies this`disk, this`history, this`faults
      ensures Elapsed() && |old(history)| < |history| && (faults > old(faults) <==> r == Raised(OSFault))
      ensures r.Raised? ==> r.error in {FileNotFound, OSFault}
      ensures r.Ok? ==> Entry(fd, name).Some? && r.value == MetaOf(disk, Entry(fd, name).value)
      ensures r == Raised(FileNotFound) ==> Entry(fd, name) == None
    {
      Interfere();
      var failed := Fails(false);
      var l := Loc(fds[fd], name);
      if failed { return Raised(OSFault); }
      if l !in disk.names { return Raised(FileNotFound); }
      r := Ok(MetaOf(disk, disk.names[l]));
    }

    /** `os.fstat(fd)` */
    method Fstat(fd: Fd) returns (r: Outcome<Meta>)
      requires Valid() && fd in fds
      modifies this`disk, this`history, this`faults
      ensures Elapsed() && |old(history)| < |history| && (faults > old(faults) <==> r.Raised?)
      ensures r.Raised? ==> r.error == OSFault
      ensures r.Ok? ==> r.value == MetaOf(disk, fds[fd])
    {
      Interfere();
      var failed := Fails(false);
      if failed { return Raised(OSFault); }
      r := Ok(MetaOf(disk, fds[fd]));
    }

    /** `os.access(".", os.W_OK, dir_fd=fd)`, with its failure read as writable. */
    method Access(fd: Fd) returns (writable: bool)
      requires Valid() && fd in fds
      modifies this`disk, this`history, this`faults
      ensures Elapsed()
      ensures !writable ==> fds[fd].kind == Directory(false)
      ensures calm ==> writable == (fds[fd].kind != Directory(false))
    {
      Interfere();
      var failed := Fails(false);
      writable := failed || fds[fd].kind != Directory(false);
    }

    /** Reads up to `count` bytes from the start of the file. */
    method Read(fd: Fd, count: nat) returns (r: Outcome<seq<Byte>>)
      requires Valid() && fd in fds
      modifies this`disk, this`history, this`faults
      ensures Elapsed() && (faults > old(faults) <==> r.Raised?)
      ensures r.Raised? ==> r.error == OSFault
      ensures r.Ok? ==>
        var bytes := Node(disk, fds[fd]).bytes;
        r.value == bytes[..if count <= |bytes| then count else |bytes|]
    {
      Interfere();
      var failed := Fails(false);
      if failed { return Raised(OSFault); }
      var bytes := Node(disk, fds[fd]).bytes;
      r := Ok(bytes[..if count <= |bytes| then count else |bytes|]);
    }

    method Install(ino: Ino) returns (fd: Fd)
      modifies this`fds
      ensures fd !in old(fds) && fds == old(fds)[fd := ino]
    {
      fd := Unused(fds.Keys);
      fds := fds[fd := ino];
    }

    /** Opening the starting point of a path walk. */
    method OpenAnchor(absolute: bool) returns (r: Outcome<Fd>)
      requires Valid()
      modifies this`disk, this`history, this`faults, this`fds
      ensures Elapsed() && |old(history)| < |history| && (faults > old(faults) <==> r.Raised?)
      ensures r.Raised? ==> r.error == OSFault && fds == old(fds)
      ensures r.Ok? ==> r.value !in old(fds) && fds == old(fds)[r.value := if absolute then root else cwd]
    {
      Interfere();
      var failed := Fails(false);
      if failed { return Raised(OSFault); }
      var fd := Install(if absolute then root else cwd);
      r := Ok(fd);
    }

    /** The directory that opening `entry` leads to. */
    static function Opened(entry: Option<Ino>, follow: bool): Option<Ino> {
      if entry == None then None
      else
        var inner := if follow && entry.value.kind.Symlink? then entry.value.kind.target else entry.value;
        if inner.kind.Directory? then Some(inner) else None
    }

    /** `os.open(name, O_RDONLY | O_DIRECTORY [| O_NOFOLLOW], dir_fd=fd)`; without
        `O_NOFOLLOW` a symbolic link leads to its target. */
    method OpenDirectory(fd: Fd, name: Name, follow: bool) returns (r: Outcome<Fd>)
      requires Valid() && fd in fds
      modifies this`disk, this`history, this`faults, this`fds
      ensures Elapsed() && |old(history)| < |history|
      ensures r.Raised? ==> r.error == OSFault && fds == old(fds)
      ensures r.Ok? ==>
        var inner := Opened(Lookup(disk.names, Loc(old(fds)[fd], name)), follow);
        r.value !in old(fds) && inner.Some? && fds == old(fds)[r.value := inner.value]
      ensures calm && r.Raised? ==> Opened(Entry(fd, name), follow) == None
    {
      Interfere();
      var failed := Fails(false);
      if failed { return Raised(OSFault); }
      var inner := Opened(Entry(fd, name), follow);
      if inner == None { return Raised(OSFault); }
      var child := Install(inner.value);
      r := Ok(child);
    }

    /** `os.open(name, O_RDONLY | O_NOFOLLOW, dir_fd=fd)` */
    method OpenFile(fd: Fd, name: Name) returns (r: Outcome<Fd>)
      requires Valid() && fd in fds
      modifies this`disk, this`history, this`faults, this`fds
      ensures Elapsed() && |old(history)| < |history|
      ensures r.Raised? ==> r.error in {FileNotFound, OSFault} && fds == old(fds)
      ensures r.Ok? ==>
        var entry := Lookup(disk.names, Loc(old(fds)[fd], name));
        r.value !in old(fds) && entry.Some? && !entry.value.kind.Symlink? && fds == old(fds)[r.value := entry.value]
      ensures calm && r.Raised? ==> Entry(fd, name) == None || Entry(fd, name).value.kind.Symlink?
    {
      Interfere();
      var failed := Fails(false);
      if failed { return Raised(OSFault); }
      var entry := Entry(fd, name);
      if entry == None { return Raised(FileNotFound); }
      if entry.value.kind.Symlink? { return Raised(OSFault); }
      var handle := Install(entry.value);
      r := Ok(handle);
    }

    // ---- The moment at which a call takes effect.

    method Materialize(l: Loc, ino: Ino)
      requires Valid() && claim.Some? && claim.value.staged == None && claim.value.Temp() == l
      requires l !in disk.names && ino !in disk.data
      modifies this`disk, this`history, this`touched, this`claim
      ensures Valid() && history == old(history) + [disk] && disk == Created(old(disk), l, ino)
      ensures touched == old(touched) + {l} && claim == Some(old(claim.value).(staged := Some(ino)))
      ensures View() == ViewOf(old(disk), old(claim.value)).(temp := Some(ino), links := 1, node := EMPTY)
      ensures View().dest != Some(ino) && View().durableDest != Some(ino)
    {
      hide ViewOf, Kept, Coherent, KeptSince;
      Glimpse();
      ghost var c := claim.value;
      StagingKeepsHistory(history, since, c, Some(ino), sound);
      CreatedView(disk, c, ino);
      disk := Created(disk, l, ino);
      touched, claim := touched + {l}, Some(claim.value.(staged := Some(ino)));
      Record();
    }

    method SyncNames(dir: Ino)
      requires Valid()
      modifies this`disk, this`history
      ensures Valid() && history == old(history) + [disk] && disk == FsyncedDirectory(old(disk), dir)
      ensures claim.Some? ==>
        var v := old(View());
        View() == if claim.value.dir == dir then v.(durableDest := v.dest, durableTemp := v.temp) else v
    {
      hide KeptSince;
      ghost var was := disk;
      disk := FsyncedDirectory(disk, dir);
      if claim.Some? && claim.value.staged.Some? {
        assert LinkSet(disk, claim.value.staged.value) == LinkSet(was, claim.value.staged.value);
      }
      Record();
    }

    method Bind(l: Loc, ino: Ino)
      requires Valid() && claim.Some? && claim.value.staged == Some(ino) && claim.value.Dest() == l && l !in disk.names
      modifies this`disk, this`history, this`touched, this`sound
      ensures Valid() && history == old(history) + [disk] && disk == Linked(old(disk), l, ino)
      ensures touched == old(touched) + {l} && sound == (old(sound) && Complete(old(View()), claim.value))
      ensures View() == old(View()).(dest := Some(ino), links := old(View()).links + 1)
    {
      hide Kept, Complete, Coherent, ViewOf, KeptSince;
      ghost var v := View();
      LinkedView(disk, claim.value, l, ino);
      LinkingIsKept(v, v, claim.value, sound);
      disk := Linked(disk, l, ino);
      sound := sound && Complete(v, claim.value);
      KeptLess(history, since, claim.value, old(sound), sound);
      Record();
      touched := touched + {l};
    }

    method Unbind(l: Loc)
      requires Valid() && l in disk.names
      modifies this`disk, this`history, this`touched
      ensures Valid() && history == old(history) + [disk] && disk == Unlinked(old(disk), l)
      ensures touched == old(touched) + {l}
      ensures claim.Some? ==>
        var v, c, ino := old(View()), claim.value, old(disk.names[l]);
        && (c.staged == Some(ino) ==> v.links > 0)
        && View() == v.(
             dest := if l == c.Dest() then None else v.dest,
             temp := if l == c.Temp() then None else v.temp,
             links := if c.staged == Some(ino) && v.links > 0 then v.links - 1 else v.links)
    {
      hide Kept, Coherent, ViewOf, KeptSince;
      ghost var was := disk;
      disk := Unlinked(disk, l);
      if claim.Some? {
        UnlinkedView(was, claim.value, l);
        ShrinkingIsKept(ViewOf(was, claim.value), View(), claim.value, sound);
      }
      Record();
      touched := touched + {l};
    }

    /** `os.open(name, O_WRONLY | O_CREAT | O_EXCL | O_NOFOLLOW, 0o600, dir_fd=fd)`.
        From here on nobody else writes the new private inode. */
    method CreateExclusive(fd: Fd, name: Name) returns (r: Outcome<Fd>, ghost mid: Disk)
      requires Valid() && fd in fds
      requires claim.Some? && claim.value.Temp() == Loc(fds[fd], name) && claim.value.staged == None
      modifies this`disk, this`history, this`faults, this`touched, this`fds, this`claim
      ensures r.Raised? ==>
        r.error == OSFault && Elapsed() && touched == old(touched) && fds == old(fds)
      ensures r.Raised? && calm ==> View().temp.Some?
      ensures r.Ok? ==>
        && r.value !in old(fds) && r.value in fds && fds[r.value].kind.Regular?
        && fds == old(fds)[r.value := fds[r.value]]
        && claim == Some(old(claim.value).(staged := Some(fds[r.value])))
        && touched == old(touched) + {old(claim.value).Temp()}
        && Acted(mid) && disk.names == mid.names[claim.value.Temp() := fds[r.value]]
        && ViewOf(mid, old(claim.value)).temp == None
        && View().dest != claim.value.staged && View().durableDest != claim.value.staged
        && View() == ViewOf(mid, old(claim.value)).(temp := claim.value.staged, links := 1, node := EMPTY)
    {
      hide ViewOf, Kept, Coherent, KeptSince;
      Interfere();
      mid := disk;
      var failed := Fails(false);
      if failed { return Raised(OSFault), mid; }
      var l := Loc(fds[fd], name);
      Glimpse();
      if l in disk.names { return Raised(OSFault), mid; }
      var serial := Unused(set i | i in disk.data :: i.serial);
      var ino := Ino(serial, Regular);
      assert ino !in disk.data;
      Materialize(l, ino);
      var handle := Install(ino);
      r := Ok(handle);
    }

    /** `os.write`: any number of leading bytes may be taken, none included. */
    method Write(fd: Fd, data: seq<Byte>) returns (r: Outcome<nat>, ghost mid: Disk)
      requires Valid() && fd in fds
      requires claim.Some? && claim.value.staged == Some(fds[fd])
      requires View().dest != claim.value.staged && View().durableDest != claim.value.staged
      modifies this`disk, this`history, this`faults
      ensures r.Raised? ==> r.error == OSFault && Passed() && (calm ==> stuck)
      ensures stuck ==> r.Raised?
      ensures r.Ok? ==>
        && r.value <= |data| && Acted(mid) && disk.names == mid.names
        && var v := ViewOf(mid, claim.value);
        View() == v.(node := v.node.(bytes := v.node.bytes + data[..r.value], clean := false))
      ensures r.Ok? && calm && |data| > 0 ==> r.value > 0
    {
      Interfere();
      mid := disk;
      var failed := Fails(stuck);
      if failed { return Raised(OSFault), mid; }
      var n: int := *;
      if n < 0 || n > |data| || calm { n := |data|; }
      var i := fds[fd];
      disk := disk.(data := disk.data[i := disk.data[i].(bytes := disk.data[i].bytes + data[..n], clean := false)]);
      assert LinkSet(disk, i) == LinkSet(mid, i);
      Record();
      r := Ok(n);
    }

    /** `os.fsync` on the staged file. */
    method FsyncFile(fd: Fd) returns (r: Outcome<()>, ghost mid: Disk)
      requires Valid() && fd in fds
      requires claim.Some? && claim.value.staged == Some(fds[fd])
      modifies this`disk, this`history, this`faults
      ensures r.Raised? ==> r.error == OSFault && Passed() && (calm ==> lossy)
      ensures lossy ==> r.Raised?
      ensures r.Ok? ==>
        && Acted(mid) && disk.names == mid.names
        && var v := ViewOf(mid, claim.value); View() == v.(node := v.node.(saved := v.node.bytes, clean := true))
    {
      Interfere();
      mid := disk;
      var failed := Fails(lossy);
      if failed { return Raised(OSFault), mid; }
      var i := fds[fd];
      disk := disk.(data := disk.data[i := disk.data[i].(saved := disk.data[i].bytes, clean := true)]);
      assert LinkSet(disk, i) == LinkSet(mid, i);
      Record();
      r := Ok(());
    }

    /** `os.fsync` on a directory: its names become durable as they are. */
    method FsyncDirectory(fd: Fd) returns (r: Outcome<()>, ghost mid: Disk)
      requires Valid() && fd in fds
      modifies this`disk, this`history, this`faults
      ensures r.Raised? ==> r.error == OSFault && Elapsed() && !calm && faults > old(faults)
      ensures r.Ok? ==> Acted(mid) && claim == old(claim) && disk == FsyncedDirectory(mid, fds[fd])
      ensures r.Ok? && claim.Some? ==>
        && var v := ViewOf(mid, claim.value);
        View() == if claim.value.dir == fds[fd] then v.(durableDest := v.dest, durableTemp := v.temp) else v
    {
      Interfere();
      mid := disk;
      var failed := Fails(false);
      if failed { return Raised(OSFault), mid; }
      SyncNames(fds[fd]);
      r := Ok(());
    }

    /** `os.link(source, target, src_dir_fd=fd, dst_dir_fd=fd, follow_symlinks=False)`:
        refuses an existing target. */
    method Link(fd: Fd, source: Name, target: Name) returns (r: Outcome<()>, ghost mid: Disk)
      requires Valid() && fd in fds
      requires claim.Some? && claim.value.Dest() == Loc(fds[fd], target) && claim.value.temp == source
      requires claim.value.staged.Some? && View().temp == claim.value.staged
      modifies this`disk, this`history, this`faults, this`touched, this`sound
      ensures sound == (old(sound) && (r.Ok? ==> Complete(old(View()), claim.value)))
      ensures r.Raised? ==> r.error == OSFault && touched == old(touched) && Elapsed()
      ensures r.Raised? && calm ==> View().dest.Some?
      ensures r.Ok? ==>
        && touched == old(touched) + {claim.value.Dest()}
        && Acted(mid) && disk == Linked(mid, claim.value.Dest(), claim.value.staged.value)
        && var v := ViewOf(mid, claim.value);
        && v.dest == None && View() == v.(dest := claim.value.staged, links := v.links + 1)
    {
      hide Kept, Complete, Coherent, ViewOf, KeptSince;
      Interfere();
      mid := disk;
      Glimpse();
      var failed := Fails(false);
      if failed { return Raised(OSFault), mid; }
      var d := fds[fd];
      if Loc(d, source) !in disk.names || Loc(d, target) in disk.names {
        return Raised(OSFault), mid;
      }
      DriftIsKept(old(View()), View(), claim.value, sound);
      Bind(Loc(d, target), disk.names[Loc(d, source)]);
      r := Ok(());
    }

    /** `os.unlink(name, dir_fd=fd)` */
    method Unlink(fd: Fd, name: Name) returns (r: Outcome<()>, ghost mid: Disk)
      requires Valid() && fd in fds
      modifies this`disk, this`history, this`faults, this`touched
      ensures r.Raised? ==> r.error == OSFault && touched == old(touched) && Passed() && (stuck || Elapsed())
      ensures stuck ==> r.Raised? && faults > old(faults)
      ensures r.Raised? && faults == old(faults) ==>
        Entry(fd, name) == None || Entry(fd, name).value.kind.Directory?
      ensures r.Ok? ==>
        && touched == old(touched) + {Loc(fds[fd], name)}
        && Acted(mid) && Loc(fds[fd], name) in mid.names && disk == Unlinked(mid, Loc(fds[fd], name))
      ensures r.Ok? && claim.Some? ==>
        var v, c, l := ViewOf(mid, claim.value), claim.value, Loc(fds[fd], name);
        && (c.staged == Some(mid.names[l]) ==> v.links > 0)
        && View() == v.(
             dest := if l == c.Dest() then None else v.dest,
             temp := if l == c.Temp() then None else v.temp,
             links := if c.staged == Some(mid.names[l]) && v.links > 0 then v.links - 1 else v.links)
    {
      hide Kept, Coherent, ViewOf, KeptSince;
      Interfere();
      mid := disk;
      var failed := Fails(stuck);
      if failed { return Raised(OSFault), mid; }
      var l := Loc(fds[fd], name);
      if l !in disk.names || disk.names[l].kind.Directory? {
        return Raised(OSFault), mid;
      }
      Unbind(l);
      r := Ok(());
    }

    /** `os.mkdir(name, 0o700, dir_fd=fd)`, only called while nothing is claimed.  The new
        directory `made` has no entries. */
    method Mkdir(fd: Fd, name: Name) returns (r: Outcome<()>, ghost made: Ino)
      requires Valid() && fd in fds && claim == None
      modifies this`disk, this`history, this`faults, this`touched
      ensures Valid() && old(history) <= history && faults >= old(faults)
      ensures r.Raised? ==> r.error == OSFault && touched == old(touched) && (calm ==> old(Entry(fd, name)).Some?)
      ensures r.Ok? ==> touched == old(touched) + {Loc(fds[fd], name)}
      ensures r.Ok? && calm ==>
        && old(Entry(fd, name)) == None && Bare(old(disk), made) && made != fds[fd] && made.kind == Directory(true)
        && disk == Created(old(disk), Loc(fds[fd], name), made)
    {
      made := root;
      Interfere();
      var failed := Fails(false);
      if failed { return Raised(OSFault), made; }
      var l := Loc(fds[fd], name);
      if l in disk.names { return Raised(OSFault), made; }
      var serial := Unused({fds[fd].serial} + (set i | i in disk.data :: i.serial) + (set k | k in disk.names :: k.dir.serial));
      var ino := Ino(serial, Directory(true));
      made := ino;
      disk := Created(disk, l, ino);
      Record();
      touched := touched + {l};
      r := Ok(());
    }

    /** `os.dup(fd)` */
    method Dup(fd: Fd) returns (r: Outcome<Fd>)
      requires Valid() && fd in fds
      modifies this`disk, this`history, this`faults, this`fds
      ensures Elapsed() && (faults > old(faults) <==> r.Raised?)
      ensures r.Raised? ==> r.error == OSFault && fds == old(fds)
      ensures r.Ok? ==> r.value !in old(fds) && fds == old(fds)[r.value := old(fds)[fd]]
    {
      Interfere();
      var failed := Fails(false);
      if failed { return Raised(OSFault); }
      var copy := Install(fds[fd]);
      r := Ok(copy);
    }

    /** `os.close(fd)` with its error swallowed: the descriptor is released either way. */
    method Close(fd: Fd)
      requires Valid() && fd in fds
      modifies this`fds
      ensures Valid() && fds == old(fds) - {fd}
    {
      fds := fds - {fd};
    }

    /** Lays claim to two names in a directory, from this moment on. */
    method Reserve(dir: Ino, dest: Name, temp: Name, content: seq<Byte>, staged: Option<Ino>)
      requires Valid() && dest != temp
      requires staged.Some? ==> claim.Some? && claim.value.staged == staged
      modifies this`claim, this`since, this`sound
      ensures Valid() && since == |history| - 1 && sound
      ensures claim == Some(Claim(dir, dest, temp, content, staged,
                                  {Lookup(disk.names, Loc(dir, dest)), Lookup(disk.durable, Loc(dir, dest))}))
    {
      sound := true;
      since := |history| - 1;
      claim := Some(Claim(dir, dest, temp, content, staged,
        {Lookup(disk.names, Loc(dir, dest)), Lookup(disk.durable, Loc(dir, dest))}));
    }

    /** Gives the claim up; its safety is no longer this object's concern. */
    method Release()
      requires Valid()
      modifies this`claim
      ensures Valid() && claim == None
    {
      claim := None;
    }
  }
}
