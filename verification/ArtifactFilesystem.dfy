/** Staging, publishing, classifying and removing one artifact through a held directory. */
module ArtifactFilesystem {
  import opened Prelude
  import opened FileSystemModel
  import opened PathWalk

  datatype Path = Path(parent: DirPath, name: Name)

  /** `_validate_entry_name` */
  predicate ValidEntryName(name: Name) {
    name !in ["", ".", ".."] && '/' !in name
  }

  class StagedArtifact {
    const path: Path
    var identity: Option<Ino>
    var parentIdentity: Option<Ino>
    var parentLease: Option<Fd>
    var artifactLease: Option<Fd>

    constructor (path: Path)
      ensures this.path == path && identity == None && parentIdentity == None
      ensures parentLease == None && artifactLease == None
    {
      this.path := path;
      identity, parentIdentity, parentLease, artifactLease := None, None, None, None;
    }

    /** The descriptors this object holds open. */
    function Leases(): set<Fd>
      reads this
    {
      (if parentLease.Some? then {parentLease.value} else {})
      + (if artifactLease.Some? then {artifactLease.value} else {})
    }

    /** Both leases are open, and they are two descriptors. */
    predicate Leased(fs: FileSystem)
      reads this, fs
    {
      && Leases() <= fs.fds.Keys
      && (parentLease.Some? ==> parentLease != artifactLease)
    }

    method Close(fs: FileSystem)
      requires fs.Valid() && Leased(fs)
      modifies this`parentLease, this`artifactLease, fs`fds
      ensures fs.Valid() && fs.fds == old(fs.fds) - old(Leases())
      ensures parentLease == None && artifactLease == None
    {
      var descriptor := parentLease;
      parentLease := None;
      if descriptor.Some? { fs.Close(descriptor.value); }
      var artifactDescriptor := artifactLease;
      artifactLease := None;
      if artifactDescriptor.Some? { fs.Close(artifactDescriptor.value); }
    }
  }

  /** `_descriptor_identity` */
  method DescriptorIdentity(fs: FileSystem, fd: Fd) returns (r: Outcome<Ino>)
    requires fs.Valid() && fd in fs.fds
    modifies fs`disk, fs`history, fs`faults
    ensures fs.Elapsed()
    ensures r.Ok? ==> r.value == fs.fds[fd] && r.value.kind.Directory?
    ensures r.Raised? ==> if fs.fds[fd].kind.Directory? then r.error == OSFault && fs.faults > old(fs.faults)
                          else r.error in {OSFault, ConfigurationError}
  {
    var metadata := fs.Fstat(fd);
    if metadata.Raised? { return Raised(metadata.error); }
    if !metadata.value.ino.kind.Directory? { return Raised(ConfigurationError); }
    r := Ok(metadata.value.ino);
  }

  /** What an inspected entry says about a claimed name. */
  ghost predicate Reports(m: Option<Meta>, binding: Option<Ino>, v: View, c: Claim) {
    && (m == None <==> binding == None)
    && (m.Some? ==> Some(m.value.ino) == binding && (binding == c.staged ==> m.value.nlink == v.links))
  }

  /** `_entry_metadata` */
  method EntryMetadata(fs: FileSystem, fd: Fd, name: Name) returns (r: Outcome<Option<Meta>>)
    requires fs.Valid() && fd in fs.fds
    modifies fs`disk, fs`history, fs`faults
    ensures fs.Elapsed() && |old(fs.history)| < |fs.history|
    ensures r.Raised? <==> fs.faults > old(fs.faults)
    ensures r.Raised? ==> r.error == ConfigurationError
    ensures r.Ok? ==>
      var entry := fs.Entry(fd, name);
      r.value == if entry == None then None else Some(MetaOf(fs.disk, entry.value))
    ensures r.Ok? && fs.claim.Some? && fs.claim.value.Dest() == Loc(fs.fds[fd], name) ==>
      Reports(r.value, fs.View().dest, fs.View(), fs.claim.value)
    ensures r.Ok? && fs.claim.Some? && fs.claim.value.Temp() == Loc(fs.fds[fd], name) ==>
      Reports(r.value, fs.View().temp, fs.View(), fs.claim.value)
  {
    var found := fs.Stat(fd, name);
    if found.Ok? { return Ok(Some(found.value)); }
    if found.error == FileNotFound { return Ok(None); }
    r := Raised(ConfigurationError);
  }

  /** `_fsync_open_directory` */
  method FsyncOpenDirectory(fs: FileSystem, fd: Fd) returns (synced: bool)
    requires fs.Valid() && fd in fs.fds
    modifies fs`disk, fs`history, fs`faults
    ensures fs.Valid() && old(fs.history) <= fs.history && fs.claim == old(fs.claim) && fs.faults >= old(fs.faults)
    ensures !synced ==> fs.faults > old(fs.faults) && !fs.calm
    ensures fs.calm ==> fs.disk.names == old(fs.disk.names) && fs.faults == old(fs.faults)
    ensures fs.claim.Some? ==>
      var v, w := old(fs.View()), fs.View();
      && Drift(v, w)
      && (synced && fs.claim.value.dir == fs.fds[fd] ==> w.durableDest == w.dest && w.durableTemp == w.temp)
  {
    hide FileSystem.Valid, ViewOf;
    var r, _ := fs.FsyncDirectory(fd);
    synced := r.Ok?;
  }

  /** `_path_directory_has_identity` */
  method PathHasIdentity(fs: FileSystem, path: DirPath, expected: Option<Ino>) returns (r: Outcome<bool>)
    requires fs.Valid()
    modifies fs`disk, fs`history, fs`faults, fs`touched, fs`fds
    ensures fs.Elapsed() && fs.fds == old(fs.fds) && fs.touched == old(fs.touched)
    ensures r.Raised? ==> r.error == OSFault && !fs.calm
    ensures r == Ok(true) ==>
      && expected.Some?
      && Reached(fs.history, |old(fs.history)|, |fs.history|, Anchor(fs, path), path.components, |path.components|, expected.value)
    ensures fs.calm ==> r == Ok(expected.Some? && old(Named(fs, path)) == expected)
  {
    hide FileSystem.Valid, ViewOf, Reached;
    if expected == None { return Ok(false); }
    ghost var from := |fs.history|;
    var descriptor := OpenArtifactDirectory(fs, path, false);
    if descriptor.Raised? { return Ok(false); }
    ghost var h, d := fs.history, fs.fds[descriptor.value];
    var identity := DescriptorIdentity(fs, descriptor.value);
    fs.Close(descriptor.value);
    if identity.Raised? { return Raised(identity.error); }
    ReachedLater(h, fs.history, from, |h|, |fs.history|, Anchor(fs, path), path.components, |path.components|, d);
    r := Ok(Some(identity.value) == expected);
  }

  /** The claimed part after calls that bind neither claimed name but may unbind them. */
  predicate Shrunk(v: View, w: View) {
    && (w.dest == v.dest || w.dest == None)
    && (w.temp == v.temp || w.temp == None)
    && w.durableDest in {v.durableDest, v.dest, None}
    && w.durableTemp in {v.durableTemp, v.temp, None}
    && (v.links == 0 ==> w.links == 0)
    && w.node == v.node.(saved := w.node.saved)
    && (v.node.clean ==> w.node.saved == v.node.saved)
  }

  /** What an attempt to remove the entry at `l` does to the claimed part: it unbinds at
      most `l`, only while `l` is bound to the expected regular file, and it succeeds when
      no call fails and nothing else is bound there. */
  predicate Removal(v: View, w: View, c: Claim, l: Loc, expected: Option<Ino>, removed: bool, clean: bool) {
    && Shrunk(v, w)
    && (w.dest != v.dest ==> l == c.Dest() && Owned(v.dest, expected))
    && (w.temp != v.temp ==> l == c.Temp() && Owned(v.temp, expected))
    && (l == c.Dest() && removed ==> w.dest == None && w.durableDest == None)
    && (l == c.Temp() && removed ==> w.temp == None && w.durableTemp == None)
    && (l == c.Dest() && clean && !removed ==> v.dest.Some? && !Owned(v.dest, expected))
    && (l == c.Temp() && clean && !removed ==> v.temp.Some? && !Owned(v.temp, expected))
  }

  predicate Owned(binding: Option<Ino>, expected: Option<Ino>) {
    binding == expected && binding.Some? && binding.value.kind.Regular?
  }

  /** The claimed part once the name at `l` is gone. */
  predicate Gone(v: View, w: View, c: Claim, l: Loc) {
    && Shrunk(v, w)
    && w.dest == (if l == c.Dest() then None else v.dest)
    && w.temp == (if l == c.Temp() then None else v.temp)
  }

  method UnlinkEntry(fs: FileSystem, fd: Fd, name: Name) returns (unlinked: bool)
    requires fs.Valid() && fd in fs.fds
    modifies fs`disk, fs`history, fs`faults, fs`touched
    ensures fs.Valid() && old(fs.history) <= fs.history && fs.claim == old(fs.claim) && fs.faults >= old(fs.faults)
    ensures fs.touched <= old(fs.touched) + {Loc(fs.fds[fd], name)}
    ensures !unlinked ==> fs.Passed() && (fs.stuck || fs.Elapsed())
    ensures fs.stuck ==> !unlinked
    ensures unlinked && fs.claim.Some? ==> Gone(old(fs.View()), fs.View(), fs.claim.value, Loc(fs.fds[fd], name))
    ensures !unlinked && fs.faults == old(fs.faults) ==>
      fs.Entry(fd, name) == None || fs.Entry(fd, name).value.kind.Directory?
    ensures fs.calm && unlinked ==>
      old(fs.Entry(fd, name)).Some? && fs.disk == Unlinked(old(fs.disk), Loc(fs.fds[fd], name))
    ensures fs.Serene() ==> fs.faults == old(fs.faults)
    ensures fs.Serene() && old(fs.Entry(fd, name)).Some? && old(fs.Entry(fd, name)).value.kind.Regular? ==> unlinked
  {
    hide FileSystem.Valid, ViewOf;
    var r, _ := fs.Unlink(fd, name);
    unlinked := r.Ok?;
  }

  /** Looks for an entry that should be gone, and makes its absence durable. */
  method ConfirmGone(fs: FileSystem, fd: Fd, name: Name) returns (gone: bool, ghost at: nat)
    requires fs.Valid() && fd in fs.fds
    modifies fs`disk, fs`history, fs`faults
    ensures fs.Valid() && old(fs.history) <= fs.history && fs.claim == old(fs.claim) && fs.faults >= old(fs.faults)
    ensures gone ==> |old(fs.history)| <= at < |fs.history| && Loc(fs.fds[fd], name) !in fs.history[at].names
    ensures fs.claim.Some? ==>
      var c, v, w, l := fs.claim.value, old(fs.View()), fs.View(), Loc(fs.fds[fd], name);
      && Drift(v, w)
      && (gone && l == c.Dest() ==> w.dest == None && w.durableDest == None)
      && (gone && l == c.Temp() ==> w.temp == None && w.durableTemp == None)
      && (!gone && fs.faults == old(fs.faults) ==> (l == c.Dest() ==> v.dest.Some?) && (l == c.Temp() ==> v.temp.Some?))
    ensures fs.calm ==>
      fs.disk.names == old(fs.disk.names) && fs.faults == old(fs.faults) && gone == (old(fs.Entry(fd, name)) == None)
  {
    hide FileSystem.Valid, ViewOf;
    at := 0;
    var entry := EntryMetadata(fs, fd, name);
    if entry.Raised? { return false, at; }
    fs.Present();
    if fs.claim.Some? { fs.Glimpse(); }
    at := |fs.history| - 1;
    if entry.value.Some? { return false, at; }
    gone := FsyncOpenDirectory(fs, fd);
  }

  /** Removes an entry just found to be the expected file: unlink, look again, make durable. */
  method UnlinkDurably(fs: FileSystem, fd: Fd, name: Name, expected: Option<Ino>) returns (removed: bool, ghost at: nat)
    requires fs.Valid() && fd in fs.fds && Owned(fs.Entry(fd, name), expected)
    modifies fs`disk, fs`history, fs`faults, fs`touched
    ensures fs.Valid() && old(fs.history) <= fs.history && fs.claim == old(fs.claim) && fs.faults >= old(fs.faults)
    ensures fs.touched <= old(fs.touched) + {Loc(fs.fds[fd], name)}
    ensures removed ==>
      |old(fs.history)| <= at < |fs.history| && Loc(fs.fds[fd], name) !in fs.history[at].names
    ensures fs.claim.Some? ==>
      Removal(old(fs.View()), fs.View(), fs.claim.value, Loc(fs.fds[fd], name), expected, removed, fs.faults == old(fs.faults))
    ensures fs.stuck ==> !removed
    ensures fs.calm && fs.stuck ==> fs.disk == old(fs.disk)
    ensures fs.Serene() ==>
      removed && fs.faults == old(fs.faults) && fs.disk.names == Unlinked(old(fs.disk), Loc(fs.fds[fd], name)).names
  {
    hide FileSystem.Valid, ViewOf;
    at := 0;
    if fs.claim.Some? { fs.Glimpse(); }
    var unlinked := UnlinkEntry(fs, fd, name);
    if !unlinked {
      if fs.claim.Some? { fs.Glimpse(); }
      return false, at;
    }
    removed, at := ConfirmGone(fs, fd, name);
  }

  /** `_remove_owned_entry_at` */
  method RemoveOwnedEntryAt(fs: FileSystem, fd: Fd, name: Name, expected: Option<Ino>)
    returns (removed: bool, ghost at: nat)
    requires fs.Valid() && fd in fs.fds
    modifies fs`disk, fs`history, fs`faults, fs`touched
    ensures fs.Valid() && old(fs.history) <= fs.history && fs.claim == old(fs.claim) && fs.faults >= old(fs.faults)
    ensures fs.touched <= old(fs.touched) + {Loc(fs.fds[fd], name)}
    ensures removed ==>
      |old(fs.history)| <= at < |fs.history| && Loc(fs.fds[fd], name) !in fs.history[at].names
    ensures fs.claim.Some? ==>
      Removal(old(fs.View()), fs.View(), fs.claim.value, Loc(fs.fds[fd], name), expected, removed, fs.faults == old(fs.faults))
    ensures fs.calm && fs.stuck && old(fs.Entry(fd, name)).Some? ==> !removed && fs.disk == old(fs.disk)
    ensures fs.Serene() ==>
      var entry := old(fs.Entry(fd, name));
      && fs.faults == old(fs.faults) && removed == (entry == None || Owned(entry, expected))
      && fs.disk.names == if Owned(entry, expected) then Unlinked(old(fs.disk), Loc(fs.fds[fd], name)).names
                          else old(fs.disk.names)
  {
    hide FileSystem.Valid, ViewOf;
    at := 0;
    var metadata := EntryMetadata(fs, fd, name);
    if metadata.Raised? { return false, at; }
    if metadata.value == None {
      fs.Present();
      at := |fs.history| - 1;
      removed := FsyncOpenDirectory(fs, fd);
      return removed, at;
    }
    if expected == None || !metadata.value.value.ino.kind.Regular? || Some(metadata.value.value.ino) != expected {
      return false, at;
    }
    removed, at := UnlinkDurably(fs, fd, name, expected);
  }

  /** The write loop: any number of partial writes, each making progress. */
  method WriteAll(fs: FileSystem, fd: Fd, content: seq<Byte>) returns (r: Outcome<()>)
    requires fs.Valid() && fd in fs.fds
    requires fs.claim.Some? && fs.claim.value.staged == Some(fs.fds[fd])
    requires fs.View().dest != fs.claim.value.staged && fs.View().durableDest != fs.claim.value.staged
    requires fs.View().node.bytes == [] && fs.View().node.clean
    modifies fs`disk, fs`history, fs`faults
    ensures fs.Valid() && old(fs.history) <= fs.history && fs.claim == old(fs.claim) && fs.faults >= old(fs.faults)
    ensures Drift(old(fs.View()).(node := fs.View().node), fs.View())
    ensures r.Ok? ==> fs.View().node.bytes == content
    ensures fs.View().node.confined == old(fs.View().node.confined)
    ensures r.Raised? && fs.calm ==> fs.stuck && fs.disk == old(fs.disk)
    ensures fs.stuck && content != [] ==> r.Raised?
    ensures fs.calm ==> fs.disk.names == old(fs.disk.names)
  {
    hide FileSystem.Valid, ViewOf;
    var offset := 0;
    while offset < |content|
      invariant 0 <= offset <= |content|
      invariant fs.Valid() && old(fs.history) <= fs.history && fs.claim == old(fs.claim) && fs.faults >= old(fs.faults)
      invariant Drift(old(fs.View()).(node := fs.View().node), fs.View())
      invariant fs.View().dest != fs.claim.value.staged && fs.View().durableDest != fs.claim.value.staged
      invariant fs.View().node.bytes == content[..offset] && fs.View().node.confined == old(fs.View().node.confined)
      invariant fs.calm ==> fs.disk.names == old(fs.disk.names)
      invariant fs.stuck ==> offset == 0
      invariant offset == 0 && fs.calm ==> fs.disk == old(fs.disk)
    {
      var written, mid := fs.Write(fd, content[offset..]);
      if written.Raised? { return Raised(written.error); }
      if written.value <= 0 { return Raised(ConfigurationError); }
      assert content[..offset] + content[offset..][..written.value] == content[..offset + written.value];
      offset := offset + written.value;
    }
    assert content[..offset] == content;
    r := Ok(());
  }

  /** At crash point `k`, the name at `l` is the only one the inode has. */
  ghost predicate SoleName(h: seq<Disk>, k: nat, l: Loc, ino: Ino) {
    k < |h| && Lookup(h[k].names, l) == Some(ino) && LinkSet(h[k], ino) == {l}
  }

  /** Some time after `from` the name was the inode's only one, and later still the inode had no
      more names than one. */
  ghost predicate Alone(h: seq<Disk>, from: nat, l: Loc, ino: Ino) {
    exists a: nat, b: nat :: from <= a < b < |h| && SoleName(h, a, l, ino) && Links(h[b], ino) == 1
  }

  lemma AloneStill(h: seq<Disk>, later: seq<Disk>, from: nat, sooner: nat, l: Loc, ino: Ino)
    requires Alone(h, from, l, ino) && h <= later && sooner <= from
    ensures Alone(later, sooner, l, ino)
  {
    hide LinkSet, Links, Lookup;
    var a: nat, b: nat :| from <= a < b < |h| && SoleName(h, a, l, ino) && Links(h[b], ino) == 1;
    assert later[a] == h[a] && later[b] == h[b];
    assert SoleName(later, a, l, ino);
  }

  /** Creates the staging entry where neither claimed name exists. */
  method CreateEntry(fs: FileSystem, parent: Fd, dest: Name, temp: Name) returns (r: Outcome<Fd>)
    requires fs.Valid() && parent in fs.fds && fs.claim.Some? && fs.claim.value.staged == None
    requires fs.claim.value.Dest() == Loc(fs.fds[parent], dest) && fs.claim.value.Temp() == Loc(fs.fds[parent], temp)
    modifies fs`disk, fs`history, fs`faults, fs`touched, fs`fds, fs`claim
    ensures fs.Valid() && old(fs.history) <= fs.history && fs.faults >= old(fs.faults)
    ensures fs.touched <= old(fs.touched) + {old(fs.claim.value).Temp()}
    ensures r.Raised? ==>
      && fs.claim == old(fs.claim) && fs.fds == old(fs.fds)
      && fs.View().dest == old(fs.View().dest) && fs.View().temp == old(fs.View().temp)
    ensures r.Ok? ==>
      && old(fs.View().dest) == None && old(fs.View().temp) == None
      && r.value !in old(fs.fds) && r.value in fs.fds && fs.fds[r.value].kind.Regular?
      && fs.fds == old(fs.fds)[r.value := fs.fds[r.value]]
      && fs.claim == Some(old(fs.claim.value).(staged := Some(fs.fds[r.value])))
      && fs.View().dest == None && fs.View().temp == fs.claim.value.staged && fs.View().node == EMPTY
      && fs.View().durableDest != fs.claim.value.staged
    ensures fs.calm && r.Raised? ==> old(fs.View().dest).Some? || old(fs.View().temp).Some?
    ensures fs.calm && (old(fs.View().dest).Some? || old(fs.View().temp).Some?) ==>
      r == Raised(ValidationError) && fs.disk == old(fs.disk)
    ensures fs.calm && r.Ok? ==>
      && fs.disk.names == old(fs.disk.names)[fs.claim.value.Temp() := fs.fds[r.value]] && fs.View().links == 1
  {
    hide FileSystem.Valid, ViewOf;
    var entry := EntryMetadata(fs, parent, dest);
    if entry.Raised? { return Raised(entry.error); }
    if entry.value.Some? { return Raised(ValidationError); }
    entry := EntryMetadata(fs, parent, temp);
    if entry.Raised? { return Raised(entry.error); }
    if entry.value.Some? { return Raised(ValidationError); }
    var fd, _ := fs.CreateExclusive(parent, temp);
    r := fd;
  }

  /** Writes the content and makes it durable. */
  method FillEntry(fs: FileSystem, fd: Fd, content: seq<Byte>) returns (r: Outcome<()>)
    requires fs.Valid() && fd in fs.fds
    requires fs.claim.Some? && fs.claim.value.staged == Some(fs.fds[fd])
    requires fs.View().dest != fs.claim.value.staged && fs.View().durableDest != fs.claim.value.staged
    requires fs.View().node.bytes == [] && fs.View().node.clean
    modifies fs`disk, fs`history, fs`faults
    ensures fs.Valid() && old(fs.history) <= fs.history && fs.claim == old(fs.claim) && fs.faults >= old(fs.faults)
    ensures Drift(old(fs.View()).(node := fs.View().node), fs.View())
    ensures r.Ok? ==> fs.View().node == Data(content, content, true, old(fs.View().node.confined))
    ensures r.Raised? && fs.calm ==> fs.stuck || fs.lossy
    ensures fs.stuck && content != [] ==> r.Raised? && (fs.calm ==> fs.disk == old(fs.disk))
    ensures fs.lossy ==> r.Raised?
    ensures fs.calm ==> fs.disk.names == old(fs.disk.names)
  {
    hide FileSystem.Valid, ViewOf;
    var written := WriteAll(fs, fd, content);
    if written.Raised? { return Raised(written.error); }
    var synced, _ := fs.FsyncFile(fd);
    r := synced;
  }

  /** How far a staging attempt came: nothing made; the entry made but its inode not
      recorded; or the inode recorded and leased. */
  ghost predicate Progress(fs: FileSystem, stage: StagedArtifact, fds: map<Fd, Ino>, created: bool, descriptor: Option<Fd>)
    requires fs.claim.Some?
    reads fs, stage
  {
    var staged := fs.claim.value.staged;
    if !created then
      stage.identity == None && stage.artifactLease == None && descriptor == None && staged == None && fs.fds == fds
    else
      && staged.Some? && staged.value.kind.Regular? && fs.View().temp == staged
      && if stage.identity == None then
           && stage.artifactLease == None && descriptor.Some? && descriptor.value !in fds
           && fs.fds == fds[descriptor.value := staged.value]
         else
           && stage.identity == staged && descriptor == None
           && stage.artifactLease.Some? && stage.artifactLease.value !in fds
           && fs.fds == fds[stage.artifactLease.value := staged.value]
  }

  /** The rest of it, once the inode is captured: fill it, and see that nothing has moved. */
  method FillStage(fs: FileSystem, parent: Fd, path: Path, content: seq<Byte>, stage: StagedArtifact) returns (r: Outcome<()>)
    requires fs.Valid() && parent in fs.fds && fs.claim.Some? && fs.claim.value.staged.Some?
    requires fs.claim.value.content == content && fs.claim.value.Temp() == Loc(fs.fds[parent], stage.path.name)
    requires stage.identity == fs.claim.value.staged && stage.parentIdentity == Some(fs.fds[parent])
    requires stage.artifactLease.Some? && stage.artifactLease.value in fs.fds
    requires stage.identity == Some(fs.fds[stage.artifactLease.value])
    requires fs.View().temp == stage.identity && fs.View().dest == None && fs.View().durableDest != stage.identity
    requires fs.View().node == EMPTY
    modifies fs`disk, fs`history, fs`faults, fs`touched, fs`fds
    ensures fs.Valid() && old(fs.history) <= fs.history && fs.claim == old(fs.claim) && fs.faults >= old(fs.faults)
    ensures fs.fds == old(fs.fds) && fs.touched == old(fs.touched)
    ensures fs.View().dest == None && fs.View().temp == stage.identity
    ensures r.Ok? ==>
      && Whole(fs.View(), fs.claim.value)
      && fs.View().durableDest == None && fs.View().durableTemp == stage.identity
      && Alone(fs.history, |old(fs.history)|, fs.claim.value.Temp(), stage.identity.value)
      && Reached(fs.history, |old(fs.history)|, |fs.history|, Anchor(fs, path.parent), path.parent.components,
                 |path.parent.components|, fs.fds[parent])
    ensures
      && fs.Serene() && !fs.lossy && old(fs.View().links) == 1 && old(Named(fs, path.parent)) == Some(fs.fds[parent])
      ==> r.Ok?
    ensures fs.Serene() && fs.lossy ==> r.Raised?
    ensures fs.calm && fs.stuck && content != [] ==> r.Raised? && fs.disk == old(fs.disk)
    ensures fs.calm && r.Raised? ==> fs.disk.names == old(fs.disk.names) && fs.View().links == old(fs.View().links)
    ensures fs.calm && r.Ok? ==> fs.View().links == 1 && Named(fs, path.parent) == Some(fs.claim.value.dir)
  {
    hide FileSystem.Valid, ViewOf, Reached, Resolve;
    ghost var was, anchor := fs.disk, Anchor(fs, path.parent);
    fs.Glimpse();
    var filled := FillEntry(fs, stage.artifactLease.value, content);
    if fs.calm {
      NamedBySameNames(was, fs.disk, anchor, path.parent.components);
      LinksByNames(was, fs.disk, stage.identity.value);
      fs.Glimpse();
    }
    if filled.Raised? { return Raised(filled.error); }
    ghost var from := |fs.history|;
    r := CheckSoleLink(fs, parent, path.parent, stage);
    if fs.calm {
      LinksByNames(was, fs.disk, stage.identity.value);
      fs.Glimpse();
    }
    if r.Ok? {
      ReachedSooner(fs.history, |old(fs.history)|, from, |fs.history|, Anchor(fs, path.parent), path.parent.components,
                    |path.parent.components|, fs.fds[parent]);
    }
  }

  /** The `try` block of `stage_artifact` up to the lease of the parent descriptor. */
  method StageInto(fs: FileSystem, parent: Fd, path: Path, content: seq<Byte>, stage: StagedArtifact)
    returns (r: Outcome<()>, created: bool, descriptor: Option<Fd>)
    requires fs.Valid() && parent in fs.fds
    requires fs.claim.Some? && fs.claim.value.staged == None && fs.claim.value.content == content
    requires fs.claim.value.Dest() == Loc(fs.fds[parent], path.name)
    requires fs.claim.value.Temp() == Loc(fs.fds[parent], stage.path.name)
    requires stage.identity == None && stage.artifactLease == None && stage.parentIdentity == Some(fs.fds[parent])
    modifies fs`disk, fs`history, fs`faults, fs`touched, fs`fds, fs`claim, stage`identity, stage`artifactLease
    ensures fs.Valid() && old(fs.history) <= fs.history && fs.faults >= old(fs.faults)
    ensures fs.touched <= old(fs.touched) + {old(fs.claim.value).Temp()}
    ensures fs.claim.Some? && fs.claim.value == old(fs.claim.value).(staged := fs.claim.value.staged)
    ensures Progress(fs, stage, old(fs.fds), created, descriptor)
    ensures fs.View().dest == old(fs.View().dest)
    ensures created ==> fs.View().dest == None && old(fs.View().temp) == None
    ensures !created ==> fs.View().temp == old(fs.View().temp)
    ensures fs.calm && (old(fs.View().dest).Some? || old(fs.View().temp).Some?) ==> r == Raised(ValidationError)
    ensures created && stage.identity == None ==> fs.faults > old(fs.faults) && fs.View().node == EMPTY
    ensures r.Ok? ==>
      && created && stage.identity.Some?
      && Whole(fs.View(), fs.claim.value)
      && fs.View().durableDest == None && fs.View().durableTemp == stage.identity
      && Alone(fs.history, |old(fs.history)|, fs.claim.value.Temp(), stage.identity.value)
      && Reached(fs.history, |old(fs.history)|, |fs.history|, Anchor(fs, path.parent), path.parent.components,
                 |path.parent.components|, old(fs.fds[parent]))
    ensures
      && fs.Serene() && !fs.lossy && old(fs.View().dest) == None && old(fs.View().temp) == None
      && old(Named(fs, path.parent)) == Some(old(fs.fds[parent]))
      ==> r.Ok?
    ensures fs.Serene() && fs.lossy && old(fs.View().dest) == None && old(fs.View().temp) == None ==>
      && r.Raised? && stage.identity.Some? && fs.View().links == 1
      && fs.disk.names == old(fs.disk.names)[old(fs.claim.value).Temp() := stage.identity.value]
    ensures
      && fs.calm && fs.stuck && content != [] && old(fs.View().dest) == None && old(fs.View().temp) == None
      ==> r.Raised? && stage.identity.Some? && fs.View().node == EMPTY && fs.View().links == 1
          && Named(fs, path.parent) == old(Named(fs, path.parent))
    ensures fs.calm && r.Ok? ==> fs.View().links == 1 && Named(fs, path.parent) == Some(fs.claim.value.dir)
  {
    hide FileSystem.Valid, ViewOf, Reached, Resolve;
    created, descriptor := false, None;
    ghost var was, anchor := fs.disk, Anchor(fs, path.parent);
    fs.Glimpse();
    var fd := CreateEntry(fs, parent, path.name, stage.path.name);
    if fd.Raised? { return Raised(fd.error), created, descriptor; }
    if fs.calm {
      fs.Glimpse();
      NamedKept(was, fs.disk, fs.claim.value.Temp(), anchor, path.parent.components);
      was := fs.disk;
    }
    descriptor, created := Some(fd.value), true;
    var metadata := fs.Fstat(fd.value);
    if metadata.Raised? { return Raised(metadata.error), created, descriptor; }
    if !metadata.value.ino.kind.Regular? { return Raised(ConfigurationError), created, descriptor; }
    stage.identity := Some(metadata.value.ino);
    stage.artifactLease, descriptor := descriptor, None;
    ghost var middle := |fs.history|;
    r := FillStage(fs, parent, path, content, stage);
    if r.Ok? {
      ReachedSooner(fs.history, |old(fs.history)|, middle, |fs.history|, Anchor(fs, path.parent), path.parent.components,
                    |path.parent.components|, fs.fds[parent]);
    }
  }

  /** The staging name is bound to the leased inode, which has no other name. */
  method ConfirmSoleName(fs: FileSystem, parent: Fd, stage: StagedArtifact) returns (r: Outcome<()>)
    requires fs.Valid() && parent in fs.fds && fs.claim.Some? && fs.claim.value.staged.Some?
    requires fs.claim.value.Temp() == Loc(fs.fds[parent], stage.path.name)
    requires stage.identity == fs.claim.value.staged
    requires stage.artifactLease.Some? && stage.artifactLease.value in fs.fds
    requires stage.identity == Some(fs.fds[stage.artifactLease.value])
    modifies fs`disk, fs`history, fs`faults
    ensures fs.Elapsed()
    ensures r.Ok? ==> Alone(fs.history, |old(fs.history)|, fs.claim.value.Temp(), stage.identity.value)
    ensures fs.calm ==> (r.Ok? <==> old(fs.View().temp) == stage.identity && old(fs.View().links) == 1)
  {
    hide FileSystem.Valid, ViewOf;
    fs.Glimpse();
    var staged := EntryMetadata(fs, parent, stage.path.name);
    if staged.Raised? { return Raised(staged.error); }
    if staged.value == None || Some(staged.value.value.ino) != stage.identity || staged.value.value.nlink != 1 {
      return Raised(ConfigurationError);
    }
    ghost var a := |fs.history| - 1;
    fs.Present();
    SoleLink(fs.disk, fs.claim.value.Temp(), stage.identity.value);
    assert SoleName(fs.history, a, fs.claim.value.Temp(), stage.identity.value);
    fs.Glimpse();
    var retained := fs.Fstat(stage.artifactLease.value);
    if retained.Raised? { return Raised(retained.error); }
    fs.Glimpse();
    if Some(retained.value.ino) != stage.identity || retained.value.nlink != 1 {
      return Raised(ConfigurationError);
    }
    fs.Present();
    ghost var b := |fs.history| - 1;
    assert SoleName(fs.history, a, fs.claim.value.Temp(), stage.identity.value);
    assert Links(fs.history[b], stage.identity.value) == 1;
    r := Ok(());
  }

  /** The checks that end staging: the staged name is the inode's only one, the directory
      is durable, and the path still names it. */
  method CheckSoleLink(fs: FileSystem, parent: Fd, path: DirPath, stage: StagedArtifact) returns (r: Outcome<()>)
    requires fs.Valid() && parent in fs.fds && fs.claim.Some? && fs.claim.value.staged.Some?
    requires fs.claim.value.Temp() == Loc(fs.fds[parent], stage.path.name)
    requires stage.identity == fs.claim.value.staged && stage.parentIdentity == Some(fs.fds[parent])
    requires stage.artifactLease.Some? && stage.artifactLease.value in fs.fds
    requires stage.identity == Some(fs.fds[stage.artifactLease.value])
    modifies fs`disk, fs`history, fs`faults, fs`touched, fs`fds
    ensures fs.Valid() && old(fs.history) <= fs.history && fs.claim == old(fs.claim) && fs.faults >= old(fs.faults)
    ensures fs.fds == old(fs.fds) && fs.touched == old(fs.touched)
    ensures Drift(old(fs.View()), fs.View())
    ensures r.Ok? ==>
      && fs.View().durableDest == fs.View().dest && fs.View().durableTemp == fs.View().temp
      && Alone(fs.history, |old(fs.history)|, fs.claim.value.Temp(), stage.identity.value)
      && Reached(fs.history, |old(fs.history)|, |fs.history|, Anchor(fs, path), path.components, |path.components|,
                 fs.fds[parent])
    ensures
      && fs.calm && old(fs.View().temp) == stage.identity && old(fs.View().links) == 1
      && old(Named(fs, path)) == Some(fs.fds[parent])
      ==> r.Ok?
    ensures fs.calm ==> fs.disk.names == old(fs.disk.names)
    ensures fs.calm && r.Ok? ==> fs.View().links == 1 && Named(fs, path) == Some(fs.fds[parent])
  {
    hide FileSystem.Valid, ViewOf, Reached, Resolve;
    fs.Glimpse();
    r := ConfirmSoleName(fs, parent, stage);
    if r.Raised? { return; }
    ghost var sole := fs.history;
    var synced := FsyncOpenDirectory(fs, parent);
    if !synced { return Raised(ConfigurationError); }
    if fs.calm {
      NamedBySameNames(old(fs.disk), fs.disk, Anchor(fs, path), path.components);
      LinksByNames(old(fs.disk), fs.disk, stage.identity.value);
    }
    fs.Glimpse();
    ghost var from := |fs.history|;
    var named := PathHasIdentity(fs, path, stage.parentIdentity);
    if named.Raised? { return Raised(named.error); }
    if !named.value { return Raised(ConfigurationError); }
    ReachedSooner(fs.history, |old(fs.history)|, from, |fs.history|, Anchor(fs, path), path.components,
                  |path.components|, fs.fds[parent]);
    AloneStill(sole, fs.history, |old(fs.history)|, |old(fs.history)|, fs.claim.value.Temp(), stage.identity.value);
    r := Ok(());
  }

  /** The stage holds its inode: both leases are open on what was claimed. */
  ghost predicate Holds(fs: FileSystem, stage: StagedArtifact)
    reads fs, stage
  {
    && stage.Leased(fs) && stage.parentLease.Some? && stage.artifactLease.Some?
    && fs.claim.Some? && fs.claim.value.staged.Some? && stage.identity == fs.claim.value.staged
    && stage.identity.value.kind.Regular?
    && stage.identity == Some(fs.fds[stage.artifactLease.value])
    && fs.claim.value.Temp() == Loc(fs.fds[stage.parentLease.value], stage.path.name)
    && stage.parentIdentity == Some(fs.claim.value.dir)
  }

  /** The stage let go of everything. */
  ghost predicate Cleared(stage: StagedArtifact)
    reads stage
  {
    stage.identity == None && stage.parentLease == None && stage.artifactLease == None
  }

  /** What a clean-up none of whose calls failed leaves of a captured stage: its name is durably
      gone, and it lets go of the inode exactly when that has no other name. */
  ghost predicate Tidied(fs: FileSystem, stage: StagedArtifact)
    reads fs, stage
  {
    && fs.claim.Some? && fs.View().temp == None && fs.View().durableTemp == None
    && if fs.View().links == 0 then Cleared(stage) else Holds(fs, stage)
  }

  /** Tries to remove the staging name; `vanished` means that it is gone and that the
      leased inode has no name left. */
  method WithdrawStage(fs: FileSystem, parent: Fd, stage: StagedArtifact, created: bool) returns (vanished: bool)
    requires fs.Valid() && fs.claim.Some? && parent in fs.fds
    requires fs.claim.value.Temp() == Loc(fs.fds[parent], stage.path.name)
    requires stage.artifactLease.Some? ==>
      && stage.artifactLease.value in fs.fds && fs.claim.value.staged == Some(fs.fds[stage.artifactLease.value])
    modifies fs`disk, fs`history, fs`faults, fs`touched
    ensures fs.Valid() && old(fs.history) <= fs.history && fs.claim == old(fs.claim) && fs.faults >= old(fs.faults)
    ensures Shrunk(old(fs.View()), fs.View()) && fs.View().dest == old(fs.View().dest)
    ensures fs.touched <= old(fs.touched) + {fs.claim.value.Temp()}
    ensures !created || stage.identity == None ==> Drift(old(fs.View()), fs.View())
    ensures fs.calm && fs.stuck && (created && stage.identity.Some? ==> old(fs.View().temp).Some?) ==>
      !vanished && fs.disk == old(fs.disk)
    ensures vanished ==> fs.View().links == 0 && fs.View().temp == None && stage.artifactLease.Some?
    ensures
      && created && stage.artifactLease.Some? && Owned(old(fs.View().temp), stage.identity) && fs.faults == old(fs.faults)
      ==> fs.View().temp == None && fs.View().durableTemp == None && (vanished <==> fs.View().links == 0)
    ensures fs.Serene() && created && Owned(old(fs.View().temp), stage.identity) ==>
      && fs.faults == old(fs.faults) && fs.disk.names == Unlinked(old(fs.disk), fs.claim.value.Temp()).names
      && (stage.identity == fs.claim.value.staged ==> old(fs.View().links) == fs.View().links + 1)
  {
    hide FileSystem.Valid, ViewOf, LinkSet, Links;
    fs.ClaimedApart();
    fs.Glimpse();
    var removed := false;
    if created && stage.identity.Some? {
      var done, _ := RemoveOwnedEntryAt(fs, parent, stage.path.name, stage.identity);
      removed := done;
      fs.Glimpse();
      if fs.Serene() && Owned(old(fs.View().temp), stage.identity) {
        UnlinkedLinks(old(fs.disk), fs.claim.value.Temp(), stage.identity.value);
        LinksByNames(Unlinked(old(fs.disk), fs.claim.value.Temp()), fs.disk, stage.identity.value);
      }
    }
    var retained: Option<nat> := None;
    if stage.artifactLease.Some? {
      var metadata := fs.Fstat(stage.artifactLease.value);
      if metadata.Ok? { retained := Some(metadata.value.nlink); }
      fs.Glimpse();
    }
    vanished := removed && retained == Some(0);
  }

  /** The `except` and `finally` blocks of `stage_artifact`. */
  method AbandonStage(
    fs: FileSystem, parent: Fd, stage: StagedArtifact, created: bool, descriptor: Option<Fd>, ghost fds: map<Fd, Ino>)
    requires fs.Valid() && fs.claim.Some? && parent in fds && fs.claim.value.Temp() == Loc(fds[parent], stage.path.name)
    requires Progress(fs, stage, fds, created, descriptor)
    requires stage.parentLease == None && stage.parentIdentity == Some(fds[parent])
    modifies fs`disk, fs`history, fs`faults, fs`touched, fs`fds
    modifies stage`identity, stage`parentLease, stage`artifactLease
    ensures fs.Valid() && old(fs.history) <= fs.history && fs.claim == old(fs.claim) && fs.faults >= old(fs.faults)
    ensures Shrunk(old(fs.View()), fs.View()) && fs.View().dest == old(fs.View().dest)
    ensures fs.touched <= old(fs.touched) + {fs.claim.value.Temp()}
    ensures
      || (Holds(fs, stage) && fs.fds == fds[stage.artifactLease.value := fs.claim.value.staged.value]
          && stage.artifactLease.value !in fds && stage.parentLease == Some(parent))
      || (Cleared(stage) && fs.fds == fds - {parent} && (old(stage.identity).Some? ==> fs.View().links == 0))
    ensures old(stage.identity) == None ==> Cleared(stage) && Drift(old(fs.View()), fs.View())
    ensures fs.calm && fs.stuck && created && old(stage.identity).Some? ==> Holds(fs, stage) && fs.disk == old(fs.disk)
    ensures old(stage.identity).Some? && fs.faults == old(fs.faults) ==> Tidied(fs, stage)
    ensures fs.Serene() && old(stage.identity).Some? ==>
      && fs.faults == old(fs.faults) && fs.disk.names == Unlinked(old(fs.disk), fs.claim.value.Temp()).names
      && old(fs.View().links) == fs.View().links + 1
  {
    hide FileSystem.Valid, ViewOf, Shrunk, LinkSet, Links;
    var vanished := WithdrawStage(fs, parent, stage, created);
    if vanished {
      stage.identity := None;
      stage.Close(fs);
      fs.Close(parent);
    } else if stage.identity.Some? && stage.artifactLease.Some? {
      stage.parentLease := Some(parent);
    } else {
      stage.Close(fs);
      if descriptor.Some? { fs.Close(descriptor.value); }
      fs.Close(parent);
    }
  }

  /** What a successful staging establishes: the destination does not exist, durably so, and
      the staging name is the durable name of an inode that holds the whole content. */
  ghost predicate Staged(fs: FileSystem, stage: StagedArtifact, path: Path, content: seq<Byte>)
    reads fs, stage
  {
    && Holds(fs, stage) && fs.claim.value.dir.kind.Directory?
    && fs.claim.value.dest == path.name && fs.claim.value.content == content
    && var v := fs.View();
    && Whole(v, fs.claim.value)
    && v.dest == None && v.durableDest == None
    && v.temp == stage.identity && v.durableTemp == stage.identity
  }

  /** Opens the parent directory and lays claim to both names in it. */
  method HoldParent(fs: FileSystem, path: Path, content: seq<Byte>, stage: StagedArtifact) returns (r: Outcome<Fd>)
    requires fs.Valid() && stage.path.name != path.name && stage.Leases() == {}
    modifies fs, stage`identity, stage`parentIdentity
    ensures fs.Valid() && old(fs.history) <= fs.history && fs.calm == old(fs.calm) && fs.stuck == old(fs.stuck)
    ensures fs.lossy == old(fs.lossy)
    ensures fs.faults >= old(fs.faults)
    ensures r.Raised? ==> fs.fds == old(fs.fds) && fs.claim == None
    ensures r.Ok? ==>
      && r.value !in old(fs.fds) && r.value in fs.fds && fs.fds == old(fs.fds)[r.value := fs.fds[r.value]]
      && fs.claim.Some? && fs.since == |fs.history| - 1 && fs.sound && fs.claim.value.staged == None && fs.claim.value.content == content
      && fs.claim.value.Dest() == Loc(fs.fds[r.value], path.name)
      && fs.claim.value.Temp() == Loc(fs.fds[r.value], stage.path.name)
      && stage.identity == None && stage.parentIdentity == Some(fs.fds[r.value]) && fs.fds[r.value].kind.Directory?
    ensures fs.calm && old(Named(fs, path.parent)).Some? ==>
      && r.Ok? && Some(fs.fds[r.value]) == old(Named(fs, path.parent)) && fs.disk == old(fs.disk)
    ensures fs.calm ==>
      && (r.Ok? <==> old(Reachable(fs, path.parent)))
      && (r.Ok? ==>
            && Grown(old(fs.disk), fs.disk) && Named(fs, path.parent) == Some(fs.fds[r.value])
            && (old(Named(fs, path.parent)) == None ==> Empty(fs.disk, fs.fds[r.value])))
  {
    hide FileSystem.Valid, ViewOf, Reached, Resolve;
    fs.Release();
    var parent := OpenArtifactDirectory(fs, path.parent, true);
    if parent.Raised? { return parent; }
    stage.identity := None;
    var identity := DescriptorIdentity(fs, parent.value);
    if identity.Raised? {
      fs.Close(parent.value);
      return Raised(identity.error);
    }
    stage.parentIdentity := Some(identity.value);
    fs.Reserve(fs.fds[parent.value], path.name, stage.path.name, content, None);
    r := parent;
  }

  /** A staging attempt that recorded no inode left the staging name as it was, `before`, or
      bound to the new and still empty inode; the latter only because a call failed. */
  ghost predicate Uncaptured(fs: FileSystem, before: Option<Ino>, faults: nat)
    requires fs.claim.Some?
    reads fs
  {
    var v, staged := fs.View(), fs.claim.value.staged;
    if staged == None then v.temp == before
    else before == None && v.temp == staged && v.node == EMPTY && fs.faults > faults
  }

  /** A stage that holds an inode of which nothing was written. */
  ghost predicate Stranded(fs: FileSystem, stage: StagedArtifact)
    reads fs, stage
  {
    && Holds(fs, stage) && fs.claim.value.dir.kind.Directory?
    && fs.View().node == EMPTY && fs.View().links == 1
    && fs.View().temp == stage.identity && fs.View().dest == None
  }

  /** `stage_artifact` from the moment the parent is held. */
  method StageHeld(fs: FileSystem, parent: Fd, path: Path, content: seq<Byte>, stage: StagedArtifact)
    returns (r: Outcome<()>, ghost captured: bool, ghost clean: bool)
    requires fs.Valid() && parent in fs.fds && stage.Leases() == {} && fs.fds[parent].kind.Directory?
    requires fs.claim.Some? && fs.claim.value.staged == None && fs.claim.value.content == content
    requires fs.claim.value.Dest() == Loc(fs.fds[parent], path.name)
    requires fs.claim.value.Temp() == Loc(fs.fds[parent], stage.path.name)
    requires stage.identity == None && stage.parentIdentity == Some(fs.fds[parent])
    modifies fs`disk, fs`history, fs`faults, fs`touched, fs`fds, fs`claim
    modifies stage`identity, stage`parentLease, stage`artifactLease
    ensures fs.Valid() && old(fs.history) <= fs.history
    ensures fs.claim.Some? && fs.claim.value == old(fs.claim.value).(staged := fs.claim.value.staged)
    ensures stage.Leased(fs) && fs.fds - stage.Leases() == old(fs.fds) - {parent}
    ensures stage.Leases() !! (old(fs.fds.Keys) - {parent})
    ensures r.Ok? ==>
      && captured && Staged(fs, stage, path, content)
      && Alone(fs.history, |old(fs.history)|, fs.claim.value.Temp(), stage.identity.value)
      && Reached(fs.history, |old(fs.history)|, |fs.history|, Anchor(fs, path.parent), path.parent.components,
                 |path.parent.components|, fs.claim.value.dir)
    ensures r.Raised? && captured ==>
      && fs.claim.Some? && fs.View().dest == None
      && (Holds(fs, stage) || (Cleared(stage) && fs.View().links == 0))
    ensures r.Raised? && captured ==> if clean then Tidied(fs, stage) else fs.faults > old(fs.faults)
    ensures r.Raised? && !captured ==>
      stage.Leases() == {} && Uncaptured(fs, old(fs.View().temp), old(fs.faults))
    ensures captured ==> old(fs.View().dest) == None && old(fs.View().temp) == None
    ensures fs.calm && (old(fs.View().dest).Some? || old(fs.View().temp).Some?) ==> r == Raised(ValidationError)
    ensures
      && fs.Serene() && !fs.lossy && old(fs.View().dest) == None && old(fs.View().temp) == None
      && old(Named(fs, path.parent)) == Some(old(fs.fds[parent]))
      ==> r.Ok?
    ensures fs.Serene() && fs.lossy && old(fs.View().dest) == None && old(fs.View().temp) == None ==>
      r.Raised? && captured && Cleared(stage) && fs.disk.names == old(fs.disk.names)
    ensures
      && fs.calm && fs.stuck && content != [] && old(fs.View().dest) == None && old(fs.View().temp) == None
      ==> r.Raised? && captured && Stranded(fs, stage) && Named(fs, path.parent) == old(Named(fs, path.parent))
    ensures fs.calm && r.Ok? ==> fs.View().links == 1 && Named(fs, path.parent) == Some(fs.claim.value.dir)
  {
    hide FileSystem.Valid, ViewOf, Reached, Resolve, Shrunk;
    ghost var fds, names := fs.fds, fs.disk.names;
    fs.Glimpse();
    var created, descriptor;
    r, created, descriptor := StageInto(fs, parent, path, content, stage);
    captured, clean := stage.identity.Some?, true;
    if r.Raised? {
      ghost var faults := fs.faults;
      AbandonStage(fs, parent, stage, created, descriptor, fds);
      clean := fs.faults == faults;
      if fs.Serene() && fs.lossy && fs.claim.value.Temp() !in names && captured {
        assert fs.disk.names == names;
      }
    } else {
      stage.parentLease := Some(parent);
    }
  }

  /** One of the two names is taken in the directory that the path names. */
  ghost predicate Occupied(fs: FileSystem, path: Path, temp: Name)
    reads fs`disk
  {
    && Named(fs, path.parent).Some?
    && (Loc(Named(fs, path.parent).value, path.name) in fs.disk.names
        || Loc(Named(fs, path.parent).value, temp) in fs.disk.names)
  }

  /** The directory can be opened or made, and both names are free in it. */
  ghost predicate Vacant(fs: FileSystem, path: Path, temp: Name)
    reads fs`disk
  {
    Reachable(fs, path.parent) && !Occupied(fs, path, temp)
  }

  method StageUnder(fs: FileSystem, path: Path, content: seq<Byte>, stage: StagedArtifact)
    returns (r: Outcome<()>, ghost captured: bool, ghost clean: bool)
    requires fs.Valid() && stage.path.name != path.name && stage.Leases() == {}
    modifies fs, stage
    ensures fs.Valid() && old(fs.history) <= fs.history && fs.calm == old(fs.calm) && fs.stuck == old(fs.stuck)
    ensures fs.lossy == old(fs.lossy)
    ensures stage.Leased(fs) && fs.fds - stage.Leases() == old(fs.fds)
    ensures r.Ok? ==>
      && captured && Staged(fs, stage, path, content)
      && Alone(fs.history, |old(fs.history)|, fs.claim.value.Temp(), stage.identity.value)
      && Reached(fs.history, |old(fs.history)|, |fs.history|, Anchor(fs, path.parent), path.parent.components,
                 |path.parent.components|, fs.claim.value.dir)
    ensures r.Raised? && captured ==>
      && fs.claim.Some? && fs.View().dest == None
      && (Holds(fs, stage) || (Cleared(stage) && fs.View().links == 0))
    ensures r.Raised? && captured ==> if clean then Tidied(fs, stage) else fs.faults > old(fs.faults)
    ensures r.Raised? && !captured ==> stage.Leases() == {}
    ensures captured ==> fs.claim.Some? && fs.sound && fs.since >= |old(fs.history)| - 1
    ensures r.Raised? && !captured && fs.claim.Some? ==>
      Uncaptured(fs, Lookup(fs.history[fs.since].names, fs.claim.value.Temp()), old(fs.faults))
    ensures
      && fs.calm && (fs.stuck ==> content != [])
      && old(Vacant(fs, path, stage.path.name))
      ==> if fs.stuck then r.Raised? && captured && Stranded(fs, stage) && fs.claim.value.dest == path.name
                           && fs.claim.value.content == content && Named(fs, path.parent) == Some(fs.claim.value.dir)
          else if fs.lossy then
            && r.Raised? && captured && Cleared(stage)
            && (old(Named(fs, path.parent)).Some? ==> fs.disk.names == old(fs.disk.names))
          else r.Ok?
    ensures fs.calm && r.Ok? ==> old(Vacant(fs, path, stage.path.name))
    ensures fs.calm && old(Occupied(fs, path, stage.path.name)) ==> r == Raised(ValidationError) && !captured
    ensures fs.calm && r.Ok? ==> fs.View().links == 1 && Named(fs, path.parent) == Some(fs.claim.value.dir)
  {
    hide FileSystem.Valid, ViewOf, Reached, Resolve, Staged, Stranded, Holds, Cleared, SoleName, Links, LinkSet;
    captured, clean := false, true;
    var parent := HoldParent(fs, path, content, stage);
    if parent.Raised? { return Raised(parent.error), captured, clean; }
    fs.Present();
    fs.Glimpse();
    ghost var from := |fs.history|;
    r, captured, clean := StageHeld(fs, parent.value, path, content, stage);
    if r.Ok? {
      ReachedSooner(fs.history, |old(fs.history)|, from, |fs.history|, Anchor(fs, path.parent), path.parent.components,
                    |path.parent.components|, fs.claim.value.dir);
    }
  }

  /** `stage_artifact`.  `captured` says whether the attempt recorded the inode it made, `clean` that
      no call failed with which it cleaned up after a failure. */
  method StageArtifact(fs: FileSystem, path: Path, content: seq<Byte>, stage: StagedArtifact)
    returns (r: Outcome<()>, ghost captured: bool, ghost clean: bool)
    requires fs.Valid() && stage.Leased(fs)
    modifies fs, stage
    ensures fs.Valid() && old(fs.history) <= fs.history && fs.calm == old(fs.calm) && fs.stuck == old(fs.stuck)
    ensures fs.lossy == old(fs.lossy)
    ensures stage.Leased(fs) && fs.fds - stage.Leases() == old(fs.fds) - old(stage.Leases())
    ensures r.Ok? ==>
      && captured && Staged(fs, stage, path, content)
      && Alone(fs.history, |old(fs.history)|, fs.claim.value.Temp(), stage.identity.value)
      && Reached(fs.history, |old(fs.history)|, |fs.history|, Anchor(fs, path.parent), path.parent.components,
                 |path.parent.components|, fs.claim.value.dir)
    ensures r.Raised? && captured ==>
      && fs.claim.Some? && fs.View().dest == None
      && (Holds(fs, stage) || (Cleared(stage) && fs.View().links == 0))
    ensures r.Raised? && captured ==> if clean then Tidied(fs, stage) else fs.faults > old(fs.faults)
    ensures r.Raised? && !captured ==> stage.Leases() == {} || stage.Leases() == old(stage.Leases())
    ensures captured ==> fs.claim.Some? && fs.sound && fs.since >= |old(fs.history)| - 1
    ensures r.Raised? && !captured && fs.claim.Some? ==>
      || (fs.claim == old(fs.claim) && fs.disk == old(fs.disk))
      || Uncaptured(fs, Lookup(fs.history[fs.since].names, fs.claim.value.Temp()), old(fs.faults))
    ensures
      && fs.calm && (fs.stuck ==> content != []) && stage.path.parent == path.parent && stage.path.name != path.name
      && ValidEntryName(path.name) && ValidEntryName(stage.path.name)
      && old(Vacant(fs, path, stage.path.name))
      ==> if fs.stuck then r.Raised? && captured && Stranded(fs, stage) && fs.claim.value.dest == path.name
                           && fs.claim.value.content == content && Named(fs, path.parent) == Some(fs.claim.value.dir)
          else if fs.lossy then
            && r.Raised? && captured && Cleared(stage)
            && (old(Named(fs, path.parent)).Some? ==> fs.disk.names == old(fs.disk.names))
          else r.Ok?
    ensures fs.calm && r.Ok? ==> old(Vacant(fs, path, stage.path.name))
    ensures
      && fs.calm && stage.path.parent == path.parent && stage.path.name != path.name
      && old(Occupied(fs, path, stage.path.name))
      ==> r == Raised(ValidationError) && !captured
    ensures fs.calm && r.Ok? ==> fs.View().links == 1 && Named(fs, path.parent) == Some(fs.claim.value.dir)
    ensures stage.path.parent != path.parent || stage.path == path ==>
      r == Raised(ConfigurationError) && !captured && fs.disk == old(fs.disk) && fs.fds == old(fs.fds)
    ensures
      && stage.path.parent == path.parent && stage.path != path
      && (!ValidEntryName(path.name) || !ValidEntryName(stage.path.name))
      ==> r == Raised(ValidationError) && !captured && fs.disk == old(fs.disk) && fs.fds == old(fs.fds)
  {
    hide FileSystem.Valid, ViewOf, Reached, Resolve, Staged, Stranded, Holds, Cleared, Alone, Links;
    captured, clean := false, true;
    if stage.path.parent != path.parent || stage.path == path { return Raised(ConfigurationError), captured, clean; }
    if !ValidEntryName(path.name) || !ValidEntryName(stage.path.name) { return Raised(ValidationError), captured, clean; }
    stage.Close(fs);
    r, captured, clean := StageUnder(fs, path, content, stage);
  }

  /** The leases a publication works through. */
  ghost predicate Publishing(fs: FileSystem, parent: Fd, path: Path, stage: StagedArtifact)
    reads fs, stage
  {
    && parent in fs.fds && fs.claim.Some? && fs.claim.value.staged.Some? && stage.identity == fs.claim.value.staged
    && stage.identity.value.kind.Regular?
    && stage.artifactLease.Some? && stage.artifactLease.value in fs.fds
    && stage.identity == Some(fs.fds[stage.artifactLease.value])
    && fs.claim.value.Dest() == Loc(fs.fds[parent], path.name)
    && fs.claim.value.Temp() == Loc(fs.fds[parent], stage.path.name)
    && fs.claim.value.Dest() != fs.claim.value.Temp()
  }

  /** `_rollback_changed_namespace` */
  method RollbackChangedNamespace(fs: FileSystem, parent: Fd, path: Path, stage: StagedArtifact)
    requires fs.Valid() && Publishing(fs, parent, path, stage)
    modifies fs`disk, fs`history, fs`faults, fs`touched
    ensures fs.Valid() && old(fs.history) <= fs.history && fs.claim == old(fs.claim) && fs.faults >= old(fs.faults)
    ensures fs.touched <= old(fs.touched) + {fs.claim.value.Dest(), fs.claim.value.Temp()}
    ensures Shrunk(old(fs.View()), fs.View())
    ensures old(fs.View().dest) != stage.identity ==> fs.View().dest == old(fs.View().dest)
    ensures fs.faults == old(fs.faults) ==> fs.View().dest != stage.identity && fs.View().temp != stage.identity
  {
    hide FileSystem.Valid, ViewOf;
    var _, _ := RemoveOwnedEntryAt(fs, parent, path.name, stage.identity);
    var _, _ := RemoveOwnedEntryAt(fs, parent, stage.path.name, stage.identity);
  }

  /** The first checks of a publication: the held directory is the staged one and the path
      still names it; otherwise the staging name is given up. */
  method ConfirmParent(fs: FileSystem, parent: Fd, path: Path, stage: StagedArtifact) returns (r: Outcome<()>)
    requires fs.Valid() && Publishing(fs, parent, path, stage)
    modifies fs`disk, fs`history, fs`faults, fs`touched, fs`fds
    ensures fs.Valid() && old(fs.history) <= fs.history && fs.claim == old(fs.claim) && fs.faults >= old(fs.faults)
    ensures fs.fds == old(fs.fds) && fs.touched <= old(fs.touched) + {fs.claim.value.Temp()}
    ensures Shrunk(old(fs.View()), fs.View()) && fs.View().dest == old(fs.View().dest)
    ensures r.Ok? ==> Drift(old(fs.View()), fs.View()) && stage.parentIdentity == Some(fs.fds[parent])
    ensures
      && fs.calm && fs.fds[parent].kind.Directory? && stage.parentIdentity == Some(fs.fds[parent])
      && old(Named(fs, path.parent)) == stage.parentIdentity
      ==> r.Ok? && fs.disk == old(fs.disk)
  {
    hide FileSystem.Valid, ViewOf, Reached, Resolve;
    var identity := DescriptorIdentity(fs, parent);
    if identity.Raised? { return Raised(identity.error); }
    var same := false;
    if Some(identity.value) == stage.parentIdentity {
      var named := PathHasIdentity(fs, path.parent, stage.parentIdentity);
      if named.Raised? { return Raised(named.error); }
      same := named.value;
    }
    if !same {
      var _, _ := RemoveOwnedEntryAt(fs, parent, stage.path.name, stage.identity);
      return Raised(ConfigurationError);
    }
    r := Ok(());
  }

  // What a publication sees of the inode on its way: it has one name, the staging name, then two,
  // among them the destination, and in the end one again, the destination.  Each of the three is
  // seen twice, through the descriptor and under the name.

  ghost predicate SeenStaged(h: seq<Disk>, from: nat, to: nat, l: Loc, i: Ino) {
    to <= |h| && exists a: nat, b: nat :: from <= a < b < to && Links(h[a], i) == 1 && SoleName(h, b, l, i)
  }

  ghost predicate SeenLinked(h: seq<Disk>, from: nat, to: nat, l: Loc, i: Ino) {
    && to <= |h|
    && exists a: nat, b: nat :: from <= a < b < to && Links(h[a], i) == 2 && Links(h[b], i) == 2
                                && Lookup(h[b].names, l) == Some(i)
  }

  ghost predicate Traced(h: seq<Disk>, from: nat, temp: Loc, dest: Loc, i: Ino) {
    exists m: nat, n: nat :: SeenStaged(h, from, m, temp, i) && SeenLinked(h, m, n, dest, i) && Alone(h, n, dest, i)
  }

  lemma SeenStagedStill(h: seq<Disk>, later: seq<Disk>, from: nat, sooner: nat, to: nat, l: Loc, i: Ino)
    requires SeenStaged(h, from, to, l, i) && h <= later && sooner <= from
    ensures SeenStaged(later, sooner, to, l, i)
  {
    hide LinkSet, Links, Lookup;
    var a: nat, b: nat :| from <= a < b < to && Links(h[a], i) == 1 && SoleName(h, b, l, i);
    assert later[a] == h[a] && later[b] == h[b];
    assert SoleName(later, b, l, i);
  }

  lemma SeenLinkedStill(h: seq<Disk>, later: seq<Disk>, from: nat, sooner: nat, to: nat, l: Loc, i: Ino)
    requires SeenLinked(h, from, to, l, i) && h <= later && sooner <= from
    ensures SeenLinked(later, sooner, to, l, i)
  {
    hide Links, Lookup;
    var a: nat, b: nat :| from <= a < b < to && Links(h[a], i) == 2 && Links(h[b], i) == 2
                          && Lookup(h[b].names, l) == Some(i);
    assert later[a] == h[a] && later[b] == h[b];
  }

  lemma SeenLinkedLonger(h: seq<Disk>, from: nat, to: nat, longer: nat, l: Loc, i: Ino)
    requires SeenLinked(h, from, to, l, i) && to <= longer <= |h|
    ensures SeenLinked(h, from, longer, l, i)
  {
    hide Links, Lookup;
  }

  lemma TracedStill(h: seq<Disk>, later: seq<Disk>, from: nat, sooner: nat, temp: Loc, dest: Loc, i: Ino)
    requires Traced(h, from, temp, dest, i) && h <= later && sooner <= from
    ensures Traced(later, sooner, temp, dest, i)
  {
    hide SeenStaged, SeenLinked, Alone;
    var m: nat, n: nat :| SeenStaged(h, from, m, temp, i) && SeenLinked(h, m, n, dest, i) && Alone(h, n, dest, i);
    SeenStagedStill(h, later, from, sooner, m, temp, i);
    SeenLinkedStill(h, later, m, m, n, dest, i);
    AloneStill(h, later, n, n, dest, i);
  }

  /** The staging name is the inode's only one, and the destination does not exist. */
  method VerifyStaged(fs: FileSystem, parent: Fd, path: Path, stage: StagedArtifact) returns (r: Outcome<()>)
    requires fs.Valid() && Publishing(fs, parent, path, stage)
    modifies fs`disk, fs`history, fs`faults
    ensures fs.Elapsed()
    ensures r.Ok? ==>
      && fs.View().temp == stage.identity && fs.View().dest == None
      && SeenStaged(fs.history, |old(fs.history)|, |fs.history|, fs.claim.value.Temp(), stage.identity.value)
    ensures
      && fs.calm && old(fs.View().dest) == None && old(fs.View().temp) == stage.identity && old(fs.View().links) == 1
      ==> r.Ok?
    ensures fs.calm && old(fs.View().dest).Some? && old(fs.View().temp) == stage.identity && old(fs.View().links) == 1 ==>
      r == Raised(ValidationError)
  {
    hide FileSystem.Valid, ViewOf;
    var retained := fs.Fstat(stage.artifactLease.value);
    if retained.Raised? { return Raised(retained.error); }
    fs.Glimpse();
    if Some(retained.value.ino) != stage.identity || retained.value.nlink != 1 { return Raised(ConfigurationError); }
    fs.Present();
    ghost var a := |fs.history| - 1;
    var staged := EntryMetadata(fs, parent, stage.path.name);
    if staged.Raised? { return Raised(staged.error); }
    if staged.value == None || !staged.value.value.ino.kind.Regular? || staged.value.value.nlink != 1
       || Some(staged.value.value.ino) != stage.identity {
      return Raised(ConfigurationError);
    }
    fs.Present();
    ghost var b := |fs.history| - 1;
    SoleLink(fs.disk, fs.claim.value.Temp(), stage.identity.value);
    assert SoleName(fs.history, b, fs.claim.value.Temp(), stage.identity.value);
    var entry := EntryMetadata(fs, parent, path.name);
    if entry.Raised? { return Raised(entry.error); }
    if entry.value.Some? { return Raised(ValidationError); }
    assert Links(fs.history[a], stage.identity.value) == 1;
    assert SoleName(fs.history, b, fs.claim.value.Temp(), stage.identity.value);
    r := Ok(());
  }

  /** The destination is bound to the staged inode, which has exactly `count` names. */
  method VerifyDestination(fs: FileSystem, parent: Fd, path: Path, stage: StagedArtifact, count: nat)
    returns (r: Outcome<()>, ghost at: nat)
    requires fs.Valid() && Publishing(fs, parent, path, stage)
    modifies fs`disk, fs`history, fs`faults
    ensures fs.Elapsed()
    ensures r.Ok? ==>
      && fs.View().dest == stage.identity
      && |old(fs.history)| <= at < |fs.history|
      && Lookup(fs.history[at].names, fs.claim.value.Dest()) == stage.identity
      && Lookup(fs.history[at].names, fs.claim.value.Temp()) == fs.View().temp
      && Links(fs.history[at], stage.identity.value) == count
    ensures fs.calm && old(fs.View().dest) == stage.identity && old(fs.View().links) == count ==> r.Ok?
  {
    hide FileSystem.Valid, ViewOf;
    at := 0;
    var published := EntryMetadata(fs, parent, path.name);
    if published.Raised? { return Raised(published.error), at; }
    fs.Present();
    fs.Glimpse();
    at := |fs.history| - 1;
    if published.value == None || !published.value.value.ino.kind.Regular?
       || Some(published.value.value.ino) != stage.identity || published.value.value.nlink != count {
      return Raised(ConfigurationError), at;
    }
    r := Ok(());
  }

  /** The leased inode has exactly `count` names. */
  method VerifyLinkCount(fs: FileSystem, stage: StagedArtifact, count: nat) returns (r: Outcome<()>, ghost at: nat)
    requires fs.Valid() && fs.claim.Some? && fs.claim.value.staged.Some?
    requires stage.artifactLease.Some? && stage.artifactLease.value in fs.fds
    requires fs.claim.value.staged == Some(fs.fds[stage.artifactLease.value])
    modifies fs`disk, fs`history, fs`faults
    ensures fs.Elapsed()
    ensures r.Ok? ==>
      |old(fs.history)| <= at < |fs.history| && Links(fs.history[at], fs.claim.value.staged.value) == count
    ensures fs.calm && old(fs.View().links) == count ==> r.Ok?
  {
    hide FileSystem.Valid, ViewOf;
    at := 0;
    var retained := fs.Fstat(stage.artifactLease.value);
    if retained.Raised? { return Raised(retained.error), at; }
    fs.Glimpse();
    fs.Present();
    at := |fs.history| - 1;
    if retained.value.nlink != count { return Raised(ConfigurationError), at; }
    r := Ok(());
  }

  /** Makes the namespace durable and confirms that the path still names it; when it no
      longer does, both names are given up. */
  method CommitNamespace(fs: FileSystem, parent: Fd, path: Path, stage: StagedArtifact)
    returns (r: Outcome<()>, rolledBack: bool, ghost clean: bool)
    requires fs.Valid() && Publishing(fs, parent, path, stage) && stage.parentIdentity == Some(fs.fds[parent])
    requires fs.View().dest == stage.identity
    modifies fs`disk, fs`history, fs`faults, fs`touched, fs`fds
    ensures fs.Valid() && old(fs.history) <= fs.history && fs.claim == old(fs.claim) && fs.faults >= old(fs.faults)
    ensures fs.fds == old(fs.fds)
    ensures fs.touched <= old(fs.touched) + {fs.claim.value.Dest(), fs.claim.value.Temp()}
    ensures Shrunk(old(fs.View()), fs.View())
    ensures !rolledBack ==> Drift(old(fs.View()), fs.View())
    ensures r.Ok? ==>
      && !rolledBack && fs.View().durableDest == fs.View().dest && fs.View().durableTemp == fs.View().temp
      && Reached(fs.history, |old(fs.history)|, |fs.history|, Anchor(fs, path.parent), path.parent.components,
                 |path.parent.components|, fs.claim.value.dir)
    ensures rolledBack && clean ==> fs.View().dest == None
    ensures !clean ==> fs.faults > old(fs.faults)
    ensures fs.calm && old(Named(fs, path.parent)) == stage.parentIdentity ==> r.Ok?
    ensures fs.calm && r.Ok? ==>
      fs.View().links == old(fs.View().links) && Named(fs, path.parent) == old(Named(fs, path.parent))
  {
    hide FileSystem.Valid, ViewOf, Reached, Resolve;
    rolledBack, clean := false, true;
    fs.Glimpse();
    var synced := FsyncOpenDirectory(fs, parent);
    if !synced { return Raised(ConfigurationError), rolledBack, clean; }
    if fs.calm {
      NamedBySameNames(old(fs.disk), fs.disk, Anchor(fs, path.parent), path.parent.components);
      LinksByNames(old(fs.disk), fs.disk, stage.identity.value);
    }
    fs.Glimpse();
    ghost var from := |fs.history|;
    var named := PathHasIdentity(fs, path.parent, stage.parentIdentity);
    if named.Raised? { return Raised(named.error), rolledBack, clean; }
    if !named.value {
      ghost var faults := fs.faults;
      RollbackChangedNamespace(fs, parent, path, stage);
      rolledBack, clean := true, fs.faults == faults;
      return Raised(ConfigurationError), rolledBack, clean;
    }
    ReachedSooner(fs.history, |old(fs.history)|, from, |fs.history|, Anchor(fs, path.parent), path.parent.components,
                  |path.parent.components|, fs.claim.value.dir);
    r := Ok(());
  }

  /** Links the staged inode to the destination, if nothing is there. */
  method BindDestination(fs: FileSystem, parent: Fd, path: Path, stage: StagedArtifact) returns (linked: bool)
    requires fs.Valid() && Publishing(fs, parent, path, stage)
    requires fs.View().temp == stage.identity && fs.View().dest == None
    modifies fs`disk, fs`history, fs`faults, fs`touched, fs`sound
    ensures fs.sound == (old(fs.sound) && (linked ==> Complete(old(fs.View()), fs.claim.value)))
    ensures fs.Valid() && old(fs.history) <= fs.history && fs.claim == old(fs.claim) && fs.faults >= old(fs.faults)
    ensures fs.touched <= old(fs.touched) + {fs.claim.value.Dest()}
    ensures fs.View().durableDest in {None, old(fs.View().durableDest)}
    ensures
      var w := fs.View();
      Drift(old(fs.View()).(dest := w.dest, durableDest := w.durableDest, links := w.links), w)
    ensures fs.View().dest == if linked then stage.identity else None
    ensures fs.calm ==>
      && linked && fs.View().links == old(fs.View().links) + 1
      && Named(fs, path.parent) == old(Named(fs, path.parent))
  {
    hide FileSystem.Valid, ViewOf, Resolve;
    fs.Glimpse();
    var bound, _ := fs.Link(parent, stage.path.name, path.name);
    linked := bound.Ok?;
    if fs.calm {
      fs.Glimpse();
      NamedKept(old(fs.disk), fs.disk, fs.claim.value.Dest(), Anchor(fs, path.parent), path.parent.components);
    }
  }

  /** Unlinks the staging name; a failure to do so is left for the next check to find. */
  method DropStagingName(fs: FileSystem, parent: Fd, path: Path, stage: StagedArtifact)
    requires fs.Valid() && Publishing(fs, parent, path, stage) && fs.View().temp == stage.identity
    modifies fs`disk, fs`history, fs`faults, fs`touched
    ensures fs.Valid() && old(fs.history) <= fs.history && fs.claim == old(fs.claim) && fs.faults >= old(fs.faults)
    ensures fs.touched <= old(fs.touched) + {fs.claim.value.Temp()}
    ensures Shrunk(old(fs.View()), fs.View()) && fs.View().dest == old(fs.View().dest)
    ensures fs.calm ==> Named(fs, path.parent) == old(Named(fs, path.parent))
    ensures fs.Serene() ==>
      fs.View().temp == None && fs.View().links == old(fs.View().links) - 1
  {
    hide FileSystem.Valid, ViewOf, Resolve;
    fs.Glimpse();
    var _, _ := fs.Unlink(parent, stage.path.name);
    fs.Glimpse();
    if fs.Serene() {
      NamedKept(old(fs.disk), fs.disk, fs.claim.value.Temp(), Anchor(fs, path.parent), path.parent.components);
    }
  }

  /** Nobody wrote to the staged inode, and what was saved of it for good stayed so. */
  predicate SameBytes(v: View, w: View) {
    w.node == v.node.(saved := w.node.saved) && (v.node.clean ==> w.node.saved == v.node.saved)
  }

  /** The account of a publication: `sound` is lost exactly when something incomplete was
      linked, which it was if it still is. */
  predicate Reckoned(was: bool, now: bool, complete: bool, linked: bool) {
    (complete ==> now == was) && (now ==> was) && (linked && now ==> complete)
  }

  /** Binds the destination and finds the inode under both of its names. */
  method BindAndVerify(fs: FileSystem, parent: Fd, path: Path, stage: StagedArtifact)
    returns (r: Outcome<()>, linked: bool)
    requires fs.Valid() && Publishing(fs, parent, path, stage)
    requires fs.View().temp == stage.identity && fs.View().dest == None
    modifies fs`disk, fs`history, fs`faults, fs`touched, fs`sound
    ensures fs.sound == (old(fs.sound) && (linked ==> Complete(old(fs.View()), fs.claim.value)))
    ensures fs.Valid() && old(fs.history) <= fs.history && fs.claim == old(fs.claim) && fs.faults >= old(fs.faults)
    ensures fs.touched <= old(fs.touched) + {fs.claim.value.Dest()}
    ensures SameBytes(old(fs.View()), fs.View())
    ensures fs.View().temp == stage.identity && fs.View().dest == if linked then stage.identity else None
    ensures fs.View().durableDest in {None, stage.identity, old(fs.View().durableDest)}
    ensures r.Ok? ==>
      linked && SeenLinked(fs.history, |old(fs.history)|, |fs.history|, fs.claim.value.Dest(), stage.identity.value)
    ensures fs.calm && old(fs.View().links) == 1 ==> r.Ok? && fs.View().links == 2
    ensures fs.calm ==> Named(fs, path.parent) == old(Named(fs, path.parent))
  {
    hide FileSystem.Valid, ViewOf, Resolve, Named;
    linked := BindDestination(fs, parent, path, stage);
    if !linked { return Raised(ConfigurationError), linked; }
    ghost var was := fs.disk;
    ghost var a, b;
    r, a := VerifyLinkCount(fs, stage, 2);
    if r.Raised? {
      if fs.calm { NamedBySameNames(was, fs.disk, Anchor(fs, path.parent), path.parent.components); }
      return;
    }
    r, b := VerifyDestination(fs, parent, path, stage, 2);
    assert r.Ok? ==> Links(fs.history[a], stage.identity.value) == 2 && Links(fs.history[b], stage.identity.value) == 2;
  }

  /** Binds the destination, commits it, and drops the staging name.  `linked` says whether
      the destination is still bound, `clean` that no call of a roll-back failed. */
  method LinkOver(fs: FileSystem, parent: Fd, path: Path, stage: StagedArtifact)
    returns (r: Outcome<()>, linked: bool, ghost clean: bool)
    requires fs.Valid() && Publishing(fs, parent, path, stage) && stage.parentIdentity == Some(fs.fds[parent])
    requires fs.View().temp == stage.identity && fs.View().dest == None
    modifies fs`disk, fs`history, fs`faults, fs`touched, fs`fds, fs`sound
    ensures Reckoned(old(fs.sound), fs.sound, Complete(old(fs.View()), fs.claim.value), fs.View().dest == stage.identity)
    ensures fs.Valid() && old(fs.history) <= fs.history && fs.claim == old(fs.claim) && fs.faults >= old(fs.faults)
    ensures fs.fds == old(fs.fds)
    ensures fs.touched <= old(fs.touched) + {fs.claim.value.Dest(), fs.claim.value.Temp()}
    ensures SameBytes(old(fs.View()), fs.View())
    ensures fs.View().dest in {None, stage.identity} && fs.View().temp in {None, stage.identity}
    ensures fs.View().durableDest in {None, stage.identity, old(fs.View().durableDest)}
    ensures r.Ok? ==>
      && linked && fs.View().dest == stage.identity && (fs.Serene() ==> fs.View().temp == None)
      && SeenLinked(fs.history, |old(fs.history)|, |fs.history|, fs.claim.value.Dest(), stage.identity.value)
    ensures !linked && clean ==> fs.View().dest == None
    ensures !clean ==> fs.faults > old(fs.faults)
    ensures
      && fs.Serene() && old(fs.View().links) == 1 && old(Named(fs, path.parent)) == stage.parentIdentity
      ==> r.Ok? && fs.View().links == 1 && Named(fs, path.parent) == stage.parentIdentity
  {
    hide FileSystem.Valid, ViewOf, Resolve, Named, SeenLinked;
    clean := true;
    r, linked := BindAndVerify(fs, parent, path, stage);
    if r.Raised? { return; }
    ghost var h := fs.history;
    var rolledBack;
    r, rolledBack, clean := CommitNamespace(fs, parent, path, stage);
    linked := !rolledBack;
    if r.Raised? { return; }
    DropStagingName(fs, parent, path, stage);
    SeenLinkedStill(h, fs.history, |old(fs.history)|, |old(fs.history)|, |h|, fs.claim.value.Dest(), stage.identity.value);
    SeenLinkedLonger(fs.history, |old(fs.history)|, |h|, |fs.history|, fs.claim.value.Dest(), stage.identity.value);
  }

  /** The last checks: the destination is the inode's only name, durably so. */
  method SettleDestination(fs: FileSystem, parent: Fd, path: Path, stage: StagedArtifact)
    returns (r: Outcome<()>, rolledBack: bool, ghost clean: bool)
    requires fs.Valid() && Publishing(fs, parent, path, stage) && stage.parentIdentity == Some(fs.fds[parent])
    requires fs.View().dest == stage.identity && fs.View().temp in {None, stage.identity}
    modifies fs`disk, fs`history, fs`faults, fs`touched, fs`fds
    ensures fs.Valid() && old(fs.history) <= fs.history && fs.claim == old(fs.claim) && fs.faults >= old(fs.faults)
    ensures fs.fds == old(fs.fds)
    ensures fs.touched <= old(fs.touched) + {fs.claim.value.Dest(), fs.claim.value.Temp()}
    ensures Shrunk(old(fs.View()), fs.View())
    ensures !rolledBack ==> Drift(old(fs.View()), fs.View())
    ensures rolledBack && clean ==> fs.View().dest == None
    ensures !clean ==> fs.faults > old(fs.faults)
    ensures r.Ok? ==>
      && !rolledBack && fs.View().durableDest == stage.identity
      && fs.View().temp == None && fs.View().durableTemp == None
      && Alone(fs.history, |old(fs.history)|, fs.claim.value.Dest(), stage.identity.value)
      && Reached(fs.history, |old(fs.history)|, |fs.history|, Anchor(fs, path.parent), path.parent.components,
                 |path.parent.components|, fs.claim.value.dir)
    ensures
      && fs.calm && old(fs.View().links) == 1 && old(Named(fs, path.parent)) == stage.parentIdentity
      ==> r.Ok? && fs.View().links == 1 && Named(fs, path.parent) == stage.parentIdentity
  {
    hide FileSystem.Valid, ViewOf, Reached, Named;
    rolledBack, clean := false, true;
    var published, at := VerifyDestination(fs, parent, path, stage, 1);
    if published.Raised? { return published, rolledBack, clean; }
    SoleLink(fs.history[at], fs.claim.value.Dest(), stage.identity.value);
    assert SoleName(fs.history, at, fs.claim.value.Dest(), stage.identity.value);
    SoleLinkExcludes(fs.history[at], fs.claim.value.Dest(), fs.claim.value.Temp(), stage.identity.value);
    ghost var b;
    r, b := VerifyLinkCount(fs, stage, 1);
    if r.Raised? { return; }
    ghost var h := fs.history;
    assert SoleName(h, at, fs.claim.value.Dest(), stage.identity.value) && Links(h[b], stage.identity.value) == 1;
    r, rolledBack, clean := CommitNamespace(fs, parent, path, stage);
    if r.Ok? {
      ReachedSooner(fs.history, |old(fs.history)|, |h|, |fs.history|, Anchor(fs, path.parent), path.parent.components,
                    |path.parent.components|, fs.claim.value.dir);
      AloneStill(h, fs.history, |old(fs.history)|, |old(fs.history)|, fs.claim.value.Dest(), stage.identity.value);
    }
  }

  /** What a successful publication establishes. */
  ghost predicate Published(fs: FileSystem, stage: StagedArtifact, path: Path, from: nat)
    reads fs, stage
  {
    && fs.claim.Some? && fs.claim.value.dest == path.name && stage.identity == fs.claim.value.staged
    && var c, v := fs.claim.value, fs.View();
    && stage.identity.Some?
    && v.dest == c.staged && v.durableDest == c.staged
    && v.temp == None && v.durableTemp == None
    && Traced(fs.history, from, c.Temp(), c.Dest(), c.staged.value)
    && Reached(fs.history, from, |fs.history|, Anchor(fs, path.parent), path.parent.components,
               |path.parent.components|, c.dir)
  }

  /** The `try` block of `publish_staged_artifact`. */
  method PublishHeld(fs: FileSystem, parent: Fd, path: Path, stage: StagedArtifact)
    returns (r: Outcome<()>, linked: bool, ghost clean: bool)
    requires fs.Valid() && Publishing(fs, parent, path, stage)
    modifies fs`disk, fs`history, fs`faults, fs`touched, fs`fds, fs`sound
    ensures SameBytes(old(fs.View()), fs.View())
    ensures Reckoned(old(fs.sound), fs.sound, Complete(old(fs.View()), fs.claim.value),
                     old(fs.View().dest) == None && fs.View().dest == stage.identity)
    ensures fs.Valid() && old(fs.history) <= fs.history && fs.claim == old(fs.claim) && fs.faults >= old(fs.faults)
    ensures fs.fds == old(fs.fds)
    ensures fs.touched <= old(fs.touched) + {fs.claim.value.Dest(), fs.claim.value.Temp()}
    ensures fs.View().temp in {None, old(fs.View().temp)}
    ensures
      || (!linked && r.Raised? && fs.View().dest == old(fs.View().dest))
      || (old(fs.View().dest) == None && fs.View().dest in {None, stage.identity})
    ensures !linked && clean ==> fs.View().dest == old(fs.View().dest)
    ensures !clean ==> fs.faults > old(fs.faults)
    ensures r.Ok? ==> Published(fs, stage, path, |old(fs.history)|)
    ensures
      && fs.Serene() && old(fs.View().dest) == None && old(fs.View().temp) == stage.identity && old(fs.View().links) == 1
      && stage.parentIdentity == Some(fs.fds[parent]) && fs.fds[parent].kind.Directory?
      && old(Named(fs, path.parent)) == stage.parentIdentity
      ==> r.Ok? && fs.View().links == 1 && Named(fs, path.parent) == stage.parentIdentity
  {
    hide FileSystem.Valid, ViewOf, Reached, Named, SeenStaged, SeenLinked, Alone;
    linked, clean := false, true;
    r := ConfirmParent(fs, parent, path, stage);
    if r.Raised? { return; }
    ghost var confirmed := |fs.history|;
    r := VerifyStaged(fs, parent, path, stage);
    if r.Raised? { return; }
    ghost var staged, temp, dest := fs.history, fs.claim.value.Temp(), fs.claim.value.Dest();
    SeenStagedStill(staged, staged, confirmed, |old(fs.history)|, |staged|, temp, stage.identity.value);
    r, linked, clean := LinkOver(fs, parent, path, stage);
    if r.Raised? { return; }
    ghost var h := fs.history;
    var rolledBack;
    r, rolledBack, clean := SettleDestination(fs, parent, path, stage);
    linked := !rolledBack;
    if r.Ok? {
      ReachedSooner(fs.history, |old(fs.history)|, |h|, |fs.history|, Anchor(fs, path.parent), path.parent.components,
                    |path.parent.components|, fs.claim.value.dir);
      SeenStagedStill(staged, fs.history, |old(fs.history)|, |old(fs.history)|, |staged|, temp, stage.identity.value);
      SeenLinkedStill(h, fs.history, |staged|, |staged|, |h|, dest, stage.identity.value);
    }
  }

  lemma PublishedSooner(fs: FileSystem, stage: StagedArtifact, path: Path, from: nat, from': nat)
    requires Published(fs, stage, path, from') && from <= from'
    ensures Published(fs, stage, path, from)
  {
    hide Traced;
    ReachedSooner(fs.history, from, from', |fs.history|, Anchor(fs, path.parent), path.parent.components,
                  |path.parent.components|, fs.claim.value.dir);
    var c := fs.claim.value;
    TracedStill(fs.history, fs.history, from', from, c.Temp(), c.Dest(), c.staged.value);
  }

  lemma PublishedBinds(fs: FileSystem, stage: StagedArtifact, path: Path, from: nat)
    requires Published(fs, stage, path, from)
    ensures fs.claim.Some? && fs.View().dest == stage.identity
  {
  }

  method PublishFrom(fs: FileSystem, parent: Fd, path: Path, stage: StagedArtifact) returns (r: Outcome<()>, ghost clean: bool)
    requires fs.Valid() && Publishing(fs, parent, path, stage)
    modifies fs`disk, fs`history, fs`faults, fs`touched, fs`fds, fs`sound
    ensures SameBytes(old(fs.View()), fs.View())
    ensures Reckoned(old(fs.sound), fs.sound, Complete(old(fs.View()), fs.claim.value),
                     old(fs.View().dest) == None && fs.View().dest == stage.identity)
    ensures fs.Valid() && old(fs.history) <= fs.history && fs.fds == old(fs.fds) && fs.claim == old(fs.claim)
    ensures fs.faults >= old(fs.faults)
    ensures fs.touched <= old(fs.touched) + {fs.claim.value.Dest(), fs.claim.value.Temp()}
    ensures !clean ==> fs.faults > old(fs.faults)
    ensures fs.View().temp in {None, old(fs.View().temp)}
    ensures old(fs.View().dest).Some? ==> r.Raised? && fs.View().dest == old(fs.View().dest)
    ensures r.Raised? && clean ==> fs.View().dest == old(fs.View().dest)
    ensures r.Raised? ==> fs.View().dest in {old(fs.View().dest), stage.identity}
    ensures r.Ok? ==> Published(fs, stage, path, |old(fs.history)|)
    ensures
      && fs.Serene() && old(fs.View().dest) == None && old(fs.View().temp) == stage.identity && old(fs.View().links) == 1
      && stage.parentIdentity == Some(fs.fds[parent]) && fs.fds[parent].kind.Directory?
      && old(Named(fs, path.parent)) == stage.parentIdentity
      ==> r.Ok? && fs.View().links == 1 && Named(fs, path.parent) == stage.parentIdentity
  {
    hide FileSystem.Valid, ViewOf, Reached, Named, LinkSet, Links;
    var linked;
    r, linked, clean := PublishHeld(fs, parent, path, stage);
    if r.Raised? && linked {
      ghost var faults := fs.faults;
      var _, _ := RemoveOwnedEntryAt(fs, parent, path.name, stage.identity);
      clean := fs.faults == faults;
    }
  }

  /** Publication through the leases, with its `except` and `finally` blocks; `clean` says
      that no call of a roll-back failed. */
  method PublishLeased(fs: FileSystem, path: Path, stage: StagedArtifact) returns (r: Outcome<()>, ghost clean: bool)
    requires fs.Valid() && Holds(fs, stage)
    requires fs.claim.value.dest == path.name != stage.path.name
    modifies fs`disk, fs`history, fs`faults, fs`touched, fs`fds, fs`sound
    ensures SameBytes(old(fs.View()), fs.View())
    ensures Reckoned(old(fs.sound), fs.sound, Complete(old(fs.View()), fs.claim.value),
                     old(fs.View().dest) == None && fs.View().dest == stage.identity)
    ensures fs.Valid() && old(fs.history) <= fs.history && fs.fds == old(fs.fds) && fs.claim == old(fs.claim)
    ensures fs.touched <= old(fs.touched) + {fs.claim.value.Dest(), fs.claim.value.Temp()}
    ensures !clean ==> fs.faults > old(fs.faults)
    ensures fs.View().temp in {None, old(fs.View().temp)}
    ensures old(fs.View().dest).Some? ==> r.Raised? && fs.View().dest == old(fs.View().dest)
    ensures r.Raised? && clean ==> fs.View().dest == old(fs.View().dest)
    ensures r.Raised? ==> fs.View().dest in {old(fs.View().dest), stage.identity}
    ensures r.Ok? ==> Published(fs, stage, path, |old(fs.history)|)
    ensures
      && fs.Serene() && old(fs.View().dest) == None && old(fs.View().temp) == stage.identity && old(fs.View().links) == 1
      && fs.claim.value.dir.kind.Directory? && old(Named(fs, path.parent)) == Some(fs.claim.value.dir)
      ==> r.Ok? && fs.View().links == 1 && Named(fs, path.parent) == stage.parentIdentity
  {
    hide FileSystem.Valid, ViewOf, Reached, Named, LinkSet;
    clean := true;
    var parent := fs.Dup(stage.parentLease.value);
    if parent.Raised? { return Raised(ConfigurationError), clean; }
    ghost var from := |fs.history|;
    r, clean := PublishFrom(fs, parent.value, path, stage);
    fs.Close(parent.value);
    if r.Ok? { PublishedSooner(fs, stage, path, |old(fs.history)|, from); }
  }

  /** Claims the destination about to be published, unless staging already did. */
  method ClaimDestination(fs: FileSystem, path: Path, stage: StagedArtifact)
    requires fs.Valid() && Holds(fs, stage) && stage.path.name != path.name
    modifies fs`claim, fs`since, fs`sound
    ensures fs.Valid() && Holds(fs, stage) && fs.View().node == old(fs.View().node)
    ensures fs.claim.value.dest == path.name
    ensures fs.claim.value == old(fs.claim.value).(dest := path.name, before := fs.claim.value.before)
    ensures fs.View().dest == Lookup(fs.disk.names, fs.claim.value.Dest())
    ensures fs.View().temp == old(fs.View().temp) && fs.View().links == old(fs.View().links)
    ensures old(fs.claim.value.dest) == path.name ==>
      fs.claim == old(fs.claim) && fs.since == old(fs.since) && fs.sound == old(fs.sound)
    ensures old(fs.claim.value.dest) != path.name ==> fs.sound
  {
    fs.ClaimedApart();
    var c := fs.claim.value;
    if c.dest != path.name {
      fs.Reserve(c.dir, path.name, c.temp, c.content, c.staged);
    }
  }

  /** `publish_staged_artifact`.  A stage that holds its inode must have been staged to the
      end. */
  method PublishStagedArtifact(fs: FileSystem, path: Path, stage: StagedArtifact)
    returns (r: Outcome<()>, ghost clean: bool)
    requires fs.Valid() && stage.Leased(fs)
    requires stage.identity.Some? && stage.parentLease.Some? && stage.artifactLease.Some? ==>
      Holds(fs, stage)
    modifies fs
    ensures fs.Valid() && old(fs.history) <= fs.history && fs.fds == old(fs.fds)
    ensures fs.calm == old(fs.calm) && fs.stuck == old(fs.stuck) && fs.lossy == old(fs.lossy)
    ensures !clean ==> fs.faults > old(fs.faults)
    ensures old(Holds(fs, stage)) ==>
      && Holds(fs, stage)
      && fs.claim.value == old(fs.claim.value).(dest := fs.claim.value.dest, before := fs.claim.value.before)
      && (path.name == old(fs.claim.value.dest) ==> fs.claim == old(fs.claim) && fs.since == old(fs.since))
      && SameBytes(old(fs.View()), fs.View())
      && Reckoned(if fs.claim == old(fs.claim) then old(fs.sound) else true, fs.sound,
                  Complete(old(fs.View()), old(fs.claim.value)), r.Ok?)
    ensures r.Ok? ==> Published(fs, stage, path, |old(fs.history)|)
    ensures
      if fs.claim.Some? && fs.claim.value.dest == path.name && Holds(fs, stage) then
        var before := Lookup(old(fs.disk).names, fs.claim.value.Dest());
        && fs.touched <= old(fs.touched) + {fs.claim.value.Dest(), fs.claim.value.Temp()}
        && (before.Some? ==> r.Raised? && fs.View().dest == before)
        && (r.Raised? && clean ==> fs.View().dest == before)
        && (r.Raised? ==> fs.View().dest in {before, stage.identity})
      else
        r.Raised? && fs.disk == old(fs.disk) && fs.touched == old(fs.touched)
    ensures
      && fs.Serene() && old(Holds(fs, stage)) && stage.path.parent == path.parent && stage.path.name != path.name
      && ValidEntryName(path.name) && ValidEntryName(stage.path.name)
      && old(fs.View().temp) == stage.identity && old(fs.View().links) == 1
      && Loc(old(fs.claim.value.dir), path.name) !in old(fs.disk.names)
      && old(fs.claim.value.dir.kind.Directory?) && old(Named(fs, path.parent)) == stage.parentIdentity
      ==> r.Ok? && fs.View().links == 1 && Named(fs, path.parent) == stage.parentIdentity
    ensures stage.path.parent != path.parent || stage.path == path || stage.identity == None ==>
      r == Raised(ConfigurationError) && fs.disk == old(fs.disk)
    ensures
      && old(Holds(fs, stage)) && stage.path.parent == path.parent && stage.path != path
      && (!ValidEntryName(path.name) || !ValidEntryName(stage.path.name))
      ==> r == Raised(ValidationError) && fs.disk == old(fs.disk)
  {
    hide FileSystem.Valid, ViewOf, Reached, Named, Published;
    clean := true;
    if fs.claim.Some? { fs.Glimpse(); }
    if stage.path.parent != path.parent || stage.path == path { return Raised(ConfigurationError), clean; }
    if stage.identity == None || stage.parentIdentity == None { return Raised(ConfigurationError), clean; }
    if !ValidEntryName(path.name) || !ValidEntryName(stage.path.name) { return Raised(ValidationError), clean; }
    if stage.parentLease == None || stage.artifactLease == None { return Raised(ConfigurationError), clean; }
    ClaimDestination(fs, path, stage);
    ghost var from := |fs.history|;
    r, clean := PublishLeased(fs, path, stage);
    if r.Ok? { PublishedBinds(fs, stage, path, from); }
  }

  datatype ArtifactState = Absent | Matches | Unverifiable

  /** What the caller knows about the artifact it asks about. */
  datatype Expectation = Expectation(bytes: seq<Byte>, identity: Option<Ino>, parent: Option<Ino>)

  /** Inode `i` was found under `l` at crash point `a`; at `b` it was private, of the expected
      size and with a single name; at `c` it held exactly the expected bytes. */
  ghost predicate FoundAt(h: seq<Disk>, l: Loc, bytes: seq<Byte>, i: Ino, a: nat, b: nat, c: nat) {
    && a <= b <= c < |h|
    && Lookup(h[a].names, l) == Some(i) && i.kind.Regular?
    && Links(h[b], i) == 1 && |Node(h[b], i).bytes| == |bytes| && Node(h[b], i).confined
    && Node(h[c], i).bytes == bytes
  }

  /** `i` was found under `l` with the expected content some time after `from`. */
  ghost predicate Found(h: seq<Disk>, from: nat, l: Loc, bytes: seq<Byte>, i: Ino) {
    exists a: nat, b: nat, c: nat :: from <= a && FoundAt(h, l, bytes, i, a, b, c)
  }

  /** Some time after `from`, the entry at `l` did not exist. */
  ghost predicate Missed(h: seq<Disk>, from: nat, l: Loc) {
    exists a: nat :: from <= a < |h| && l !in h[a].names
  }

  /** The entry is a private regular file of the expected content and no other name. */
  predicate Exact(d: Disk, l: Loc, bytes: seq<Byte>, identity: Option<Ino>) {
    && l in d.names && d.names[l].kind.Regular? && identity in {None, Some(d.names[l])}
    && Links(d, d.names[l]) == 1 && Node(d, d.names[l]).confined && Node(d, d.names[l]).bytes == bytes
  }

  /** What a state says of the destination when that is the entry classified: this stays
      true while the claim lasts. */
  ghost predicate Settled(fs: FileSystem, l: Loc, bytes: seq<Byte>, state: ArtifactState)
    reads fs
  {
    fs.claim.Some? && fs.claim.value.Dest() == l ==>
      && (state == Absent ==> fs.View().dest == None)
      && (state == Matches ==>
            fs.View().dest.Some? && (fs.View().dest == fs.claim.value.staged ==> fs.View().node.bytes == bytes))
  }

  /** The status of an open file, and its first `count` bytes. */
  method Examine(fs: FileSystem, handle: Fd, count: nat) returns (r: Outcome<(Meta, seq<Byte>)>, ghost at: nat)
    requires fs.Valid() && handle in fs.fds
    modifies fs`disk, fs`history, fs`faults
    ensures fs.Elapsed() && (r.Raised? ==> r.error == OSFault && !fs.calm)
    ensures r.Ok? ==>
      && |old(fs.history)| <= at < |fs.history| && r.value.0 == MetaOf(fs.history[at], fs.fds[handle])
      && var bytes := Node(fs.disk, fs.fds[handle]).bytes;
      r.value.1 == bytes[..if count <= |bytes| then count else |bytes|]
    ensures r.Ok? && fs.calm ==> r.value.0 == MetaOf(fs.disk, fs.fds[handle])
  {
    hide FileSystem.Valid, ViewOf;
    at := 0;
    var metadata := fs.Fstat(handle);
    if metadata.Raised? { return Raised(metadata.error), at; }
    fs.Present();
    at := |fs.history| - 1;
    var observed := fs.Read(handle, count);
    if observed.Raised? { return Raised(observed.error), at; }
    r := Ok((metadata.value, observed.value));
  }

  /** Opens the entry, inspects it and reads one byte more than expected. */
  method InspectFile(fs: FileSystem, parent: Fd, name: Name, entry: Meta, bytes: seq<Byte>)
    returns (r: Outcome<Option<Ino>>)
    requires fs.Valid() && parent in fs.fds && entry.ino.kind.Regular?
    modifies fs`disk, fs`history, fs`faults, fs`fds
    ensures fs.Elapsed() && fs.fds == old(fs.fds)
    ensures r.Raised? ==> r.error in {OSFault, FileNotFound}
    ensures r.Ok? && r.value.Some? ==>
      && r.value == Some(entry.ino) && Found(fs.history, |old(fs.history)|, Loc(fs.fds[parent], name), bytes, entry.ino)
      && (fs.claim.Some? && fs.claim.value.staged == Some(entry.ino) ==> fs.View().node.bytes == bytes)
    ensures fs.calm && old(fs.Entry(parent, name)) == Some(entry.ino) ==>
      r == Ok(if Exact(fs.disk, Loc(fs.fds[parent], name), bytes, None) then Some(entry.ino) else None)
  {
    hide FileSystem.Valid, ViewOf, LinkSet;
    ghost var from, l := |fs.history|, Loc(fs.fds[parent], name);
    var handle := fs.OpenFile(parent, name);
    if handle.Raised? { return Raised(handle.error); }
    fs.Present();
    ghost var a := |fs.history| - 1;
    ghost var i := fs.fds[handle.value];
    var seen, b := Examine(fs, handle.value, |bytes| + 1);
    ghost var c := |fs.history| - 1;
    fs.Present();
    if fs.claim.Some? { fs.Glimpse(); }
    fs.Close(handle.value);
    if seen.Raised? { return Raised(seen.error); }
    var (metadata, observed) := seen.value;
    if metadata.ino != entry.ino || metadata.size != |bytes| || metadata.nlink != 1 || observed != bytes
       || !metadata.confined {
      return Ok(None);
    }
    assert FoundAt(fs.history, l, bytes, i, a, b, c);
    r := Ok(Some(entry.ino));
  }

  /** What the entry at `l` amounts to on one undisturbed disk. */
  function EntryVerdict(d: Disk, l: Loc, expected: Expectation, leased: Option<Ino>): ArtifactState {
    if l !in d.names then Absent
    else if Exact(d, l, expected.bytes, expected.identity) && leased in {None, Some(d.names[l])} then Matches
    else Unverifiable
  }

  /** The classification of one undisturbed disk, for a parent held as `held` or else named
      by the path, and an inode leased as `leased`. */
  function Verdict(fs: FileSystem, path: Path, expected: Expectation, held: Option<Ino>, leased: Option<Ino>): ArtifactState
    reads fs`disk
  {
    var named := Named(fs, path.parent);
    var parent := if held.Some? then held else named;
    if parent == None || expected.parent !in {None, parent} || named != parent then Unverifiable
    else EntryVerdict(fs.disk, Loc(parent.value, path.name), expected, leased)
  }

  /** What was seen of the entry at `l` before it was called `state`. */
  ghost predicate Witnessed(
    h: seq<Disk>, from: nat, l: Loc, expected: Expectation, leased: Option<Ino>, state: ArtifactState)
  {
    match state
    case Absent => Missed(h, from, l)
    case Matches =>
      exists i :: Found(h, from, l, expected.bytes, i) && expected.identity in {None, Some(i)} && leased in {None, Some(i)}
    case Unverifiable => true
  }

  lemma WitnessedLater(
    h: seq<Disk>, h': seq<Disk>, from: nat, from': nat, l: Loc, expected: Expectation, leased: Option<Ino>,
    state: ArtifactState)
    requires Witnessed(h, from, l, expected, leased, state) && h <= h' && from' <= from
    ensures Witnessed(h', from', l, expected, leased, state)
  {
    if state == Matches {
      var i :| Found(h, from, l, expected.bytes, i) && expected.identity in {None, Some(i)} && leased in {None, Some(i)};
      var a: nat, b: nat, c: nat :| from <= a && FoundAt(h, l, expected.bytes, i, a, b, c);
      assert FoundAt(h', l, expected.bytes, i, a, b, c);
      assert Found(h', from', l, expected.bytes, i);
    } else if state == Absent {
      var a: nat :| from <= a < |h| && l !in h[a].names;
      assert l !in h'[a].names;
    }
  }

  function Target(fs: FileSystem, lease: Option<Fd>): Option<Ino>
    reads fs`fds
  {
    if lease.Some? then Lookup(fs.fds, lease.value) else None
  }

  /** The retained inode, when there is one, is the inspected one and has a single name. */
  method ConfirmLease(fs: FileSystem, lease: Option<Fd>, ino: Ino) returns (r: Outcome<bool>)
    requires fs.Valid() && (lease.Some? ==> lease.value in fs.fds)
    modifies fs`disk, fs`history, fs`faults
    ensures fs.Elapsed()
    ensures r.Raised? ==> r.error == OSFault && !fs.calm
    ensures r == Ok(true) ==> Target(fs, lease) in {None, Some(ino)}
    ensures fs.calm ==> r == Ok(lease.Some? ==> fs.fds[lease.value] == ino && Links(fs.disk, ino) == 1)
  {
    if lease == None { return Ok(true); }
    var retained := fs.Fstat(lease.value);
    if retained.Raised? { return Raised(retained.error); }
    r := Ok(retained.value.ino == ino && retained.value.nlink == 1);
  }

  /** The inspection of the entry itself. */
  method InspectEntry(fs: FileSystem, parent: Fd, name: Name, expected: Expectation, lease: Option<Fd>)
    returns (r: Outcome<ArtifactState>)
    requires fs.Valid() && parent in fs.fds && (lease.Some? ==> lease.value in fs.fds)
    modifies fs`disk, fs`history, fs`faults, fs`fds
    ensures fs.Elapsed() && fs.fds == old(fs.fds)
    ensures r.Raised? ==> r.error in {OSFault, FileNotFound}
    ensures r.Ok? ==>
      && Witnessed(fs.history, |old(fs.history)|, Loc(fs.fds[parent], name), expected, Target(fs, lease), r.value)
      && Settled(fs, Loc(fs.fds[parent], name), expected.bytes, r.value)
    ensures fs.calm ==> r == Ok(EntryVerdict(fs.disk, Loc(fs.fds[parent], name), expected, Target(fs, lease)))
  {
    hide FileSystem.Valid, ViewOf, Found, Links, LinkSet, Node;
    ghost var from, l := |fs.history|, Loc(fs.fds[parent], name);
    var entry := EntryMetadata(fs, parent, name);
    if entry.Raised? { return Ok(Unverifiable); }
    fs.Present();
    if entry.value == None {
      assert l !in fs.history[|fs.history| - 1].names;
      return Ok(Absent);
    }
    if !entry.value.value.ino.kind.Regular? { return Ok(Unverifiable); }
    ghost var later := |fs.history|;
    var inspected := InspectFile(fs, parent, name, entry.value.value, expected.bytes);
    if inspected.Raised? { return Raised(inspected.error); }
    if inspected.value == None || expected.identity !in {None, inspected.value} { return Ok(Unverifiable); }
    ghost var h := fs.history;
    var confirmed := ConfirmLease(fs, lease, entry.value.value.ino);
    if confirmed.Raised? { return Raised(confirmed.error); }
    if !confirmed.value { return Ok(Unverifiable); }
    WitnessedLater(h, fs.history, later, from, l, expected, Target(fs, lease), Matches);
    r := Ok(Matches);
  }

  /** What a classification rests on: what was seen of the entry, and a parent that the path
      named. */
  ghost predicate Classified(
    fs: FileSystem, from: nat, path: Path, expected: Expectation, dir: Ino, leased: Option<Ino>, state: ArtifactState)
    reads fs`history
  {
    && expected.parent in {None, Some(dir)}
    && Witnessed(fs.history, from, Loc(dir, path.name), expected, leased, state)
    && Reached(fs.history, from, |fs.history|, Anchor(fs, path.parent), path.parent.components,
               |path.parent.components|, dir)
  }

  /** The `try` block of `published_artifact_state`. */
  method ClassifyHeld(fs: FileSystem, parent: Fd, path: Path, expected: Expectation, lease: Option<Fd>)
    returns (r: Outcome<ArtifactState>)
    requires fs.Valid() && parent in fs.fds && (lease.Some? ==> lease.value in fs.fds)
    modifies fs`disk, fs`history, fs`faults, fs`touched, fs`fds
    ensures fs.Elapsed() && fs.fds == old(fs.fds) && fs.touched == old(fs.touched)
    ensures r.Raised? ==>
      r.error in {OSFault, FileNotFound} || (r.error == ConfigurationError && !fs.fds[parent].kind.Directory?)
    ensures r.Ok? && r.value != Unverifiable ==>
      && Classified(fs, |old(fs.history)|, path, expected, fs.fds[parent], Target(fs, lease), r.value)
      && Settled(fs, Loc(fs.fds[parent], path.name), expected.bytes, r.value)
    ensures fs.calm && fs.fds[parent].kind.Directory? ==>
      r == Ok(Verdict(fs, path, expected, Some(fs.fds[parent]), Target(fs, lease)))
  {
    hide FileSystem.Valid, ViewOf, Reached, Witnessed, Named, EntryVerdict;
    ghost var from, l := |fs.history|, Loc(fs.fds[parent], path.name);
    var identity := DescriptorIdentity(fs, parent);
    if identity.Raised? { return Raised(identity.error); }
    if expected.parent.Some? && expected.parent != Some(identity.value) { return Ok(Unverifiable); }
    ghost var later := |fs.history|;
    r := InspectEntry(fs, parent, path.name, expected, lease);
    if r.Raised? || r.value == Unverifiable { return; }
    ghost var h := fs.history;
    var named := PathHasIdentity(fs, path.parent, Some(identity.value));
    if named.Raised? { return Raised(named.error); }
    if !named.value { return Ok(Unverifiable); }
    ReachedSooner(fs.history, from, |h|, |fs.history|, Anchor(fs, path.parent), path.parent.components,
                  |path.parent.components|, identity.value);
    WitnessedLater(h, fs.history, later, from, l, expected, Target(fs, lease), r.value);
  }

  function ParentLease(stage: StagedArtifact?): Option<Fd>
    reads stage
  {
    if stage == null then None else stage.parentLease
  }

  function ArtifactLease(stage: StagedArtifact?): Option<Fd>
    reads stage
  {
    if stage == null then None else stage.artifactLease
  }

  /** Opens the directory to work in: the leased one, or else the one the path names. */
  method OpenParent(fs: FileSystem, path: Path, lease: Option<Fd>) returns (r: Outcome<Fd>)
    requires fs.Valid() && (lease.Some? ==> lease.value in fs.fds)
    modifies fs`disk, fs`history, fs`faults, fs`touched, fs`fds
    ensures fs.Elapsed() && fs.touched == old(fs.touched)
    ensures r.Raised? ==> fs.fds == old(fs.fds)
    ensures r == Raised(FileNotFound) ==>
      lease == None && Lost(fs.history, |old(fs.history)|, Anchor(fs, path.parent), path.parent.components)
    ensures r.Ok? ==>
      && r.value !in old(fs.fds) && r.value in fs.fds && fs.fds == old(fs.fds)[r.value := fs.fds[r.value]]
      && (if lease.Some? then fs.fds[r.value] == old(fs.fds)[lease.value] else fs.fds[r.value].kind.Directory?)
    ensures fs.calm ==>
      var named := old(Named(fs, path.parent));
      && (r.Ok? <==> lease.Some? || named.Some?)
      && (r.Ok? && lease == None ==> Some(fs.fds[r.value]) == named)
      && (r == Raised(FileNotFound) <==>
            lease == None && Missing(old(fs.disk), Anchor(fs, path.parent), path.parent.components))
  {
    hide FileSystem.Valid, ViewOf, Reached, Missing, Resolve, Lost;
    if lease.Some? {
      r := fs.Dup(lease.value);
    } else {
      r := OpenArtifactDirectory(fs, path.parent, false);
    }
  }

  /** `published_artifact_state` */
  method PublishedArtifactState(fs: FileSystem, path: Path, expected: Expectation, stage: StagedArtifact?)
    returns (r: Outcome<ArtifactState>, ghost dir: Ino)
    requires fs.Valid() && (stage != null ==> stage.Leased(fs))
    modifies fs`disk, fs`history, fs`faults, fs`touched, fs`fds
    ensures fs.Elapsed() && fs.fds == old(fs.fds) && fs.touched == old(fs.touched)
    ensures r.Raised? ==>
      r.error == ConfigurationError && ParentLease(stage).Some? && !fs.fds[ParentLease(stage).value].kind.Directory?
    ensures r.Ok? && r.value != Unverifiable ==>
      || (ParentLease(stage) == None && r.value == Absent
          && Lost(fs.history, |old(fs.history)|, Anchor(fs, path.parent), path.parent.components))
      || (Classified(fs, |old(fs.history)|, path, expected, dir, Target(fs, ArtifactLease(stage)), r.value)
          && Settled(fs, Loc(dir, path.name), expected.bytes, r.value)
          && Target(fs, ParentLease(stage)) in {None, Some(dir)})
    ensures
      && fs.calm && (ParentLease(stage).Some? ==>
           stage.path.parent == path.parent && fs.fds[ParentLease(stage).value].kind.Directory?)
      ==> r == Ok(
        if ParentLease(stage) == None && Missing(fs.disk, Anchor(fs, path.parent), path.parent.components) then Absent
        else Verdict(fs, path, expected, Target(fs, ParentLease(stage)), Target(fs, ArtifactLease(stage))))
    ensures ParentLease(stage).Some? && stage.path.parent != path.parent ==>
      r == Ok(Unverifiable) && fs.disk == old(fs.disk)
  {
    hide FileSystem.Valid, ViewOf, Reached, Witnessed, Named, EntryVerdict, Missing, Lost;
    dir := fs.root;
    var lease := ParentLease(stage);
    if lease.Some? && stage.path.parent != path.parent { return Ok(Unverifiable), dir; }
    var parent := OpenParent(fs, path, lease);
    if parent.Raised? {
      return Ok(if lease == None && parent.error == FileNotFound then Absent else Unverifiable), dir;
    }
    dir := fs.fds[parent.value];
    ghost var h := fs.history;
    r := ClassifyHeld(fs, parent.value, path, expected, ArtifactLease(stage));
    fs.Close(parent.value);
    if r.Raised? && r.error in {OSFault, FileNotFound} { r := Ok(Unverifiable); }
    if r.Ok? && r.value != Unverifiable {
      WitnessedLater(fs.history, fs.history, |h|, |old(fs.history)|, Loc(dir, path.name), expected,
                     Target(fs, ArtifactLease(stage)), r.value);
      ReachedSooner(fs.history, |old(fs.history)|, |h|, |fs.history|, Anchor(fs, path.parent), path.parent.components,
                    |path.parent.components|, dir);
    }
  }

  /** The leases through which an anchored removal of `path` works. */
  ghost predicate Tracking(fs: FileSystem, parent: Fd, path: Path, stage: StagedArtifact)
    reads fs, stage
  {
    && Holds(fs, stage) && parent in fs.fds && fs.fds[parent] == fs.claim.value.dir
    && (path.name != stage.path.name ==> fs.claim.value.dest == path.name)
  }

  /** How many of the tracked names are bound to `identity`: the staging name, and the one
      being removed when that is another. */
  function Tracked(v: View, alone: bool, identity: Option<Ino>): nat {
    if identity == None then 0
    else (if !alone && v.dest == identity then 1 else 0) + if v.temp == identity then 1 else 0
  }

  /** The binding of the name being removed. */
  function Removing(v: View, alone: bool): Option<Ino> {
    if alone then v.temp else v.dest
  }

  /** Counts the tracked names that are bound to `identity`. */
  method TrackedLinks(fs: FileSystem, parent: Fd, path: Path, stage: StagedArtifact, identity: Option<Ino>)
    returns (r: Outcome<nat>)
    requires fs.Valid() && Tracking(fs, parent, path, stage)
    modifies fs`disk, fs`history, fs`faults
    ensures fs.Elapsed()
    ensures r.Raised? ==> r.error == ConfigurationError && !fs.calm
    ensures r.Ok? ==> r.value == Tracked(fs.View(), path.name == stage.path.name, identity)
  {
    hide FileSystem.Valid, ViewOf;
    var known := 0;
    var candidate := EntryMetadata(fs, parent, path.name);
    if candidate.Raised? { return Raised(candidate.error); }
    if candidate.value.Some? && identity == Some(candidate.value.value.ino) { known := known + 1; }
    if path.name != stage.path.name {
      candidate := EntryMetadata(fs, parent, stage.path.name);
      if candidate.Raised? { return Raised(candidate.error); }
      if candidate.value.Some? && identity == Some(candidate.value.value.ino) { known := known + 1; }
    }
    r := Ok(known);
  }

  /** Before the removal: whether the inode has names nobody tracks. */
  method UnexpectedLinks(fs: FileSystem, parent: Fd, path: Path, stage: StagedArtifact, identity: Option<Ino>)
    returns (r: Outcome<bool>)
    requires fs.Valid() && Tracking(fs, parent, path, stage)
    modifies fs`disk, fs`history, fs`faults
    ensures fs.Elapsed()
    ensures r.Raised? ==> r.error == ConfigurationError && !fs.calm
    ensures fs.calm && identity == stage.identity ==>
      var v, alone := old(fs.View()), path.name == stage.path.name;
      r == Ok(Removing(v, alone) == identity && v.links > Tracked(v, alone, identity))
  {
    hide FileSystem.Valid, ViewOf;
    var metadata := EntryMetadata(fs, parent, path.name);
    if metadata.Raised? { return Raised(metadata.error); }
    if metadata.value == None || identity != Some(metadata.value.value.ino) { return Ok(false); }
    var known := 1;
    if path.name != stage.path.name {
      var staged := EntryMetadata(fs, parent, stage.path.name);
      if staged.Raised? { return Raised(staged.error); }
      if staged.value.Some? && identity == Some(staged.value.value.ino) { known := known + 1; }
    }
    r := Ok(metadata.value.value.nlink > known);
  }

  /** After the removal: the leased inode has no more names than are tracked. */
  method RetainedMatches(fs: FileSystem, parent: Fd, path: Path, stage: StagedArtifact, identity: Option<Ino>)
    returns (r: Outcome<bool>)
    requires fs.Valid() && Tracking(fs, parent, path, stage)
    modifies fs`disk, fs`history, fs`faults
    ensures fs.Elapsed()
    ensures r.Raised? ==> r.error in {ConfigurationError, OSFault} && !fs.calm
    ensures r == Ok(true) ==>
      identity == stage.identity && fs.View().links == Tracked(fs.View(), path.name == stage.path.name, identity)
    ensures fs.calm && identity == stage.identity ==>
      r == Ok(fs.View().links == Tracked(fs.View(), path.name == stage.path.name, identity))
  {
    hide FileSystem.Valid, ViewOf;
    var known := TrackedLinks(fs, parent, path, stage, identity);
    if known.Raised? { return Raised(known.error); }
    var retained := fs.Fstat(stage.artifactLease.value);
    if retained.Raised? { return Raised(retained.error); }
    fs.Glimpse();
    r := Ok(identity == Some(retained.value.ino) && retained.value.nlink == known.value);
  }

  /** What an anchored removal that reports success has proved: the name is gone, durably
      so, and every name the inode had at that moment is a tracked one. */
  ghost predicate Accounted(fs: FileSystem, from: nat, path: Path, stage: StagedArtifact)
    requires Holds(fs, stage)
    reads fs, stage
  {
    var c, v := fs.claim.value, fs.View();
    if path.name == stage.path.name then v.temp == None && v.durableTemp == None && v.links == 0
    else
      && v.dest == None && v.durableDest == None
      && (v.temp != stage.identity ==> v.links == 0)
      && (v.temp == stage.identity ==>
            exists k :: from <= k && SoleName(fs.history, k, c.Temp(), stage.identity.value))
  }

  /** On an undisturbed disk, removing an owned entry costs the inode that one name. */
  lemma RemovalCounted(a: Disk, b: Disk, c: Claim, l: Loc, expected: Option<Ino>)
    requires c.staged.Some? && c.dest != c.temp && l in {c.Dest(), c.Temp()} && expected == c.staged
    requires
      b.names == if Owned(Lookup(a.names, l), expected) then Unlinked(a, l).names else a.names
    ensures
      ViewOf(b, c).links == ViewOf(a, c).links - if Owned(Lookup(a.names, l), expected) then 1 else 0
    ensures Owned(Lookup(a.names, l), expected) ==> Lookup(b.names, l) == None
    ensures forall k | k != l :: Lookup(b.names, k) == Lookup(a.names, k)
  {
    var ino := c.staged.value;
    if Owned(Lookup(a.names, l), expected) {
      UnlinkedLinks(a, l, ino);
      LinksByNames(Unlinked(a, l), b, ino);
    } else {
      LinksByNames(a, b, ino);
    }
  }

  /** Nor does it move any path. */
  lemma RemovalKeepsPaths(a: Disk, b: Disk, l: Loc, expected: Option<Ino>, dir: Ino, components: seq<Name>)
    requires
      b.names == if Owned(Lookup(a.names, l), expected) then Unlinked(a, l).names else a.names
    ensures Resolve(b, dir, components, |components|) == Resolve(a, dir, components, |components|)
  {
    hide Resolve;
    if Owned(Lookup(a.names, l), expected) {
      NamedKept(a, b, l, dir, components);
    } else {
      NamedBySameNames(a, b, dir, components);
    }
  }

  /** The names that removing an owned entry leaves: all but its own. */
  function NamesWithout(d: Disk, l: Loc, expected: Option<Ino>): map<Loc, Ino> {
    if Owned(Lookup(d.names, l), expected) then Unlinked(d, l).names else d.names
  }

  /** Removes the name; with nothing in the way, at the cost of that one link. */
  method RemoveCounted(fs: FileSystem, parent: Fd, path: Path, stage: StagedArtifact, identity: Option<Ino>)
    returns (removed: bool)
    requires fs.Valid() && Tracking(fs, parent, path, stage)
    modifies fs`disk, fs`history, fs`faults, fs`touched
    ensures fs.Valid() && old(fs.history) <= fs.history && fs.claim == old(fs.claim)
    ensures fs.touched <= old(fs.touched) + {Loc(fs.fds[parent], path.name)}
    ensures Shrunk(old(fs.View()), fs.View())
    ensures removed ==> |old(fs.history)| < |fs.history|
    ensures removed ==>
      var w := fs.View();
      if path.name == stage.path.name then w.temp == None && w.durableTemp == None
      else w.dest == None && w.durableDest == None
    ensures fs.Serene() && identity == stage.identity ==>
      var v, w, alone := old(fs.View()), fs.View(), path.name == stage.path.name;
      && (removed <==> Removing(v, alone) in {None, identity})
      && w == v.(
           dest := if !alone && v.dest == identity then None else v.dest,
           temp := if alone && v.temp == identity then None else v.temp,
           links := if Removing(v, alone) == identity && v.links > 0 then v.links - 1 else v.links,
           durableDest := w.durableDest, durableTemp := w.durableTemp, node := w.node)
      && (Removing(v, alone) == identity ==> v.links > 0)
      && Named(fs, path.parent) == old(Named(fs, path.parent))
      && fs.disk.names == NamesWithout(old(fs.disk), Loc(fs.fds[parent], path.name), identity)
  {
    hide FileSystem.Valid, ViewOf, Resolve;
    ghost var l, was := Loc(fs.fds[parent], path.name), fs.disk;
    fs.ClaimedApart();
    fs.Glimpse();
    var done, _ := RemoveOwnedEntryAt(fs, parent, path.name, identity);
    removed := done;
    if fs.Serene() && identity == stage.identity {
      RemovalCounted(was, fs.disk, fs.claim.value, l, identity);
      fs.Glimpse();
      RemovalKeepsPaths(was, fs.disk, l, identity, Anchor(fs, path.parent), path.parent.components);
    }
  }

  /** Removes the name and accounts for the names that are left. */
  method RemoveAndAccount(fs: FileSystem, parent: Fd, path: Path, stage: StagedArtifact, identity: Option<Ino>)
    returns (r: Outcome<bool>)
    requires fs.Valid() && Tracking(fs, parent, path, stage)
    modifies fs`disk, fs`history, fs`faults, fs`touched
    ensures fs.Valid() && old(fs.history) <= fs.history && fs.claim == old(fs.claim)
    ensures fs.touched <= old(fs.touched) + {Loc(fs.fds[parent], path.name)}
    ensures Shrunk(old(fs.View()), fs.View())
    ensures r.Raised? ==> !fs.calm
    ensures r == Ok(true) ==> identity == stage.identity && Accounted(fs, |old(fs.history)|, path, stage)
    ensures fs.Serene() && identity == stage.identity ==>
      var v, alone := old(fs.View()), path.name == stage.path.name;
      && r == Ok(Removing(v, alone) in {None, identity} && v.links == Tracked(v, alone, identity))
      && Named(fs, path.parent) == old(Named(fs, path.parent))
      && fs.disk.names == NamesWithout(old(fs.disk), Loc(fs.fds[parent], path.name), identity)
  {
    hide FileSystem.Valid, ViewOf, Resolve, Named, Links, LinkSet;
    fs.ClaimedApart();
    var unexpected := UnexpectedLinks(fs, parent, path, stage, identity);
    if unexpected.Raised? { return Raised(unexpected.error); }
    var removed := RemoveCounted(fs, parent, path, stage, identity);
    var retained := RetainedMatches(fs, parent, path, stage, identity);
    if retained.Raised? { return Raised(retained.error); }
    if removed && retained.value && fs.View().temp == stage.identity && path.name != stage.path.name {
      fs.Present();
      fs.Glimpse();
      SoleLink(fs.disk, fs.claim.value.Temp(), stage.identity.value);
      assert SoleName(fs.history, |fs.history| - 1, fs.claim.value.Temp(), stage.identity.value);
    }
    r := Ok(removed && !unexpected.value && retained.value);
  }

  /** The path still names the held directory; what was accounted for stays so. */
  method ConfirmNamed(fs: FileSystem, path: Path, stage: StagedArtifact, dir: Ino, ghost from: nat) returns (r: Outcome<bool>)
    requires fs.Valid() && Holds(fs, stage) && Accounted(fs, from, path, stage) && dir == fs.claim.value.dir
    modifies fs`disk, fs`history, fs`faults, fs`touched, fs`fds
    ensures fs.Elapsed() && fs.fds == old(fs.fds) && fs.touched == old(fs.touched)
    ensures Accounted(fs, from, path, stage)
    ensures r.Raised? ==> !fs.calm
    ensures r == Ok(true) ==>
      Reached(fs.history, |old(fs.history)|, |fs.history|, Anchor(fs, path.parent), path.parent.components,
              |path.parent.components|, dir)
    ensures fs.calm ==> r == Ok(old(Named(fs, path.parent)) == Some(dir))
  {
    hide FileSystem.Valid, ViewOf, Reached, Named;
    ghost var h, l, k := fs.history, fs.claim.value.Temp(), 0;
    if path.name != stage.path.name && fs.View().temp == stage.identity {
      k :| from <= k && SoleName(h, k, l, stage.identity.value);
    }
    r := PathHasIdentity(fs, path.parent, Some(dir));
    assert SoleName(h, k, l, stage.identity.value) ==> SoleName(fs.history, k, l, stage.identity.value);
  }

  /** The body of `remove_owned_published_artifact` through a leased directory. */
  method RemoveAnchored(
    fs: FileSystem, parent: Fd, path: Path, stage: StagedArtifact, identity: Option<Ino>, expectedParent: Option<Ino>)
    returns (r: Outcome<bool>)
    requires fs.Valid() && Tracking(fs, parent, path, stage)
    modifies fs`disk, fs`history, fs`faults, fs`touched, fs`fds
    ensures fs.Valid() && old(fs.history) <= fs.history && fs.claim == old(fs.claim) && fs.fds == old(fs.fds)
    ensures fs.touched <= old(fs.touched) + {Loc(fs.fds[parent], path.name)}
    ensures Shrunk(old(fs.View()), fs.View())
    ensures r == Ok(true) ==>
      && identity == stage.identity && Accounted(fs, |old(fs.history)|, path, stage)
      && expectedParent in {None, Some(fs.claim.value.dir)}
      && Reached(fs.history, |old(fs.history)|, |fs.history|, Anchor(fs, path.parent), path.parent.components,
                 |path.parent.components|, fs.claim.value.dir)
    ensures
      && fs.Serene() && identity == stage.identity && fs.claim.value.dir.kind.Directory?
      && expectedParent in {None, Some(fs.claim.value.dir)} && old(Named(fs, path.parent)) == Some(fs.claim.value.dir)
      ==>
        var v, alone := old(fs.View()), path.name == stage.path.name;
        && r == Ok(Removing(v, alone) in {None, identity} && v.links == Tracked(v, alone, identity))
        && fs.disk.names == NamesWithout(old(fs.disk), Loc(fs.fds[parent], path.name), identity)
    ensures fs.calm && r == Ok(true) ==> Named(fs, path.parent) == Some(fs.claim.value.dir)
    ensures expectedParent !in {None, Some(fs.fds[parent])} ==> r != Ok(true) && fs.touched == old(fs.touched)
  {
    hide FileSystem.Valid, ViewOf, Reached, Named, Accounted;
    var parentIdentity := DescriptorIdentity(fs, parent);
    if parentIdentity.Raised? { return Raised(parentIdentity.error); }
    if expectedParent.Some? && expectedParent != Some(parentIdentity.value) { return Ok(false); }
    ghost var from := |fs.history|;
    var accounted := RemoveAndAccount(fs, parent, path, stage, identity);
    if accounted.Raised? { return accounted; }
    if !accounted.value { return Ok(false); }
    ghost var h := fs.history;
    r := ConfirmNamed(fs, path, stage, parentIdentity.value, from);
    if r == Ok(true) {
      AccountedSooner(fs, |old(fs.history)|, from, path, stage);
      ReachedSooner(fs.history, |old(fs.history)|, |h|, |fs.history|, Anchor(fs, path.parent), path.parent.components,
                    |path.parent.components|, parentIdentity.value);
    }
  }

  /** The body of `remove_owned_published_artifact` in the directory the path names. */
  method RemoveNamed(fs: FileSystem, parent: Fd, path: Path, identity: Option<Ino>, expectedParent: Option<Ino>)
    returns (r: Outcome<bool>)
    requires fs.Valid() && parent in fs.fds
    modifies fs`disk, fs`history, fs`faults, fs`touched, fs`fds
    ensures fs.Valid() && old(fs.history) <= fs.history && fs.claim == old(fs.claim) && fs.fds == old(fs.fds)
    ensures fs.touched <= old(fs.touched) + {Loc(fs.fds[parent], path.name)}
    ensures fs.claim.Some? ==> Shrunk(old(fs.View()), fs.View())
    ensures r == Ok(true) ==>
      && expectedParent in {None, Some(fs.fds[parent])}
      && Missed(fs.history, |old(fs.history)|, Loc(fs.fds[parent], path.name))
      && Reached(fs.history, |old(fs.history)|, |fs.history|, Anchor(fs, path.parent), path.parent.components,
                 |path.parent.components|, fs.fds[parent])
    ensures expectedParent !in {None, Some(fs.fds[parent])} ==> r != Ok(true) && fs.touched == old(fs.touched)
    ensures fs.calm && fs.fds[parent].kind.Directory? && expectedParent !in {None, Some(fs.fds[parent])} ==>
      r == Ok(false) && fs.disk.names == old(fs.disk.names)
    ensures
      && fs.Serene() && fs.fds[parent].kind.Directory? && expectedParent in {None, Some(fs.fds[parent])}
      && old(Named(fs, path.parent)) == Some(fs.fds[parent])
      ==>
        var l, entry := Loc(fs.fds[parent], path.name), old(fs.Entry(parent, path.name));
        && r == Ok(entry == None || Owned(entry, identity))
        && fs.disk.names == if Owned(entry, identity) then Unlinked(old(fs.disk), l).names else old(fs.disk.names)
  {
    hide FileSystem.Valid, ViewOf, Reached, Resolve;
    var parentIdentity := DescriptorIdentity(fs, parent);
    if parentIdentity.Raised? { return Raised(parentIdentity.error); }
    if expectedParent.Some? && expectedParent != Some(parentIdentity.value) { return Ok(false); }
    ghost var was := fs.disk;
    var removed, at := RemoveOwnedEntryAt(fs, parent, path.name, identity);
    if fs.Serene() {
      RemovalKeepsPaths(was, fs.disk, Loc(fs.fds[parent], path.name), identity, Anchor(fs, path.parent),
                        path.parent.components);
    }
    if !removed { return Ok(false); }
    ghost var h := fs.history;
    r := PathHasIdentity(fs, path.parent, Some(parentIdentity.value));
    if r == Ok(true) {
      assert Loc(fs.fds[parent], path.name) !in fs.history[at].names;
      ReachedSooner(fs.history, |old(fs.history)|, |h|, |fs.history|, Anchor(fs, path.parent), path.parent.components,
                    |path.parent.components|, parentIdentity.value);
    }
  }

  /** Claims the name about to be removed beside the staging name. */
  method ClaimRemoval(fs: FileSystem, path: Path, stage: StagedArtifact)
    requires fs.Valid() && Holds(fs, stage)
    modifies fs`claim, fs`since, fs`sound
    ensures fs.Valid() && Holds(fs, stage)
    ensures path.name != stage.path.name ==> fs.claim.value.dest == path.name
    ensures fs.claim.value == old(fs.claim.value).(dest := fs.claim.value.dest, before := fs.claim.value.before)
    ensures path.name in {stage.path.name, old(fs.claim.value.dest)} ==>
      fs.claim == old(fs.claim) && fs.since == old(fs.since) && fs.sound == old(fs.sound)
  {
    fs.ClaimedApart();
    var c := fs.claim.value;
    if path.name != stage.path.name && c.dest != path.name {
      fs.Reserve(c.dir, path.name, c.temp, c.content, c.staged);
    }
  }

  /** What a removal by name comes to on an undisturbed disk: where the directory is missing there
      is nothing to remove, unless a directory was expected; in the one that is named, if it is the
      one expected, nothing must be there, or the owned file, whose name alone is then gone. */
  ghost predicate RemovedByName(
    was: Disk, fs: FileSystem, path: Path, identity: Option<Ino>, expectedParent: Option<Ino>, r: Outcome<bool>)
    reads fs`disk
  {
    var named := Resolve(was, Anchor(fs, path.parent), path.parent.components, |path.parent.components|);
    if named == None then
      && r == Ok(Missing(was, Anchor(fs, path.parent), path.parent.components) && expectedParent == None)
      && fs.disk.names == was.names
    else
      var l := Loc(named.value, path.name);
      var owned := expectedParent in {None, named} && Owned(Lookup(was.names, l), identity);
      && r == Ok(expectedParent in {None, named} && (Lookup(was.names, l) == None || owned))
      && fs.disk.names == if owned then Unlinked(was, l).names else was.names
  }

  /** `remove_owned_published_artifact` without a lease: in the directory that the path names. */
  method RemoveUnleased(fs: FileSystem, path: Path, identity: Option<Ino>, expectedParent: Option<Ino>)
    returns (r: Outcome<bool>, ghost dir: Ino)
    requires fs.Valid()
    modifies fs`disk, fs`history, fs`faults, fs`touched, fs`fds
    ensures fs.Valid() && old(fs.history) <= fs.history && fs.claim == old(fs.claim) && fs.fds == old(fs.fds)
    ensures fs.touched <= old(fs.touched) + {Loc(dir, path.name)}
    ensures r == Ok(true) ==>
      || (expectedParent == None && Lost(fs.history, |old(fs.history)|, Anchor(fs, path.parent), path.parent.components))
      || (expectedParent in {None, Some(dir)}
          && Missed(fs.history, |old(fs.history)|, Loc(dir, path.name))
          && Reached(fs.history, |old(fs.history)|, |fs.history|, Anchor(fs, path.parent), path.parent.components,
                     |path.parent.components|, dir))
    ensures fs.Serene() ==> RemovedByName(old(fs.disk), fs, path, identity, expectedParent, r)
  {
    hide FileSystem.Valid, ViewOf, Reached, Resolve, Missing, Lost, Missed, LinkSet;
    dir := fs.root;
    var parent := OpenParent(fs, path, None);
    if parent.Raised? { return Ok(parent.error == FileNotFound && expectedParent == None), dir; }
    dir := fs.fds[parent.value];
    ghost var from := |fs.history|;
    r := RemoveNamed(fs, parent.value, path, identity, expectedParent);
    fs.Close(parent.value);
    if r == Ok(true) {
      ReachedSooner(fs.history, |old(fs.history)|, from, |fs.history|, Anchor(fs, path.parent), path.parent.components,
                    |path.parent.components|, dir);
      MissedSooner(fs.history, |old(fs.history)|, from, Loc(dir, path.name));
    }
  }

  /** Removes the claimed name in the leased directory. */
  method RemoveClaimed(
    fs: FileSystem, path: Path, identity: Option<Ino>, expectedParent: Option<Ino>, stage: StagedArtifact)
    returns (r: Outcome<bool>)
    requires fs.Valid() && Holds(fs, stage) && path.name in {stage.path.name, fs.claim.value.dest}
    modifies fs`disk, fs`history, fs`faults, fs`touched, fs`fds
    ensures fs.Valid() && old(fs.history) <= fs.history && fs.claim == old(fs.claim) && fs.fds == old(fs.fds)
    ensures fs.touched <= old(fs.touched) + {Loc(fs.claim.value.dir, path.name)}
    ensures r == Ok(true) ==>
      && identity == stage.identity && Accounted(fs, |old(fs.history)|, path, stage)
      && expectedParent in {None, Some(fs.claim.value.dir)}
      && Reached(fs.history, |old(fs.history)|, |fs.history|, Anchor(fs, path.parent), path.parent.components,
                 |path.parent.components|, fs.claim.value.dir)
    ensures
      && fs.Serene() && identity == stage.identity && fs.claim.value.dir.kind.Directory?
      && expectedParent in {None, Some(fs.claim.value.dir)} && old(Named(fs, path.parent)) == Some(fs.claim.value.dir)
      ==>
        var v, alone := old(fs.View()), path.name == stage.path.name;
        && r == Ok(Removing(v, alone) in {None, identity} && v.links == Tracked(v, alone, identity))
        && fs.disk.names == NamesWithout(old(fs.disk), Loc(fs.claim.value.dir, path.name), identity)
    ensures fs.calm && r == Ok(true) ==> Named(fs, path.parent) == Some(fs.claim.value.dir)
    ensures expectedParent !in {None, Some(fs.claim.value.dir)} ==> r != Ok(true) && fs.touched == old(fs.touched)
  {
    hide FileSystem.Valid, ViewOf, Reached, Named, Lost, Missed, LinkSet, Links, Tracked, Removing, NamesWithout, SoleName;
    fs.ClaimedApart();
    var parent := OpenParent(fs, path, stage.parentLease);
    if parent.Raised? { return Ok(false); }
    ghost var from := |fs.history|;
    r := RemoveAnchored(fs, parent.value, path, stage, identity, expectedParent);
    fs.Close(parent.value);
    if r == Ok(true) {
      ReachedSooner(fs.history, |old(fs.history)|, from, |fs.history|, Anchor(fs, path.parent), path.parent.components,
                    |path.parent.components|, fs.claim.value.dir);
      AccountedSooner(fs, |old(fs.history)|, from, path, stage);
    }
  }

  /** And with one: in the leased directory, as long as the path still names it. */
  method RemoveLeased(
    fs: FileSystem, path: Path, identity: Option<Ino>, expectedParent: Option<Ino>, stage: StagedArtifact)
    returns (r: Outcome<bool>, ghost dir: Ino)
    requires fs.Valid() && Holds(fs, stage)
    modifies fs
    ensures fs.Valid() && old(fs.history) <= fs.history && fs.fds == old(fs.fds) && Holds(fs, stage)
    ensures fs.calm == old(fs.calm) && fs.stuck == old(fs.stuck) && fs.lossy == old(fs.lossy)
    ensures fs.touched <= old(fs.touched) + {Loc(dir, path.name)}
    ensures fs.claim.value == old(fs.claim.value).(dest := fs.claim.value.dest, before := fs.claim.value.before)
    ensures path.name in {stage.path.name, old(fs.claim.value.dest)} ==>
      fs.claim == old(fs.claim) && fs.since == old(fs.since) && fs.sound == old(fs.sound)
    ensures r == Ok(true) ==>
      && identity == stage.identity && Accounted(fs, |old(fs.history)|, path, stage)
      && dir == fs.claim.value.dir && expectedParent in {None, Some(dir)}
      && Reached(fs.history, |old(fs.history)|, |fs.history|, Anchor(fs, path.parent), path.parent.components,
                 |path.parent.components|, dir)
    ensures fs.Serene() && identity == stage.identity && InPlaceFor(fs, old(fs.disk), path, stage, expectedParent) ==>
      var v, alone := ViewOf(old(fs.disk), fs.claim.value), path.name == stage.path.name;
      && r == Ok(Removing(v, alone) in {None, identity} && v.links == Tracked(v, alone, identity))
      && fs.disk.names == NamesWithout(old(fs.disk), Loc(fs.claim.value.dir, path.name), identity)
    ensures fs.calm && r == Ok(true) ==> Named(fs, path.parent) == Some(dir)
    ensures stage.path.parent != path.parent ==> r == Ok(false) && fs.disk == old(fs.disk)
    ensures expectedParent !in {None, Some(old(fs.claim.value.dir))} ==> r != Ok(true) && fs.touched == old(fs.touched)
  {
    hide FileSystem.Valid, ViewOf, Reached, Resolve, LinkSet, Links, Tracked, Removing, NamesWithout, SoleName, Accounted;
    dir := fs.claim.value.dir;
    if stage.path.parent != path.parent { return Ok(false), dir; }
    ClaimRemoval(fs, path, stage);
    r := RemoveClaimed(fs, path, identity, expectedParent, stage);
  }

  /** The leased directory is the one that is expected, and the one that the path named. */
  ghost predicate InPlaceFor(fs: FileSystem, was: Disk, path: Path, stage: StagedArtifact, expectedParent: Option<Ino>)
    requires fs.claim.Some?
    reads fs, stage
  {
    && stage.path.parent == path.parent && fs.claim.value.dir.kind.Directory?
    && expectedParent in {None, Some(fs.claim.value.dir)}
    && Resolve(was, Anchor(fs, path.parent), path.parent.components, |path.parent.components|) == Some(fs.claim.value.dir)
  }

  /** `remove_owned_published_artifact` */
  method RemoveOwnedPublishedArtifact(
    fs: FileSystem, path: Path, identity: Option<Ino>, expectedParent: Option<Ino>, stage: StagedArtifact?)
    returns (r: Outcome<bool>, ghost dir: Ino)
    requires fs.Valid() && (ParentLease(stage).Some? ==> Holds(fs, stage))
    modifies fs
    ensures fs.Valid() && old(fs.history) <= fs.history && fs.fds == old(fs.fds)
    ensures fs.calm == old(fs.calm) && fs.stuck == old(fs.stuck) && fs.lossy == old(fs.lossy)
    ensures fs.touched <= old(fs.touched) + {Loc(dir, path.name)}
    ensures ParentLease(stage).Some? ==>
      && Holds(fs, stage)
      && fs.claim.value == old(fs.claim.value).(dest := fs.claim.value.dest, before := fs.claim.value.before)
      && (path.name in {stage.path.name, old(fs.claim.value.dest)} ==>
            fs.claim == old(fs.claim) && fs.since == old(fs.since) && fs.sound == old(fs.sound))
    ensures r == Ok(true) && ParentLease(stage).Some? ==>
      && Holds(fs, stage) && identity == stage.identity && Accounted(fs, |old(fs.history)|, path, stage)
      && dir == fs.claim.value.dir && expectedParent in {None, Some(dir)}
      && Reached(fs.history, |old(fs.history)|, |fs.history|, Anchor(fs, path.parent), path.parent.components,
                 |path.parent.components|, dir)
    ensures r == Ok(true) && ParentLease(stage) == None ==>
      || (expectedParent == None && Lost(fs.history, |old(fs.history)|, Anchor(fs, path.parent), path.parent.components))
      || (expectedParent in {None, Some(dir)}
          && Missed(fs.history, |old(fs.history)|, Loc(dir, path.name))
          && Reached(fs.history, |old(fs.history)|, |fs.history|, Anchor(fs, path.parent), path.parent.components,
                     |path.parent.components|, dir))
    ensures
      && ParentLease(stage).Some? && fs.Serene() && identity == stage.identity && Holds(fs, stage)
      && InPlaceFor(fs, old(fs.disk), path, stage, expectedParent)
      ==>
        var v, alone := ViewOf(old(fs.disk), fs.claim.value), path.name == stage.path.name;
        && r == Ok(Removing(v, alone) in {None, identity} && v.links == Tracked(v, alone, identity))
        && fs.disk.names == NamesWithout(old(fs.disk), Loc(fs.claim.value.dir, path.name), identity)
    ensures fs.calm && r == Ok(true) && ParentLease(stage).Some? ==> Named(fs, path.parent) == Some(dir)
    ensures ParentLease(stage).Some? && stage.path.parent != path.parent ==> r == Ok(false) && fs.disk == old(fs.disk)
    ensures ParentLease(stage) == None && fs.Serene() ==> RemovedByName(old(fs.disk), fs, path, identity, expectedParent, r)
  {
    hide FileSystem.Valid, ViewOf, Reached, Named, Lost, Missed, LinkSet, RemovedByName, Accounted, InPlaceFor, Tracked,
         Removing, NamesWithout;
    if ParentLease(stage).Some? {
      r, dir := RemoveLeased(fs, path, identity, expectedParent, stage);
    } else {
      r, dir := RemoveUnleased(fs, path, identity, expectedParent);
    }
  }

  lemma AccountedSooner(fs: FileSystem, from: nat, from': nat, path: Path, stage: StagedArtifact)
    requires Holds(fs, stage) && Accounted(fs, from', path, stage) && from <= from'
    ensures Accounted(fs, from, path, stage)
  {
    if path.name != stage.path.name && fs.View().temp == stage.identity {
      var k :| from' <= k && SoleName(fs.history, k, fs.claim.value.Temp(), stage.identity.value);
      assert from <= k && SoleName(fs.history, k, fs.claim.value.Temp(), stage.identity.value);
    }
  }

  lemma MissedSooner(h: seq<Disk>, from: nat, from': nat, l: Loc)
    requires Missed(h, from', l) && from <= from'
    ensures Missed(h, from, l)
  {
    var a: nat :| from' <= a < |h| && l !in h[a].names;
  }
}
