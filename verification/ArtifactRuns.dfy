/** What the operations on one artifact add up to. */
module ArtifactRuns {
  import opened Prelude
  import opened FileSystemModel
  import opened PathWalk
  import opened ArtifactFilesystem

  /** What a crash at `d` leaves: the destination is absent, as it was when it was claimed, or
      names the staged inode with the whole content saved. */
  predicate LosesNothing(d: Disk, c: Claim) {
    var binding := Lookup(d.durable, c.Dest());
    binding == None || binding in c.before
    || (binding == c.staged && binding.Some? && Node(d, binding.value).saved == c.content)
  }

  /** Whatever calls led here, a crash at any point since the names were claimed binds the
      destination to nothing else than the staged inode or what it was bound to before; and if
      nothing incomplete was ever linked there, no such crash loses anything. */
  lemma AfterCrash(fs: FileSystem, k: nat)
    requires fs.Valid() && fs.claim.Some? && fs.since <= k < |fs.history|
    ensures Expected(fs.claim.value, Lookup(fs.history[k].durable, fs.claim.value.Dest()))
    ensures fs.sound ==> LosesNothing(fs.history[k], fs.claim.value)
  {
    assert Kept(ViewOf(fs.history[k], fs.claim.value), fs.claim.value, fs.sound);
  }

  // ---- Crash safety of a whole run.

  /** One artifact staged, published if that succeeded, and removed again under both names.
      Whatever other processes do and whichever calls fail, a crash at any point from the moment
      the names are claimed to the end of the run loses nothing. */
  method StagePublishRemove(fs: FileSystem, path: Path, content: seq<Byte>, stage: StagedArtifact)
    returns (staged: bool, ghost claimed: bool)
    requires fs.Valid() && stage.Leased(fs)
    modifies fs, stage
    ensures fs.Valid() && old(fs.history) <= fs.history && (staged ==> claimed)
    ensures claimed ==>
      && fs.claim.Some? && |old(fs.history)| - 1 <= fs.since < |fs.history|
      && forall k | fs.since <= k < |fs.history| :: LosesNothing(fs.history[k], fs.claim.value)
  {
    hide FileSystem.Valid, ViewOf, Reached, Named, Lost, Missed, Published, Accounted, LosesNothing;
    var r, captured, _ := StageArtifact(fs, path, content, stage);
    claimed, staged := captured, r.Ok?;
    if staged {
      var _, _ := PublishStagedArtifact(fs, path, stage);
      var _, _ := RemoveOwnedPublishedArtifact(fs, path, stage.identity, stage.parentIdentity, stage);
      var _, _ := RemoveOwnedPublishedArtifact(fs, stage.path, stage.identity, stage.parentIdentity, stage);
    }
    if claimed { EveryPointIsSafe(fs); }
  }

  lemma EveryPointIsSafe(fs: FileSystem)
    requires fs.Valid() && fs.claim.Some? && fs.sound
    ensures fs.since < |fs.history|
    ensures forall k | fs.since <= k < |fs.history| :: LosesNothing(fs.history[k], fs.claim.value)
  {
    hide LosesNothing;
    forall k | fs.since <= k < |fs.history| ensures LosesNothing(fs.history[k], fs.claim.value) { AfterCrash(fs, k); }
  }

  // ---- The exact condition.

  /** No activity outside the claim, from `v` on, makes a crash lose content. */
  ghost predicate SafeFromHere(v: View, c: Claim) {
    forall w | Drift(v, w) :: w.durableDest == c.staged ==> w.node.saved == c.content
  }

  /** A stage that holds its inode is published whatever that contains.  The publication is safe
      from its first link to whatever comes after it if and only if the inode held the whole
      content, all of it saved, when it was asked for. */
  method PublishedSafelyExactly(fs: FileSystem, path: Path, stage: StagedArtifact) returns (published: bool)
    requires fs.Valid() && Holds(fs, stage) && fs.claim.value.dest == path.name && fs.sound
    modifies fs
    ensures fs.Valid() && old(fs.history) <= fs.history && fs.claim == old(fs.claim) && fs.since == old(fs.since)
    ensures published ==> fs.View().dest == stage.identity && fs.View().durableDest == stage.identity
    ensures published ==>
      (Complete(old(fs.View()), fs.claim.value) <==>
         && (forall k | fs.since <= k < |fs.history| :: CrashSafe(ViewOf(fs.history[k], fs.claim.value), fs.claim.value))
         && SafeFromHere(fs.View(), fs.claim.value))
    ensures Complete(old(fs.View()), fs.claim.value) ==>
      forall k | fs.since <= k < |fs.history| :: CrashSafe(ViewOf(fs.history[k], fs.claim.value), fs.claim.value)
  {
    hide FileSystem.Valid, ViewOf, Reached, Named, CrashSafe, SafeFromHere;
    var r, _ := PublishStagedArtifact(fs, path, stage);
    published := r.Ok?;
    SoundMeansSafe(fs);
    if published { SafelyLinked(fs); }
  }

  lemma SoundMeansSafe(fs: FileSystem)
    requires fs.Valid() && fs.claim.Some?
    ensures fs.sound ==>
      forall k | fs.since <= k < |fs.history| :: CrashSafe(ViewOf(fs.history[k], fs.claim.value), fs.claim.value)
  {
    hide CrashSafe, ViewOf;
    forall k | fs.since <= k < |fs.history| && fs.sound
      ensures CrashSafe(ViewOf(fs.history[k], fs.claim.value), fs.claim.value) {
      assert Kept(ViewOf(fs.history[k], fs.claim.value), fs.claim.value, fs.sound);
    }
  }

  lemma SafelyLinked(fs: FileSystem)
    requires fs.Valid() && fs.claim.Some? && fs.claim.value.staged.Some? && fs.View().dest == fs.claim.value.staged
    ensures SafeFromHere(fs.View(), fs.claim.value) <==> Complete(fs.View(), fs.claim.value)
  {
    hide ViewOf, Complete, Drift;
    LinkedSafely(fs.View(), fs.claim.value);
  }

  /** The condition can fail.  A device that refuses to write and to remove while an artifact is
      staged, and then recovers, leaves a stage that holds an empty inode; it is published, and a
      crash then finds the destination durably bound to it. */
  method IncompletePublication(fs: FileSystem, path: Path, content: seq<Byte>, stage: StagedArtifact)
    returns (staging: Outcome<()>, publishing: Outcome<()>)
    requires content != [] && Free(fs, path, stage)
    modifies fs, stage
    ensures fs.Valid() && staging.Raised? && publishing.Ok?
    ensures fs.claim.Some? && |fs.history| > 0
    ensures
      var d, l := fs.history[|fs.history| - 1], fs.claim.value.Dest();
      && Lookup(d.durable, l) == stage.identity == fs.claim.value.staged
      && stage.identity.Some? && Node(d, stage.identity.value).saved == []
      && fs.claim.value.content == content && fs.claim.value.dest == path.name
  {
    hide FileSystem.Valid, ViewOf, Reached, Named, Whole, SoleName;
    fs.Turn(true, true, false);
    var s, _, _ := StageArtifact(fs, path, content, stage);
    staging := s;
    fs.Turn(true, false, false);
    fs.Glimpse();
    var p, _ := PublishStagedArtifact(fs, path, stage);
    publishing := p;
    fs.Present();
    ViewSaysDurable(fs);
  }

  /** Where only the saving of bytes fails, a staging attempt fails and leaves nothing behind: no
      name, no identity and no lease. */
  method FailedSyncLeavesNothing(fs: FileSystem, path: Path, content: seq<Byte>, stage: StagedArtifact)
    returns (staging: Outcome<()>)
    requires Free(fs, path, stage)
    modifies fs, stage
    ensures fs.Valid() && staging.Raised? && Cleared(stage)
    ensures old(Named(fs, path.parent)).Some? ==> fs.disk.names == old(fs.disk.names)
    ensures fs.fds == old(fs.fds) - old(stage.Leases())
  {
    hide FileSystem.Valid, ViewOf, Reached, Named, Whole, SoleName;
    fs.Turn(true, false, true);
    var s, _, _ := StageArtifact(fs, path, content, stage);
    staging := s;
  }

  lemma ViewSaysDurable(fs: FileSystem)
    requires fs.claim.Some? && fs.claim.value.staged.Some?
    ensures fs.View().durableDest == Lookup(fs.disk.durable, fs.claim.value.Dest())
    ensures fs.View().node == Node(fs.disk, fs.claim.value.staged.value)
  {
  }

  // ---- Classification.

  /** Where nothing moves any more, a published artifact classifies as a match if and only if the
      staged inode has no second name and the path still names the held directory; or it was
      published incomplete. */
  method ClassifyPublished(fs: FileSystem, path: Path, content: seq<Byte>, stage: StagedArtifact)
    returns (state: Outcome<ArtifactState>)
    requires fs.Valid() && Holds(fs, stage) && fs.calm && stage.path.parent == path.parent
    requires fs.claim.value.dest == path.name && fs.claim.value.dir.kind.Directory? && fs.View().dest == stage.identity
    modifies fs`disk, fs`history, fs`faults, fs`touched, fs`fds
    ensures fs.Valid() && Holds(fs, stage) && fs.disk == old(fs.disk) && fs.claim == old(fs.claim) && fs.fds == old(fs.fds)
    ensures state == Ok(Matches) <==>
      && fs.View().links == 1 && Named(fs, path.parent) == Some(fs.claim.value.dir)
      && fs.View().node.bytes == content && fs.View().node.confined
  {
    hide FileSystem.Valid, ViewOf, Reached, Named, Witnessed, Settled, Lost;
    fs.Glimpse();
    var found, _ := PublishedArtifactState(fs, path, Expectation(content, stage.identity, stage.parentIdentity), stage);
    state := found;
  }

  /** However rough the publication was, from the moment it has succeeded and nothing interferes
      and no call fails any more, the artifact matches if and only if nobody gave its inode
      another name and the path still names the held directory. */
  method PublishThenCalm(fs: FileSystem, path: Path, content: seq<Byte>, stage: StagedArtifact)
    returns (published: bool, state: Outcome<ArtifactState>)
    requires fs.Valid() && Staged(fs, stage, path, content) && stage.path.parent == path.parent
    modifies fs
    ensures fs.Valid() && fs.fds == old(fs.fds)
    ensures published ==> Holds(fs, stage) && Whole(fs.View(), fs.claim.value)
    ensures published ==>
      (state == Ok(Matches) <==> fs.View().links == 1 && Named(fs, path.parent) == Some(fs.claim.value.dir))
  {
    hide FileSystem.Valid, ViewOf, Reached, Named;
    var r, _ := PublishStagedArtifact(fs, path, stage);
    published, state := r.Ok?, Ok(Unverifiable);
    if published {
      fs.Interfere();
      fs.Turn(true, false, false);
      state := ClassifyPublished(fs, path, content, stage);
    }
  }

  /** After a successful publication a classification through the leases cannot miss the
      artifact, whatever else happens to the disk, and when it finds a match the destination
      durably names the whole content. */
  method PublishAndClassify(fs: FileSystem, path: Path, content: seq<Byte>, stage: StagedArtifact)
    returns (published: bool, state: Outcome<ArtifactState>)
    requires fs.Valid() && Staged(fs, stage, path, content)
    modifies fs
    ensures fs.Valid() && fs.fds == old(fs.fds)
    ensures published ==> state != Ok(Absent)
    ensures published ==>
      && Holds(fs, stage) && fs.claim.value.dest == path.name
      && fs.View().dest == stage.identity && fs.View().durableDest == stage.identity && Whole(fs.View(), fs.claim.value)
  {
    hide FileSystem.Valid, ViewOf, Reached, Named, Found, Lost;
    var r, _ := PublishStagedArtifact(fs, path, stage);
    published := r.Ok?;
    var found, _ := PublishedArtifactState(fs, path, Expectation(content, stage.identity, stage.parentIdentity), stage);
    state := found;
  }

  // ---- Where nothing moves.

  /** The directory is there or can be made, and both names are free in it. */
  ghost predicate Free(fs: FileSystem, path: Path, stage: StagedArtifact)
    reads fs, stage
  {
    && fs.Valid() && stage.Leased(fs)
    && stage.path.parent == path.parent && stage.path.name != path.name
    && ValidEntryName(path.name) && ValidEntryName(stage.path.name)
    && Vacant(fs, path, stage.path.name)
  }

  /** A published artifact on a file system where nothing moves. */
  ghost predicate AtRest(fs: FileSystem, path: Path, content: seq<Byte>, stage: StagedArtifact)
    reads fs, stage
  {
    && fs.Serene() && fs.Valid() && Holds(fs, stage) && stage.path.parent == path.parent && stage.path.name != path.name
    && fs.claim.value.dest == path.name && fs.claim.value.content == content && fs.claim.value.dir.kind.Directory?
    && Named(fs, path.parent) == Some(fs.claim.value.dir)
    && fs.View().dest == stage.identity && fs.View().temp == None && fs.View().links == 1
    && Whole(fs.View(), fs.claim.value)
  }

  method UndisturbedPublication(fs: FileSystem, path: Path, content: seq<Byte>, stage: StagedArtifact)
    requires Free(fs, path, stage) && fs.Serene() && !fs.lossy
    modifies fs, stage
    ensures AtRest(fs, path, content, stage)
  {
    hide FileSystem.Valid, ViewOf, Reached, Named;
    var staging, _, _ := StageArtifact(fs, path, content, stage);
    fs.Glimpse();
    var publishing, _ := PublishStagedArtifact(fs, path, stage);
  }

  /** On an undisturbed file system the operations undo each other as promised: what is
      staged and published classifies as a match, its removal succeeds, and then it is gone. */
  method UndisturbedRun(fs: FileSystem, path: Path, content: seq<Byte>, stage: StagedArtifact)
    returns (published: Outcome<ArtifactState>, removed: Outcome<bool>, last: Outcome<ArtifactState>)
    requires Free(fs, path, stage) && fs.Serene() && !fs.lossy
    modifies fs, stage
    ensures published == Ok(Matches) && removed == Ok(true) && last == Ok(Absent)
  {
    hide FileSystem.Valid, ViewOf, Reached, Resolve, Found, Lost, Witnessed, NamesWithout;
    UndisturbedPublication(fs, path, content, stage);
    var expected := Expectation(content, stage.identity, stage.parentIdentity);
    fs.Glimpse();
    var found, _ := PublishedArtifactState(fs, path, expected, stage);
    published := found;
    var removing, _ := RemoveOwnedPublishedArtifact(fs, path, stage.identity, stage.parentIdentity, stage);
    removed := removing;
    fs.Glimpse();
    var gone, _ := PublishedArtifactState(fs, path, expected, stage);
    last := gone;
  }
}
