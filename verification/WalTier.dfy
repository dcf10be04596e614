/** The writer: appends with retries and reconciliation, installs folds, and collects what they replace. */
module WalTierModel {
  import opened Primitives
  import opened Image
  import opened App
  import opened Protocol
  import opened CloudInvariant
  import opened WorldInvariant
  import opened ProtocolTheorems
  import opened Environment
  import opened CoreModel
  import opened AppendSpec

  class WalTier<S> {
    const core: Core<S>
    var compaction: Compaction
    var garbage: seq<Text>
    var overflowed: nat
    var deleteFailed: bool

    constructor (core: Core<S>)
      requires Opened(core, true, core.opts.maxPendingDeletes) && core.opts.maxWriteAttempts > 0
      ensures Valid() && this.core == core && compaction.Idle? && garbage == []
    {
      hide Inv, Recorded;
      this.core := core;
      compaction := Compaction.Idle;
      garbage := [];
      overflowed := 0;
      deleteFailed := false;
    }

    /** The handle the protocol knows this writer as. */
    ghost function Abs(): Handle<S>
      reads `compaction, `garbage, `overflowed, core
    {
      Handle(true, core.etag, core.ver, core.image, core.state, compaction, garbage, overflowed, core.opts.maxPendingDeletes, Calm)
    }

    function World(): World<S>
      reads core.cloud
    {
      core.cloud.world
    }

    ghost predicate Linkable()
      reads core, core.cloud, core.disk
    {
      core.Linked() && core.etag.Some? && core.opts.maxWriteAttempts > 0
    }

    /** The fields are exactly what the protocol says of this handle, in a state satisfying its invariant. */
    ghost predicate Valid()
      reads `compaction, `garbage, `overflowed, core, core.cloud, core.disk
    {
      Linkable() && core.It() == Abs() && core.Sized()
    }

    // ----- the garbage queue -----

    method QueueObsolete(key: Text)
      modifies this`garbage, this`overflowed
      ensures Abs() == Protocol.QueueObsolete(old(Abs()), key)
    {
      if key in garbage {
        return;
      }
      if |garbage| == core.opts.maxPendingDeletes {
        overflowed := Min(overflowed + 1, U64_MAX);
      } else {
        garbage := garbage + [key];
      }
    }

    method QueueSuperseded(superseded: Option<SnapshotRef>)
      modifies this`garbage, this`overflowed
      ensures Abs() == QueueAll(old(Abs()), superseded)
    {
      if superseded.Some? {
        QueueObsolete(superseded.value.key);
      }
    }

    /** One round of `collect_garbage`: a key leaves the queue only once its DELETE is confirmed. */
    method DeleteFront(ghost start: World<S>, ghost was: Handle<S>) returns (r: Result<(), StoreError>)
      requires Valid() && garbage != [] && Collecting(start, was)
      modifies this`garbage, core.cloud
      ensures Valid() && Collecting(start, was) && Later(old(World()), World())
      ensures garbage == if r.Ok? then old(garbage)[1..] else old(garbage)
      ensures r.Ok? ==> old(garbage)[0] in World().cloud.deleted
      ensures core.cloud.clock == old(core.cloud.clock) + 1 && core.cloud.faults == old(core.cloud.faults) + (if r.Err? then 1 else 0)
    {
      hide Inv, Extends, Recorded, Core<S>.Sized, Drained;
      ghost var before := World();
      ghost var rest := garbage;
      r := core.cloud.DeleteSnapshot(core.me, garbage[0]);
      core.disk.Ages(before.cloud, World().cloud);
      LaterTransitive(start, before, World());
      DrainedMore(was.garbage, rest, before.cloud, World().cloud);
      if r.Ok? {
        garbage := garbage[1..];
      }
    }

    /** `collect_garbage` is under way: nothing but the front of the queue `was` had at the start has gone. */
    ghost predicate Collecting(start: World<S>, was: Handle<S>)
      reads `compaction, `garbage, `overflowed, core, core.cloud
    {
      Later(start, World()) && Abs() == was.(garbage := garbage) && Drained(was.garbage, garbage, World().cloud.deleted)
    }

    /** Deletes queued snapshots front to back, keeping the queue from the first failure on. */
    method CollectGarbage() returns (r: Result<(), StoreError>)
      requires Valid()
      modifies this`garbage, this`deleteFailed, core.cloud
      ensures Valid() && Collecting(old(World()), old(Abs()))
      ensures r.Ok? ==> garbage == [] && !deleteFailed
      ensures r.Err? ==> garbage != [] && deleteFailed
      ensures core.cloud.faults == old(core.cloud.faults) + (if r.Err? then 1 else 0)
      ensures core.cloud.clock == old(core.cloud.clock) + |old(garbage)| - |garbage| + (if r.Err? then 1 else 0)
    {
      hide Inv, Valid, Collecting;
      ghost var start, was := World(), Abs();
      CollectingNothing();
      while garbage != []
        invariant Valid() && Collecting(start, was)
        invariant core.cloud.faults == old(core.cloud.faults) && core.cloud.clock == old(core.cloud.clock) + |old(garbage)| - |garbage|
        decreases |garbage|
      {
        var deleted := DeleteFront(start, was);
        if deleted.Err? {
          deleteFailed := true;
          return Err(deleted.error);
        }
      }
      deleteFailed := false;
      return Ok(());
    }

    lemma CollectingNothing()
      requires Valid()
      ensures Collecting(World(), Abs())
    {
      hide Inv, Recorded;
      ExtendsItself(World().cloud);
      DrainedNothing(garbage, World().cloud.deleted);
    }

    // ----- folds -----

    /** Drops a pending fold the image has moved past, unless the image names it: then it was installed. */
    method DiscardSupersededFold()
      requires core.disk.Valid(core.cloud.world.cloud)
      modifies this`compaction, this`garbage, this`overflowed, core.disk`snaps
      ensures core.disk.Valid(core.cloud.world.cloud)
      ensures Abs() == Discard(old(Abs()))
      ensures !old(compaction).Ready? || Applies(old(compaction).fold, core.image) ==> compaction == old(compaction)
      ensures old(compaction).Ready? && !Applies(old(compaction).fold, core.image) ==>
                var fold := old(compaction).fold;
                if core.image.snapshot.Some? && core.image.snapshot.value.key == fold.key then compaction.Installed?
                else compaction.Superseded? && Offered(old(Abs()), Abs(), fold.key)
    {
      hide Recorded;
      if !compaction.Ready? || Applies(compaction.fold, core.image) {
        return;
      }
      var fold := compaction.fold;
      var installed := core.image.snapshot.Some? && core.image.snapshot.value.key == fold.key;
      compaction := if installed then Installed else Superseded;
      if !installed {
        core.disk.RemoveSnapshot(core.cloud.world.cloud, fold.key);
        QueueObsolete(fold.key);
      }
    }

    /** After a winning PUT that carried a fold: drop the folded entries, swap the snapshot reference in place. */
    method InstallPendingFold()
      requires core.disk.Valid(core.cloud.world.cloud)
      requires compaction.Ready? ==> Applies(compaction.fold, core.image)
      modifies this`compaction, this`garbage, this`overflowed, core`image, core.disk`snaps
      ensures core.disk.Valid(core.cloud.world.cloud)
      ensures Abs() == FoldIn(old(Abs())) && NothingForgotten(old(Abs()), Abs())
    {
      hide Recorded, NothingForgotten;
      FoldInAccounts(Abs());
      if !compaction.Ready? {
        return;
      }
      var fold := compaction.fold;
      compaction := Installed;
      ghost var held := core.image;
      var folded := fold.lsn - core.image.First() + 1;
      for i := 0 to folded
        invariant core.image == WalImage(held.snapshot, held.entries[i..])
        invariant Abs() == old(Abs()).(compaction := Installed, image := core.image)
        modifies core`image
      {
        core.image := core.image.(entries := core.image.entries[1..]);
      }
      var replaced := core.image.snapshot;
      core.image := core.image.(snapshot := Some(fold));
      assert held.entries[folded..] + [] == held.entries[folded..];
      if replaced.Some? && replaced.value.key != fold.key {
        core.disk.RemoveSnapshot(core.cloud.world.cloud, replaced.value.key);
        QueueObsolete(replaced.value.key);
      }
    }

    // ----- the commit -----

    /** One CAS attempt. On acceptance the caller still has to push `extra` into the image and the state. */
    method TryInstall(extra: seq<Bytes>) returns (r: Result<bool, InstallError>, ghost sent: seq<nat>)
      requires Valid() && (extra != [] || compaction.Ready?)
      modifies this, core, core.cloud, core.disk
      ensures core.Linked() && Later(old(World()), World())
      ensures old(core.cloud.clock) <= core.cloud.clock
      ensures old(core.image).Next() <= core.image.Next()
      ensures r.Ok? && r.value ==> Accepted(old(Abs()), extra, |old(World()).cloud.requests|)
      ensures !(r.Ok? && r.value) ==> Valid()
      ensures r.Ok? && !r.value ==> AllDead(World().cloud, sent)
      ensures compaction == old(compaction) || (old(compaction).Ready? && (compaction.Installed? || compaction.Superseded?))
      ensures r.Err? && !r.error.unknown ==> AllDead(World().cloud, sent)
      ensures r.Err? ==> core.image == old(core.image) && core.state == old(core.state) && compaction == old(compaction)
      ensures r.Err? ==> r.error.source.Encoding? || r.error.source.StoreFailed? || r.error.source == Contention(OpRefresh, MAX_RACES)
      ensures r.Err? ==> Blames(r.error.source, old(core.cloud.faults), core.cloud.faults, old(core.cloud.clock), core.cloud.clock)
      ensures r.Err? && r.error.source.Encoding? ==> TooBig(World(), core.me, extra) && World() == old(World())
      ensures r.Ok? ==> core.cloud.faults == old(core.cloud.faults)
      ensures r.Ok? && !r.value ==> Current(old(World()).cloud, core.etag, core.ver) && old(core.ver) < core.ver
      ensures r.Err? ==> (r.error.source.Encoding? <==> sent == []) && (r.error.unknown ==> r.error.source.StoreFailed?)
      ensures sent == [] || sent == [|old(World()).cloud.requests|]
      ensures r.Ok? ==> sent != []
      ensures sent != [] ==> Sent(old(World()), World(), core.me, extra)
    {
      hide Inv, Extends, Recorded, Layout, Parse, Fits, Install, FoldIn, HandleEnabled, Dead, Core<S>.Sized, Candidate;
      ghost var start := World();
      ghost var was := Abs();
      ExtendsItself(start.cloud);
      ReadyApplies(start, core.me);
      var fold := Pending(compaction);
      var data := EncodeView(core.image, fold, Skip(fold, core.image), extra, core.opts.limits);
      CandidateIsView(core.image, fold, extra);
      if data.Err? {
        return Err(InstallError(Encoding(data.error), false)), [];
      }
      SendEnabled(start, core.me, extra);
      sent := [|start.cloud.requests|];
      var put := core.cloud.PutWal(core.me, core.etag, data.value, extra);
      core.disk.Ages(start.cloud, World().cloud);
      match put {
        case Err(e) =>
          r := Err(InstallError(StoreFailed(e), e.unknown));
        case Ok(Written(e)) =>
          AcceptedRecorded(World(), core.me, was, extra, sent[0]);
          Won(e, data.value, was, extra, sent[0]);
          r := Ok(true);
        case Ok(PreconditionFailed) =>
          ghost var lost := World();
          r := Lost();
          VersionsGrow(start, lost, core.etag, core.ver);
          LaterTransitive(start, lost, World());
          AllDeadStays(lost.cloud, World().cloud, sent);
          SentStays(start, lost, World(), core.me, extra);
      }
    }

    /** After an accepted CAS: record the new version, and take over what its fold replaced. */
    method Won(e: Text, data: Bytes, ghost was: Handle<S>, ghost extra: seq<Bytes>, ghost id: nat)
      requires was == Abs() && core.Linked() && core.opts.maxWriteAttempts > 0
      requires compaction.Ready? ==> Applies(compaction.fold, core.image)
      requires was.ver + 1 < |World().cloud.versions| && World().cloud.versions[was.ver + 1].put == id
      requires World().cloud.versions[was.ver + 1].etag == e && Recorded(World().cloud, e, data)
      requires data == Layout(Candidate(was.image, Pending(was.compaction), extra))
      requires core.It() == Install(World().app, was, extra, World().cloud.versions[was.ver + 1], was.ver + 1)
      modifies this`compaction, this`garbage, this`overflowed, core, core.disk
      ensures compaction == if old(compaction).Ready? then Installed else old(compaction)
      ensures core.Linked() && Accepted(was, extra, id) && core.image.Next() == was.image.Next()
    {
      hide Inv, Recorded, Install, FoldIn, Candidate, Layout;
      core.RecordImagePut(e, data);
      core.ver := core.ver + 1;
      FoldInIgnores(was, core.etag, core.ver);
      FoldInKeepsNext(was);
      InstallPendingFold();
    }

    /** After a rejected CAS: pull what won, re-check the fold, queue what was superseded. */
    method Lost() returns (r: Result<bool, InstallError>)
      requires core.Linked() && core.It() == Abs().(phase := Reading(None)) && core.etag.Some? && core.opts.maxWriteAttempts > 0
      requires compaction.Ready? ==> Applies(compaction.fold, core.image)
      requires core.ver + 1 < |World().cloud.versions| && core.Sized()
      modifies this, core, core.cloud, core.disk
      ensures Valid() && Later(old(World()), World())
      ensures old(core.cloud.clock) <= core.cloud.clock
      ensures old(core.image).Next() <= core.image.Next()
      ensures r.Ok? ==> r.value == false && core.cloud.faults == old(core.cloud.faults)
      ensures r.Ok? ==> Current(old(World()).cloud, core.etag, core.ver)
      ensures compaction == old(compaction) || (old(compaction).Ready? && (compaction.Installed? || compaction.Superseded?))
      ensures r.Err? ==> !r.error.unknown && (r.error.source.StoreFailed? || r.error.source == Contention(OpRefresh, MAX_RACES))
      ensures r.Err? ==> Abs() == old(Abs())
      ensures r.Err? ==> Blames(r.error.source, old(core.cloud.faults), core.cloud.faults, old(core.cloud.clock), core.cloud.clock)
    {
      hide Inv, Extends, Recorded, Applies, Core<S>.Sized, Current, History;
      var pulled := Pull();
      if pulled.Err? {
        return Err(InstallError(pulled.error, false));
      }
      return Ok(false);
    }

    /** The core's refresh, and what a writer makes of it. The result says whether anything changed. */
    method Pull() returns (r: Result<bool, WalError>)
      requires core.Linked() && core.It() == Abs().(phase := Reading(None)) && core.etag.Some? && core.opts.maxWriteAttempts > 0
      requires (compaction.Ready? ==> Applies(compaction.fold, core.image)) && core.Sized()
      modifies this, core, core.cloud, core.disk
      ensures Valid() && Later(old(World()), World())
      ensures old(core.cloud.clock) <= core.cloud.clock
      ensures old(core.image).Next() <= core.image.Next()
      ensures r.Ok? ==> Current(old(World()).cloud, core.etag, core.ver) && |old(World()).cloud.Log()| <= core.image.Next()
      ensures r.Ok? ==> (r.value <==> core.etag != old(core.etag)) && core.cloud.faults == old(core.cloud.faults)
      ensures r.Ok? && !r.value ==> core.image == old(core.image) && core.state == old(core.state)
      ensures compaction == old(compaction) || (old(compaction).Ready? && (compaction.Installed? || compaction.Superseded?))
      ensures r.Err? ==> (r.error.StoreFailed? || r.error == Contention(OpRefresh, MAX_RACES)) && Abs() == old(Abs())
      ensures r.Err? ==> Blames(r.error, old(core.cloud.faults), core.cloud.faults, old(core.cloud.clock), core.cloud.clock)
    {
      hide Inv, Extends, Recorded, Abandoned, Adopt, Applies, Core<S>.Sized, Current, History;
      ghost var was := core.It();
      var refreshed := core.Refresh();
      if refreshed.Err? {
        return Err(refreshed.error);
      }
      HeldEtag(was, World(), core.ver, core.state);
      Settle(was, refreshed.value);
      return Ok(refreshed.value.changed);
    }

    /** What every refresh ends with: re-check the pending fold, queue the snapshot that was left behind. */
    method Settle(ghost was: Handle<S>, refreshed: Refreshed)
      requires core.Linked() && core.Holds(core.It()) && core.etag.Some? && core.opts.maxWriteAttempts > 0
      requires !refreshed.changed ==> core.It() == Abs() && refreshed.superseded == None
                                      && (compaction.Ready? ==> Applies(compaction.fold, core.image))
      requires refreshed.changed ==> Left(was, refreshed)
      requires core.Sized()
      modifies this`compaction, this`garbage, this`overflowed, core.disk`snaps
      ensures Valid()
      ensures refreshed.superseded.Some? ==> Offered(old(Abs()), Abs(), refreshed.superseded.value.key)
      ensures compaction == old(compaction) || (old(compaction).Ready? && (compaction.Installed? || compaction.Superseded?))
    {
      hide Inv, Extends, Recorded, Abandoned, Adopt, Discard, Protocol.QueueObsolete, Core<S>.Sized;
      if refreshed.changed {
        AdoptCore(was, World().cloud.versions[core.ver], core.ver, core.state);
        AdoptSettles(was, World().cloud.versions[core.ver], core.ver, core.state);
      }
      DiscardAccounts(Abs());
      DiscardSupersededFold();
      if refreshed.superseded.Some? {
        OfferedByQueueing(Abs(), refreshed.superseded.value.key);
      }
      QueueSuperseded(refreshed.superseded);
    }

    /** The apply-and-push loop of an accepted append. */
    method ApplyAndPush(entries: seq<Bytes>, first: nat)
      modifies core`image, core`state
      ensures core.image == old(core.image).(entries := old(core.image).entries + entries)
      ensures core.state == Replay(World().app, old(core.state), first, entries)
    {
      ghost var held, state := core.image, core.state;
      for i := 0 to |entries|
        invariant core.image == WalImage(held.snapshot, held.entries + entries[..i])
        invariant Replay(World().app, state, first, entries) == Replay(World().app, core.state, first + i, entries[i..])
      {
        core.state := World().app.apply(core.state, first + i, entries[i]);
        core.image := core.image.(entries := core.image.entries + [entries[i]]);
      }
      assert entries[..|entries|] == entries;
    }

    /** Afterwards the fields are what the protocol installs. */
    method Push(entries: seq<Bytes>, first: nat, ghost was: Handle<S>, ghost id: nat)
      requires Linkable() && Accepted(was, entries, id) && first == was.image.Next()
      modifies core`image, core`state
      ensures Valid() && core.image.Next() == first + |entries|
    {
      hide Inv, Recorded, Layout, FoldIn, Candidate, Replay;
      InstallIsPush(World().app, was, entries, World().cloud.versions[core.ver], core.ver);
      ApplyAndPush(entries, first);
    }

    // ----- compaction -----

    /** Time passes: everybody else acts, this handle does not. */
    method Elapse() returns (turn: Turn)
      requires Valid()
      modifies core.cloud`world, core.cloud`clock
      ensures Valid() && Abs() == old(Abs()) && Later(old(World()), World())
      ensures turn == core.cloud.turns(old(core.cloud.clock)) && core.cloud.clock == old(core.cloud.clock) + 1
    {
      hide Inv, Extends, Recorded;
      ghost var start := World();
      turn := core.cloud.Interfere(Client(core.me));
      core.disk.Ages(start.cloud, World().cloud);
    }

    /** This handle's own protocol step. */
    method Act(s: Step)
      requires Valid() && Enabled(World(), s)
      modifies core.cloud`world
      ensures World() == After(old(World()), s) && Later(old(World()), World())
      ensures core.cloud.Valid() && core.disk.Valid(World().cloud)
    {
      hide Inv, Extends, Recorded, Enabled;
      ghost var start := World();
      core.cloud.Do(s);
      core.disk.Ages(start.cloud, World().cloud);
    }

    ghost predicate JobFinished()
      reads `compaction, core.cloud
    {
      compaction.Running? && compaction.job in World().jobs && Finished(World().jobs[compaction.job])
    }

    /** The compactor has finished, and its outcome reaches this handle with the next turn. */
    ghost predicate Arrived()
      reads `compaction, core.cloud
    {
      JobFinished() && core.cloud.turns(core.cloud.clock).reply.Honest?
    }

    /** Takes up the outcome of a finished compactor, then re-checks the fold against the current image. */
    method FinishCompaction()
      requires Valid() && JobFinished()
      modifies this, core.cloud`world, core.disk`snaps
      ensures Valid() && Later(old(World()), World())
      ensures old(core.cloud.clock) <= core.cloud.clock
      ensures !compaction.Running? && core.image == old(core.image) && core.state == old(core.state)
      ensures old(compaction).job in World().jobs && World().jobs == old(World()).jobs
      ensures TakenUp(World().jobs[old(compaction).job], core.image, compaction)
    {
      hide Inv, Extends, Recorded, Applies;
      ghost var start := World();
      JobShape(start, compaction.job);
      var job := World().jobs[compaction.job];
      Act(OfHandle(core.me, Finish));
      if job.phase.Done? {
        compaction := Ready(SnapshotRef(job.phase.key, job.Count() - 1));
        DiscardSupersededFold();
      } else {
        compaction := Failed;
      }
    }

    /** Folds in a compactor whose outcome has arrived; a running one is left alone. */
    method IntegrateCompaction()
      requires Valid()
      modifies this, core.cloud`world, core.cloud`clock, core.disk`snaps
      ensures Valid() && Later(old(World()), World())
      ensures old(core.cloud.clock) <= core.cloud.clock
      ensures core.image == old(core.image) && core.state == old(core.state)
      ensures !old(compaction).Running? ==>
                compaction == old(compaction) && World() == old(World()) && core.cloud.clock == old(core.cloud.clock)
      ensures old(compaction).Running? ==> Integrated(core.cloud.turns(old(core.cloud.clock)), World(), old(compaction).job, core.image, compaction)
      ensures old(Arrived()) ==> compaction != old(compaction)
    {
      hide Inv, Extends, Recorded;
      ghost var start := World();
      ReadyApplies(start, core.me);
      ExtendsItself(start.cloud);
      if !compaction.Running? {
        return;
      }
      var turn := Elapse();
      ghost var waited := World();
      JobsStay(start, waited);
      ReadyApplies(waited, core.me);
      if turn.reply.Honest? && Finished(World().jobs[compaction.job]) {
        FinishCompaction();
        LaterTransitive(start, waited, World());
      }
    }

    method SyncCompaction()
      requires Valid()
      modifies this, core.cloud`world, core.cloud`clock, core.disk`snaps
      ensures Valid() && Later(old(World()), World())
      ensures old(core.cloud.clock) <= core.cloud.clock
      ensures core.image == old(core.image) && core.state == old(core.state)
      ensures !old(compaction).Running? ==>
                compaction == old(compaction) && World() == old(World()) && core.cloud.clock == old(core.cloud.clock)
      ensures old(compaction).Running? ==> Integrated(core.cloud.turns(old(core.cloud.clock)), World(), old(compaction).job, core.image, compaction)
      ensures old(Arrived()) ==> compaction != old(compaction)
    {
      hide Inv, Extends, Recorded, Applies, JobsExtend;
      IntegrateCompaction();
      ReadyApplies(World(), core.me);
      DiscardSupersededFold();
    }

    method CurrentCompactionStatus() returns (r: Result<CompactionStatus, WalError>)
      ensures r.Err? <==> compaction.Failed?
      ensures r.Err? ==> r.error == CompactionFailed
      ensures r.Ok? ==> (r.value.StatusIdle? <==> compaction.Idle?) && (r.value.StatusRunning? <==> compaction.Running?)
                        && (r.value.StatusReady? <==> compaction.Ready?) && (r.value.StatusInstalled? <==> compaction.Installed?)
    {
      match compaction {
        case Idle => r := Ok(StatusIdle);
        case Running(_) => r := Ok(StatusRunning);
        case Ready(_) => r := Ok(StatusReady);
        case Installed => r := Ok(StatusInstalled);
        case Superseded => r := Ok(StatusSuperseded);
        case Failed => r := Err(CompactionFailed);
      }
    }

    /** Blocks until a running compactor reports, or its channel turns out to be disconnected. */
    method WaitForCompaction() returns (r: Result<CompactionStatus, WalError>)
      requires Valid()
      modifies this, core.cloud`world, core.cloud`clock, core.disk`snaps
      ensures Valid() && Later(old(World()), World()) && !compaction.Running?
      ensures old(core.cloud.clock) <= core.cloud.clock
      ensures core.image == old(core.image) && core.state == old(core.state)
      ensures !old(compaction).Running? ==> compaction == old(compaction) && World() == old(World())
      ensures old(compaction).Running? ==>
                && core.cloud.clock == old(core.cloud.clock) + 1 && old(compaction).job in World().jobs
                && TakenUp(World().jobs[old(compaction).job], core.image, compaction)
      ensures r.Ok? <==> !compaction.Failed?
      ensures r.Err? ==> r.error == CompactionFailed
    {
      hide Inv, Extends, Recorded, Applies, Enabled, After;
      ghost var start := World();
      ReadyApplies(start, core.me);
      ExtendsItself(start.cloud);
      if compaction.Running? {
        var _ := Elapse();
        ghost var waited := World();
        ReadyApplies(waited, core.me);
        if !World().jobs[compaction.job].phase.Done? {
          GiveUpShape(waited, compaction.job);
          Act(OfJob(compaction.job, GiveUpJob));
          LaterTransitive(start, waited, World());
        }
        ghost var reported := World();
        FinishCompaction();
        LaterTransitive(start, reported, World());
      }
      ReadyApplies(World(), core.me);
      DiscardSupersededFold();
      r := CurrentCompactionStatus();
    }

    /** Starts a compactor on the current image, or records that no thread could be had. */
    method SpawnCompaction() returns (started: bool)
      requires Valid() && core.image.entries != [] && !compaction.Running? && !compaction.Ready?
      modifies this`compaction, core.cloud`world, core.cloud`clock
      ensures Valid() && Later(old(World()), World())
      ensures old(core.cloud.clock) <= core.cloud.clock
      ensures started <==> compaction.Running?
      ensures started ==> Compacts(World(), compaction.job, core.image) && compaction.job !in old(World()).jobs
      ensures !started ==> compaction.Failed? && core.cloud.turns(old(core.cloud.clock)).job in World().jobs
    {
      hide Inv, Extends, Recorded, Enabled, After, Compacts;
      ghost var start := World();
      var turn := Elapse();
      ghost var waited := World();
      SpawnShape(waited, core.me, turn.job);
      if turn.job in World().jobs {
        Act(OfHandle(core.me, SpawnFailed));
        compaction := Failed;
      } else {
        Act(Spawn(core.me, turn.job));
        compaction := Running(turn.job);
      }
      LaterTransitive(start, waited, World());
      started := compaction.Running?;
    }

    method CompactNow() returns (started: bool)
      requires Valid()
      modifies this, core.cloud`world, core.cloud`clock, core.disk`snaps
      ensures Valid() && Later(old(World()), World())
      ensures old(core.cloud.clock) <= core.cloud.clock
      ensures core.image == old(core.image) && core.state == old(core.state)
      ensures started ==>
                && core.image.entries != [] && compaction.Running? && compaction.job !in old(World()).jobs
                && Compacts(World(), compaction.job, core.image)
      ensures !started ==>
                || core.image.entries == [] || compaction.Failed?
                || (compaction.Ready? && (old(compaction).Running? || compaction == old(compaction)))
                || (old(compaction).Running? && compaction == old(compaction))
      ensures !started && core.image.entries != [] && !old(compaction).Running? && !old(compaction).Ready? ==>
                compaction.Failed? && core.cloud.turns(old(core.cloud.clock)).job in World().jobs
      ensures old(Arrived()) ==> compaction != old(compaction)
    {
      hide Inv, Extends, Recorded;
      ghost var start := World();
      SyncCompaction();
      if compaction.Running? || compaction.Ready? || core.image.entries == [] {
        return false;
      }
      ghost var synced := World();
      started := SpawnCompaction();
      LaterTransitive(start, synced, World());
    }

    function CurrentStats(): Stats
      reads this, core
    {
      var next := core.image.Next();
      Stats(if next == 0 then None else Some(next - 1),
            if core.image.snapshot.None? then None else Some(core.image.snapshot.value.lsn),
            |core.image.entries|,
            Sum(seq(|core.image.entries|, i requires 0 <= i < |core.image.entries| reads core => |core.image.entries[i]|)),
            core.imageLen)
    }

    /** No work is pending, there is something to fold, and the application asks for it. */
    predicate Due()
      reads this, core, core.cloud
    {
      && !compaction.Running? && !compaction.Ready? && !compaction.Failed? && core.image.entries != []
      && World().app.shouldCompact(CurrentStats())
    }

    /** After a successful append. A recorded failure waits for the caller, so it is never overwritten here. */
    method MaybeTriggerCompaction()
      requires Valid()
      modifies this, core.cloud`world, core.cloud`clock, core.disk`snaps
      ensures Valid() && Later(old(World()), World())
      ensures old(core.cloud.clock) <= core.cloud.clock
      ensures core.image == old(core.image) && core.state == old(core.state)
      ensures !old(Due()) ==> compaction == old(compaction) && World() == old(World())
      ensures old(Due()) ==>
                if compaction.Running? then Compacts(World(), compaction.job, core.image) && compaction.job !in old(World()).jobs
                else compaction.Failed? && core.cloud.turns(old(core.cloud.clock)).job in World().jobs
    {
      hide Inv, Extends, Recorded;
      ExtendsItself(World().cloud);
      if Due() {
        var _ := CompactNow();
      }
    }

    /** Acknowledges a recorded compactor failure; nothing else is touched. */
    method TakeCompactionError() returns (taken: bool)
      requires Valid()
      modifies this, core.cloud`world, core.cloud`clock, core.disk`snaps
      ensures Valid() && Later(old(World()), World())
      ensures core.image == old(core.image) && core.state == old(core.state)
      ensures taken ==> compaction.Idle?
      ensures old(compaction).Failed? ==> taken
      ensures !taken && !old(compaction).Running? ==> compaction == old(compaction)
      ensures !compaction.Failed?
      ensures old(Arrived()) ==> compaction != old(compaction)
    {
      hide Inv, Extends, Recorded;
      ghost var start := World();
      IntegrateCompaction();
      taken := compaction.Failed?;
      if taken {
        ghost var integrated := World();
        Act(OfHandle(core.me, Acknowledge));
        compaction := Compaction.Idle;
        LaterTransitive(start, integrated, World());
      }
    }

    // ----- refresh -----

    method Refresh() returns (r: Result<bool, WalError>)
      requires Valid()
      modifies this, core, core.cloud, core.disk
      ensures Valid() && Later(old(World()), World())
      ensures r.Err? ==> core.image == old(core.image) && core.state == old(core.state) && core.etag == old(core.etag)
      ensures r == Ok(false) ==> core.image == old(core.image) && core.state == old(core.state)
      ensures r.Ok? ==> |old(World()).cloud.Log()| <= core.image.Next() && |old(World()).cloud.versions| - 1 <= core.ver
      ensures r.Ok? ==> (r.value <==> core.etag != old(core.etag)) && core.cloud.faults == old(core.cloud.faults)
      ensures r.Err? ==> Blames(r.error, old(core.cloud.faults), core.cloud.faults, old(core.cloud.clock), core.cloud.clock)
      ensures r.Err? ==> r.error.StoreFailed? || r.error == Contention(OpRefresh, MAX_RACES)
      ensures old(core.image).Next() <= core.image.Next()
      ensures old(Arrived()) ==> compaction != old(compaction)
    {
      hide Inv, Extends, Recorded, Applies, Core<S>.Sized, History, JobsExtend, Integrated;
      ghost var start := World();
      SyncCompaction();
      ghost var synced := World();
      ReadyApplies(synced, core.me);
      Act(OfHandle(core.me, StartRead));
      ghost var reading := World();
      LaterTransitive(start, synced, reading);
      LogGrows(start, reading);
      r := Pull();
      LaterTransitive(start, reading, World());
    }

    // ----- appends -----

    /** What follows an accepted PUT: apply and push the batch, then maybe start a compactor. */
    method Complete(entries: seq<Bytes>, first: nat, single: bool,
                    ghost was: Handle<S>, ghost id: nat, ghost start: World<S>, ghost batch: seq<Bytes>, ghost earlier: seq<nat>)
      requires Linkable() && first == was.image.Next() && entries != [] && Later(start, World())
      requires Accepted(was, entries, id) && World().cloud.Landed(id) && Committed(World().cloud, first, entries)
      requires id < |World().cloud.requests| && World().cloud.requests[id].batch == entries
      requires AllDead(World().cloud, earlier) && Attempts(start, World(), batch, earlier + [id])
      modifies this, core`image, core`state, core.cloud`world, core.cloud`clock, core.disk`snaps
      ensures old(core.cloud.clock) <= core.cloud.clock
      ensures Valid() && Later(start, World()) && Attempts(start, World(), batch, earlier + [id])
      ensures Newer(old(World()).jobs, old(compaction), compaction)
      ensures core.image.Next() == first + |entries|
      ensures Outcome(World(), core.me, batch, single, earlier + [id], Ok((first, first + |entries|)))
    {
      hide Inv, Extends, Recorded, Attempts, AllDead, Install, FoldIn, Committed, Applies, NewJob, Outcome, Later;
      Push(entries, first, was, id);
      ghost var pushed := World();
      MaybeTriggerCompaction();
      LaterTransitive(start, pushed, World());
      CommittedStays(pushed, World(), start, batch, earlier, id, first, entries);
      DoneOutcome(World(), core.me, batch, single, earlier, id, first, entries);
    }

    /** One round of an append: a CAS attempt and, when it is lost, the decision what to try next. */
    method Round(entries: seq<Bytes>, attempt: nat, single: bool, ghost start: World<S>, ghost batch: seq<Bytes>, ghost earlier: seq<nat>)
      returns (done: Option<Result<(nat, nat), WriteError>>, next: seq<Bytes>, ghost ids: seq<nat>)
      requires Valid() && entries != [] && attempt <= core.opts.maxWriteAttempts && Later(start, World())
      requires Attempts(start, World(), batch, earlier) && AllDead(World().cloud, earlier) && Prepared(World(), core.me, batch, earlier, entries)
      requires single && |batch| == 1 ==> |entries| == 1
      requires |earlier| + 1 == attempt
      requires Inv(start)
      modifies this, core, core.cloud, core.disk
      ensures old(core.cloud.clock) <= core.cloud.clock
      ensures Valid() && Later(start, World()) && |ids| <= attempt && Attempts(start, World(), batch, ids)
      ensures old(core.image).Next() <= core.image.Next()
      ensures done.None? ==> attempt < core.opts.maxWriteAttempts && AllDead(World().cloud, ids) && Prepared(World(), core.me, batch, ids, next)
      ensures done.None? ==> |ids| == attempt && core.cloud.faults == old(core.cloud.faults)
      ensures done.Some? && done.value.Ok? ==> core.cloud.faults == old(core.cloud.faults)
      ensures done.Some? && done.value.Err? ==>
                && Blames(done.value.error.source, old(core.cloud.faults), core.cloud.faults, old(core.cloud.clock), core.cloud.clock)
                && (done.value.error.source.Contention? && done.value.error.source.operation.OpWrite? ==>
                      |ids| == attempt == core.opts.maxWriteAttempts)
      ensures Newer(old(World()).jobs, old(compaction), compaction)
      ensures done.None? && single && |batch| == 1 ==> |next| == 1
      ensures done.Some? ==> Outcome(World(), core.me, batch, single, ids, done.value)
      ensures done.Some? && done.value.Ok? ==>
                var (from, upto) := done.value.value;
                |start.cloud.Log()| <= from && upto == core.image.Next() == from + |entries|
    {
      hide Inv, Extends, Recorded, Attempts, Prepared, AllDead, Accepted, Sent, Committed, Outcome, Later, History, TooBig, Newer, Valid;
      Basics();
      ghost var before := World();
      ghost var was := Abs();
      var first := core.image.Next();
      var tried, sent := TryInstall(entries);
      LaterTransitive(start, before, World());
      ghost var mid, settled := World(), compaction;
      NewerLater(before, mid, was.compaction, settled, settled);
      ids := earlier + sent;
      AttemptsGrow(start, before, World(), core.me, batch, earlier, entries, sent);
      AttemptIds(start, World(), batch, ids);
      next := entries;
      if tried.Err? {
        Basics();
        PreparedStays(before, World(), core.me, batch, earlier, entries);
        FailedOutcome(World(), core.me, batch, single, earlier, sent, entries, tried.error);
        return Some(Err(WriteError(entries, tried.error.source, tried.error.unknown))), next, ids;
      }
      if tried.value {
        AcceptedVersion(was, entries, sent[0]);
        AcceptedCommits(before, World(), core.me, entries, core.ver);
        LandsAfter(start, before, World(), core.me, entries, core.ver);
        Complete(entries, first, single, was, sent[0], start, batch, earlier);
        NewerLater(before, mid, was.compaction, settled, compaction);
        return Some(Ok((first, first + |entries|))), next, ids;
      }
      Basics();
      if attempt == core.opts.maxWriteAttempts {
        ContendedOutcome(World(), core.me, batch, single, ids, entries);
        return Some(Err(WriteError(entries, Contention(OpWrite, attempt), false))), next, ids;
      }
      Reprepared(World(), core.me, batch, ids, entries);
      match World().app.reconcileBatch(core.state, entries) {
        case RetryBatch =>
        case ReplaceBatch(replacement) =>
          next := replacement;
          if single && |replacement| != 1 {
            InvalidOutcome(World(), core.me, batch, ids, entries, replacement);
            return Some(Err(WriteError(replacement, InvalidReplacement(|replacement|), false))), next, ids;
          }
        case AbortBatch =>
          AbortedOutcome(World(), core.me, batch, single, ids, entries);
          return Some(Err(WriteError(entries, ReconcileAborted, false))), next, ids;
      }
      return None, next, ids;
    }

    lemma Basics()
      requires Valid()
      ensures Inv(World()) && core.me in World().handles && core.opts.maxWriteAttempts > 0 && Later(World(), World())
      ensures World().handles[core.me] == Abs() && core.etag.Some?
    {
      hide Inv, Recorded;
      ExtendsItself(World().cloud);
    }

    /** Appends a batch in one CAS, retrying what `reconcileBatch` makes of it against every winner. */
    method Append(batch: seq<Bytes>, single: bool) returns (r: Result<(nat, nat), WriteError>, ghost ids: seq<nat>)
      requires Valid()
      modifies this, core, core.cloud, core.disk
      ensures Valid() && Later(old(World()), World())
      ensures |ids| <= core.opts.maxWriteAttempts && Attempts(old(World()), World(), batch, ids)
      ensures old(core.image).Next() <= core.image.Next()
      ensures Outcome(World(), core.me, batch, single, ids, r)
      ensures r.Err? && r.error.source.Contention? && r.error.source.operation.OpWrite? ==>
                r.error.source.attempts == |ids| == core.opts.maxWriteAttempts && AllDead(World().cloud, ids)
      ensures old(Arrived()) ==> compaction != old(compaction)
      ensures r.Ok? ==> core.cloud.faults == old(core.cloud.faults)
      ensures r.Err? ==> Blames(r.error.source, old(core.cloud.faults), core.cloud.faults, old(core.cloud.clock), core.cloud.clock)
      ensures r.Ok? ==> r.value.0 <= r.value.1 == core.image.Next()
      ensures r.Ok? && r.value.0 < r.value.1 ==> |old(World()).cloud.Log()| <= r.value.0
      ensures r.Ok? && single && |batch| == 1 ==> r.value.1 == r.value.0 + 1
    {
      hide Inv, Extends, Recorded, Attempts, Prepared, AllDead, Outcome, Later, History, Valid, Integrated, Newer;
      ghost var start, first, arrived := World(), compaction, Arrived();
      Basics();
      SyncCompaction();
      ids := [];
      NoAttempts(start, World(), core.me, batch);
      var entries := batch;
      var attempt := 1;
      while true
        invariant Valid() && Later(start, World()) && 1 <= attempt <= core.opts.maxWriteAttempts && |ids| + 1 == attempt
        invariant core.cloud.faults == old(core.cloud.faults)
        invariant old(core.cloud.clock) <= core.cloud.clock
        invariant Attempts(start, World(), batch, ids) && AllDead(World().cloud, ids)
        invariant Prepared(World(), core.me, batch, ids, entries)
        invariant single && |batch| == 1 ==> |entries| == 1
        invariant old(core.image).Next() <= core.image.Next()
        invariant arrived ==> compaction != first
        decreases core.opts.maxWriteAttempts - attempt
      {
        if entries == [] {
          var at := core.image.Next();
          Basics();
          AttemptIds(start, World(), batch, ids);
          NothingOutcome(World(), core.me, batch, single, ids, at);
          return Ok((at, at)), ids;
        }
        var done;
        ghost var before, was := World(), compaction;
        Basics();
        done, entries, ids := Round(entries, attempt, single, start, batch, ids);
        if arrived {
          NeverBack(start, before, first, was, compaction);
        }
        if done.Some? {
          ContentionMeans(World(), core.me, batch, single, ids, done.value);
          return done.value, ids;
        }
        attempt := attempt + 1;
      }
    }

    method Write(entry: Bytes) returns (r: Result<nat, WriteError>, ghost ids: seq<nat>)
      requires Valid()
      modifies this, core, core.cloud, core.disk
      ensures Valid() && Later(old(World()), World()) && Attempts(old(World()), World(), [entry], ids)
      ensures r.Err? ==> Outcome(World(), core.me, [entry], true, ids, Err(r.error))
      ensures r.Ok? ==> Outcome(World(), core.me, [entry], true, ids, Ok((r.value, r.value + 1)))
    {
      hide Inv, Extends, Recorded, Attempts, Outcome, Later;
      var range;
      range, ids := Append([entry], true);
      if range.Err? {
        return Err(range.error), ids;
      }
      return Ok(range.value.0), ids;
    }

    // ----- flush -----

    /** One attempt at publishing a ready fold on its own, adding no entries. */
    method InstallOnly() returns (r: Result<bool, InstallError>, ghost sent: seq<nat>)
      requires Valid() && compaction.Ready?
      modifies this, core, core.cloud, core.disk
      ensures Valid() && Later(old(World()), World())
      ensures old(core.cloud.clock) <= core.cloud.clock
      ensures !compaction.Running? && !compaction.Failed?
      ensures old(core.image).Next() <= core.image.Next()
      ensures r.Err? ==> r.error.source.Encoding? || r.error.source.StoreFailed? || r.error.source == Contention(OpRefresh, MAX_RACES)
      ensures r.Err? ==> Blames(r.error.source, old(core.cloud.faults), core.cloud.faults, old(core.cloud.clock), core.cloud.clock)
      ensures r.Err? && r.error.source.Encoding? ==> TooBig(World(), core.me, [])
      ensures r.Ok? ==> sent != [] && core.cloud.faults == old(core.cloud.faults)
      ensures r.Ok? && !r.value ==> AllDead(World().cloud, sent)
      ensures sent == [] || (sent == [|old(World()).cloud.requests|] && Sent(old(World()), World(), core.me, []))
      ensures r.Ok? && r.value ==> compaction.Installed? && core.image.Next() == old(core.image).Next() && core.state == old(core.state)
      ensures r.Err? ==> compaction == old(compaction)
    {
      hide Inv, Extends, Recorded, Install, FoldIn, Sent, Applies, AllDead, TooBig, Candidate, Layout;
      ghost var was := Abs();
      r, sent := TryInstall([]);
      if r.Ok? && r.value {
        FoldInstalls(World().app, was, World().cloud.versions[core.ver], core.ver);
        assert Valid();
      }
    }

    /** The retry loop of `flush`: afterwards no fold is pending, or the budget is used up. */
    method InstallReady() returns (r: Result<(), WalError>, ghost ids: seq<nat>)
      requires Valid() && !compaction.Running? && !compaction.Failed?
      modifies this, core, core.cloud, core.disk
      ensures Valid() && Later(old(World()), World())
      ensures old(core.cloud.clock) <= core.cloud.clock && old(core.image).Next() <= core.image.Next()
      ensures !compaction.Running? && !compaction.Failed? && (r.Ok? ==> !compaction.Ready?)
      ensures FoldsOnly(old(World()), World(), ids) && |ids| <= core.opts.maxWriteAttempts
      ensures r.Ok? ==> core.cloud.faults == old(core.cloud.faults)
      ensures r.Err? ==> Blames(r.error, old(core.cloud.faults), core.cloud.faults, old(core.cloud.clock), core.cloud.clock)
      ensures r.Err? ==> !r.error.CompactionFailed? && FoldFailure(r.error, ids)
    {
      hide Inv, Extends, Recorded, Applies, Layout, AllDead, TooBig, FoldsOnly, Sent, Core<S>.Sized;
      ghost var start := World();
      ExtendsItself(start.cloud);
      ids := [];
      NoFolds(start, World());
      var attempt := 1;
      while attempt <= core.opts.maxWriteAttempts && compaction.Ready?
        invariant Valid() && Later(start, World()) && !compaction.Running? && !compaction.Failed?
        invariant old(core.image).Next() <= core.image.Next() && old(core.cloud.clock) <= core.cloud.clock
        invariant 1 <= attempt <= core.opts.maxWriteAttempts + 1 && |ids| + 1 == attempt && core.cloud.faults == old(core.cloud.faults)
        invariant FoldsOnly(start, World(), ids) && (compaction.Ready? ==> AllDead(World().cloud, ids))
        invariant attempt > core.opts.maxWriteAttempts ==> !compaction.Ready?
      {
        ghost var before := World();
        var installed;
        ghost var sent;
        installed, sent := InstallOnly();
        LaterTransitive(start, before, World());
        FoldsOnlyGrow(start, before, World(), core.me, ids, sent);
        ids := ids + sent;
        ReadyApplies(World(), core.me);
        if installed.Err? {
          return Err(installed.error.source), ids;
        }
        if compaction.Ready? && attempt == core.opts.maxWriteAttempts {
          return Err(Contention(OpFlush, attempt)), ids;
        }
        attempt := attempt + 1;
      }
      return Ok(()), ids;
    }

    /** What an unsuccessful flush says about the fold and the requests `ids` it sent for it. */
    ghost predicate FoldFailure(e: WalError, ids: seq<nat>)
      reads this, core, core.cloud
    {
      && core.me in World().handles
      && match e
         case Contention(operation, n) =>
           && compaction.Ready? && Applies(compaction.fold, core.image)
           && if operation.OpFlush? then n == |ids| == core.opts.maxWriteAttempts && AllDead(World().cloud, ids)
              else operation.OpRefresh? && n == MAX_RACES
         case Encoding(_) => TooBig(World(), core.me, [])
         case StoreFailed(_) => true
         case _ => false
    }

    /** Waits for the compactor, installs its fold, checkpoints the cache and drains the garbage queue. */
    method Flush() returns (r: Result<MaintenanceStatus, WalError>, ghost ids: seq<nat>)
      requires Valid()
      modifies this, core, core.cloud, core.disk
      ensures Valid() && Later(old(World()), World())
      ensures !compaction.Running?
      ensures old(core.image).Next() <= core.image.Next()
      ensures r.Ok? ==>
                && (compaction.Idle? || compaction.Installed? || compaction.Superseded?)
                && garbage == [] && r.value.pending == 0 && r.value.overflowed == overflowed && !core.cacheDirty
                && (r.value.compaction.StatusInstalled? <==> compaction.Installed?)
                && (r.value.compaction.StatusSuperseded? <==> compaction.Superseded?)
      ensures FoldsOnly(old(World()), World(), ids) && |ids| <= core.opts.maxWriteAttempts
      ensures r.Ok? ==> core.cloud.faults == old(core.cloud.faults)
      ensures r.Err? ==> Blames(r.error, old(core.cloud.faults), core.cloud.faults, old(core.cloud.clock), core.cloud.clock)
      ensures r.Err? ==> if r.error.CompactionFailed? then compaction.Failed? && ids == [] else FoldFailure(r.error, ids)
    {
      hide Inv, Extends, Recorded, Layout, AllDead, FoldsOnly, FoldFailure, Core<S>.Sized;
      ghost var start := World();
      var waited := WaitForCompaction();
      if waited.Err? {
        NoFolds(start, World());
        return Err(waited.error), [];
      }
      ghost var ready := World();
      var installed;
      installed, ids := InstallReady();
      LaterTransitive(start, ready, World());
      FoldsOnlyEarlier(start, ready, World(), ids);
      if installed.Err? {
        return Err(installed.error), ids;
      }
      core.CheckpointCache();
      ghost var settled := World();
      var drained := CollectGarbage();
      LaterTransitive(start, settled, World());
      FoldsOnlyStay(start, settled, World(), ids);
      if drained.Err? {
        StoreFailure(StoreFailed(drained.error), ids);
        return Err(StoreFailed(drained.error)), ids;
      }
      var status := CurrentCompactionStatus();
      return Ok(MaintenanceStatus(status.value, |garbage|, overflowed)), ids;
    }

    lemma StoreFailure(e: WalError, ids: seq<nat>)
      requires core.me in World().handles && e.StoreFailed?
      ensures FoldFailure(e, ids)
    {
    }

    // ----- what holds between calls -----

    /** The state is the replay of the history up to the next LSN, and every LSN below it is committed. */
    lemma StateIsReplay()
      requires Valid()
      ensures core.image.Next() <= |World().cloud.Log()|
      ensures core.state == StateAt(World().app, World().cloud.Log()[..core.image.Next()])
    {
      hide Inv, Recorded, History, StateAt;
      HandleStateIsReplay(World(), core.me);
    }

    /** Encoding the held image gives exactly the bytes stored under the held validator. */
    lemma HeldImageIsStored()
      requires Valid()
      ensures core.ver < |World().cloud.versions| && World().cloud.versions[core.ver].etag == core.etag.value
      ensures Layout(core.image) == Layout(World().cloud.versions[core.ver].image) && Fits(core.image, core.opts.limits)
    {
      hide Inv, Recorded, HandleInv, Layout, Fits, Maintenance, PhaseInv, History, StateAt;
      HandleShape(World(), core.me);
      Unfold(World().app, World().cloud, World().jobs, core.It());
      StoredDecodes(World(), core.ver);
    }

    /** The protocol has moved this handle from `was` to the version the core now holds. */
    ghost predicate Left(was: Handle<S>, refreshed: Refreshed)
      reads this, core, core.cloud, core.disk
      requires core.me in World().handles
    {
      && was.writer && was == Abs().(etag := was.etag, ver := was.ver, image := was.image, state := was.state, phase := was.phase)
      && core.Adopted(was) && refreshed.superseded == Abandoned(was.image, core.image)
    }

    /** The PUT of `extra` over `was` has been accepted, and everything but `extra` itself is in place. */
    ghost predicate Accepted(was: Handle<S>, extra: seq<Bytes>, id: nat)
      reads this, core, core.cloud
    {
      && core.me in World().handles && (was.compaction.Ready? ==> Applies(was.compaction.fold, was.image))
      && core.ver == was.ver + 1 && core.ver < |World().cloud.versions| && World().cloud.versions[core.ver].put == id
      && core.It() == Install(World().app, was, extra, World().cloud.versions[core.ver], core.ver)
      && Abs() == FoldIn(was).(etag := core.etag, ver := core.ver) && core.etag == Some(World().cloud.versions[core.ver].etag)
      && core.imageLen == |Layout(Candidate(was.image, Pending(was.compaction), extra))|
    }

    lemma AcceptedVersion(was: Handle<S>, extra: seq<Bytes>, id: nat)
      requires Accepted(was, extra, id)
      ensures core.ver < |World().cloud.versions| && World().cloud.versions[core.ver].put == id && core.etag.Some?
    {
      hide Install, FoldIn, Candidate, Layout;
    }
  }

  /** Opens a writer, creating the WAL object if there is none. */
  method OpenWriter<S>(cloud: Backend<S>, disk: Disk, me: nat, opts: Options) returns (r: Result<WalTier<S>, WalError>)
    requires cloud.Valid() && disk.Valid(cloud.world.cloud) && me !in cloud.world.handles && opts.maxWriteAttempts > 0
    requires opts.limits == cloud.world.rules.limits && opts.maxSnapshot == cloud.world.rules.maxSnapshot
    modifies cloud, disk
    ensures cloud.Valid() && Later(old(cloud.world), cloud.world)
    ensures r.Err? ==> me !in cloud.world.handles && (r.error.StoreFailed? || r.error == Contention(OpOpen, MAX_RACES))
    ensures r.Ok? ==> fresh(r.value) && r.value.Valid() && r.value.compaction.Idle? && r.value.garbage == []
    ensures r.Ok? ==> Reaches(old(cloud.world), r.value.core) && cloud.faults == old(cloud.faults)
    ensures r.Err? ==> Blames(r.error, old(cloud.faults), cloud.faults, old(cloud.clock), cloud.clock)
    ensures r.Ok? ==> r.value.core.cloud == cloud && r.value.core.image.Next() <= |cloud.world.cloud.Log()|
                      && r.value.core.state == StateAt(cloud.world.app, cloud.world.cloud.Log()[..r.value.core.image.Next()])
  {
    hide Inv, Extends, Recorded, History, StateAt, Reaches, Layout;
    var core := CoreModel.Open(cloud, disk, me, opts, true, opts.maxPendingDeletes);
    if core.Err? {
      return Err(core.error);
    }
    HandleStateIsReplay(cloud.world, me);
    var tier := new WalTier(core.value);
    return Ok(tier);
  }

  /** A read-only follower. */
  class Replica<S> {
    const core: Core<S>

    constructor (core: Core<S>)
      requires core.Linked() && core.Holds(core.It()) && core.It().phase.Calm? && !core.It().writer && core.Sized()
      ensures Valid() && this.core == core
    {
      this.core := core;
    }

    ghost predicate Valid()
      reads core, core.cloud, core.disk
    {
      core.Linked() && core.Holds(core.It()) && core.It().phase.Calm? && !core.It().writer && core.Sized()
    }

    method Refresh() returns (r: Result<bool, WalError>)
      requires Valid()
      modifies core, core.cloud, core.disk
      ensures Valid() && Later(old(core.cloud.world), core.cloud.world)
      ensures old(core.image).Next() <= core.image.Next()
      ensures r != Ok(true) ==> core.image == old(core.image) && core.state == old(core.state) && core.etag == old(core.etag)
      ensures r.Ok? ==> |old(core.cloud.world).cloud.Log()| <= core.image.Next() && Current(old(core.cloud.world).cloud, core.etag, core.ver)
      ensures r.Ok? ==> (r.value <==> core.etag != old(core.etag)) && core.cloud.faults == old(core.cloud.faults)
      ensures r.Err? ==> Blames(r.error, old(core.cloud.faults), core.cloud.faults, old(core.cloud.clock), core.cloud.clock)
      ensures r.Err? ==> r.error.StoreFailed? || r.error == Contention(OpRefresh, MAX_RACES)
      ensures core.image.Next() <= |core.cloud.world.cloud.Log()|
      ensures core.state == StateAt(core.cloud.world.app, core.cloud.world.cloud.Log()[..core.image.Next()])
    {
      hide Inv, Extends, Recorded, Abandoned, Adopt, History, StateAt, Core<S>.Sized;
      ghost var start := core.cloud.world;
      core.cloud.Do(OfHandle(core.me, StartRead));
      ghost var reading := core.cloud.world;
      core.disk.Ages(start.cloud, reading.cloud);
      ghost var was := core.It();
      var refreshed := core.Refresh();
      LaterTransitive(start, reading, core.cloud.world);
      LogGrows(start, reading);
      AdoptReplica(was, core.cloud.world, core.ver, core.state);
      HandleStateIsReplay(core.cloud.world, core.me);
      if refreshed.Err? {
        return Err(refreshed.error);
      }
      return Ok(refreshed.value.changed);
    }
  }

  lemma AdoptReplica<S>(h: Handle<S>, w: World<S>, ver: nat, state: S)
    requires !h.writer
    ensures ver < |w.cloud.versions| ==>
              !Adopt(h, w.cloud.versions[ver], ver, state).writer && Adopt(h, w.cloud.versions[ver], ver, state).phase.Calm?
  {
  }
}
