/** The background compactor: reads its base, compacts, and publishes a snapshot under a key nobody holds. */
module Compactor {
  import opened Primitives
  import opened Image
  import opened App
  import opened Protocol
  import opened CloudInvariant
  import opened WorldInvariant
  import opened ProtocolTheorems
  import opened Environment
  import opened CoreModel

  datatype CompactError = FetchFailed(source: WalError) | BaseGone | CompactFailed | TooLarge | UploadFailed(store: StoreError) | NoId | Collisions

  /** The uploaded object restores to the replay of the history through `fold.lsn`. */
  ghost predicate Restorable<S>(w: World<S>, fold: SnapshotRef) {
    && fold.key in w.cloud.published && fold.key in w.cloud.tried && fold.key !in w.cloud.foreign
    && fold.lsn < |w.cloud.Log()|
    && w.app.restore(w.cloud.tried[fold.key].bytes) == Ok(StateAt(w.app, w.cloud.Log()[..fold.lsn + 1]))
  }

  lemma DoneRestores<S>(w: World<S>, j: nat)
    requires Inv(w) && j in w.jobs && w.jobs[j].phase.Done?
    ensures w.jobs[j].Count() > 0 && Restorable(w, SnapshotRef(w.jobs[j].phase.key, w.jobs[j].Count() - 1))
  {
    hide Fits, History, StateAt, HandleInv, RequestInv, Link, Chain;
    assert JobInv(w.rules, w.cloud, w.jobs[j]);
    var key := w.jobs[j].phase.key;
    assert SnapInv(w.rules, w.cloud, w.cloud.tried[key]);
    assert w.rules.rep(w.cloud.tried[key].bytes, w.cloud.Log()[..w.jobs[j].Count()]);
  }

  /** What `Build` makes of a base that has just been read. */
  lemma BuildShape<S>(w: World<S>, j: nat, cached: bool, base: Option<Bytes>)
    requires j in w.jobs && w.jobs[j].phase.Started?
    requires w.jobs[j].baseKey.None? ==> base.None?
    requires var key := w.jobs[j].baseKey;
      key.Some? && base.Some? ==> SnapshotReadable(w.cloud, key.value, cached) && SnapshotCopy(w.cloud, key.value, base.value)
    requires w.jobs[j].baseKey.Some? && base.None? ==>
               !(SnapshotReadable(w.cloud, w.jobs[j].baseKey.value, cached) && w.jobs[j].baseKey.value in w.cloud.tried)
    ensures Enabled(w, OfJob(j, Build(cached)))
    ensures var job := w.jobs[j]; var after := After(w, OfJob(j, Build(cached)));
      && j in after.jobs && after.cloud == w.cloud && after.app == w.app
      && after.jobs[j] == job.(phase := after.jobs[j].phase)
      && after.jobs[j].phase ==
           if job.baseKey.Some? && base.None? then Aborted
           else match w.app.compact(base, Number(job.first, job.entries))
                case Ok(bytes) => if |bytes| <= w.rules.maxSnapshot then Built(bytes) else Aborted
                case Err(_) => Aborted
  {
    hide Number;
  }

  /** The callback's verdict on exactly this job: its base snapshot as published, its entries under their LSNs. */
  ghost function Compacted<S>(w: World<S>, job: Job): Result<Bytes, string> {
    var base := if job.baseKey.Some? && job.baseKey.value in w.cloud.tried then Some(w.cloud.tried[job.baseKey.value].bytes) else None;
    w.app.compact(base, Number(job.first, job.entries))
  }

  lemma CompactedBase<S>(w: World<S>, job: Job, base: Option<Bytes>)
    requires job.baseKey.Some? <==> base.Some?
    requires base.Some? ==> SnapshotCopy(w.cloud, job.baseKey.value, base.value)
    ensures Compacted(w, job) == w.app.compact(base, Number(job.first, job.entries))
  {
    hide Number;
  }

  lemma CompactedStays<S>(a: World<S>, b: World<S>, job: Job)
    requires Later(a, b) && (job.baseKey.Some? ==> job.baseKey.value in a.cloud.tried)
    ensures Compacted(b, job) == Compacted(a, job)
  {
    hide Number;
  }

  /** A base that cannot be read was published and has been deleted since. */
  lemma BaseWasDeleted<S>(w: World<S>, j: nat)
    requires j in w.jobs && w.jobs[j].baseKey.Some?
    requires Inv(w)
    ensures w.jobs[j].baseKey.value in w.cloud.tried
    ensures !SnapshotReadable(w.cloud, w.jobs[j].baseKey.value, false) ==> w.jobs[j].baseKey.value in w.cloud.deleted
  {
    hide Fits, History, Law, HandleInv, CloudInv;
    assert JobInv(w.rules, w.cloud, w.jobs[j]);
  }

  method GiveUpNow<S>(cloud: Backend<S>, disk: Disk, j: nat, ghost start: World<S>)
    requires cloud.Valid() && disk.Valid(cloud.world.cloud) && Later(start, cloud.world)
    requires j in cloud.world.jobs && !cloud.world.jobs[j].phase.Done?
    modifies cloud`world
    ensures cloud.Valid() && disk.Valid(cloud.world.cloud) && Later(start, cloud.world) && Later(old(cloud.world), cloud.world)
    ensures j in cloud.world.jobs && cloud.world.jobs[j].phase.Aborted?
  {
    hide Inv, Extends, Recorded;
    ghost var was := cloud.world;
    cloud.Do(OfJob(j, GiveUpJob));
    disk.Ages(was.cloud, cloud.world.cloud);
    LaterTransitive(start, was, cloud.world);
  }

  /** Tries fresh keys until one upload is confirmed. A collision never grants ownership of the existing
      object; a failed upload may have landed, so its key is neither installed nor deleted. */
  method PublishSnapshot<S>(cloud: Backend<S>, disk: Disk, j: nat, snapshot: Bytes) returns (r: Result<Text, CompactError>)
    requires cloud.Valid() && disk.Valid(cloud.world.cloud) && j in cloud.world.jobs && cloud.world.jobs[j].phase == Built(snapshot)
    modifies cloud
    ensures cloud.Valid() && disk.Valid(cloud.world.cloud) && Later(old(cloud.world), cloud.world)
    ensures cloud.clock <= old(cloud.clock) + MAX_RACES && j in cloud.world.jobs
    ensures r.Ok? ==> r.value !in old(cloud.world).cloud.tried && SnapshotCopy(cloud.world.cloud, r.value, snapshot)
    ensures r.Ok? ==> cloud.world.jobs[j] == old(cloud.world).jobs[j].(phase := Done(r.value))
    ensures r.Err? ==> cloud.world.jobs[j].phase.Aborted? && (r.error.UploadFailed? || r.error.NoId? || r.error.Collisions?)
    ensures cloud.faults == old(cloud.faults) + (if r.Err? && r.error.UploadFailed? then 1 else 0)
    ensures r.Err? && r.error.Collisions? ==> cloud.clock == old(cloud.clock) + MAX_RACES
    ensures r.Err? && r.error.NoId? ==> cloud.turns(cloud.clock).key in cloud.world.cloud.tried
  {
    hide Inv, Extends, Recorded;
    ghost var start := cloud.world;
    ExtendsItself(start.cloud);
    for attempt := 0 to MAX_RACES
      invariant cloud.Valid() && disk.Valid(cloud.world.cloud) && Later(start, cloud.world)
      invariant j in cloud.world.jobs && cloud.world.jobs[j] == start.jobs[j]
      invariant cloud.clock == old(cloud.clock) + attempt && cloud.faults == old(cloud.faults)
    {
      ghost var before := cloud.world;
      var key := cloud.turns(cloud.clock).key;
      if key in cloud.world.cloud.tried {
        // Ids are assumed never to be drawn twice; a script that does so stands for a failing generator.
        GiveUpNow(cloud, disk, j, start);
        TriedBefore(before.cloud, cloud.world.cloud);
        return Err(NoId);
      }
      TriedBefore(start.cloud, before.cloud);
      var put := cloud.UploadSnapshot(j, key, snapshot);
      LaterTransitive(start, before, cloud.world);
      disk.Ages(before.cloud, cloud.world.cloud);
      match put {
        case Ok(Written(_)) => return Ok(key);
        case Ok(PreconditionFailed) =>
        case Err(e) => return Err(UploadFailed(e));
      }
    }
    GiveUpNow(cloud, disk, j, start);
    return Err(Collisions);
  }

  lemma TriedBefore(c: Protocol.Cloud, d: Protocol.Cloud)
    requires Extends(c, d)
    ensures c.tried.Keys <= d.tried.Keys
  {
  }

  lemma SnapshotFacts<S>(w: World<S>, j: nat)
    requires Inv(w) && j in w.jobs
    ensures w.jobs[j].entries != []
    ensures w.jobs[j].phase.Built? ==> |w.jobs[j].phase.bytes| <= w.rules.maxSnapshot
    ensures w.jobs[j].phase.Done? ==> w.jobs[j].phase.key in w.cloud.published && w.jobs[j].phase.key in w.cloud.tried
  {
    hide Fits, History, Law, HandleInv, CloudInv;
    assert JobInv(w.rules, w.cloud, w.jobs[j]);
  }

  /** Reads the base and compacts. A base that is gone, a refused compaction and an oversized result end the job. */
  method BuildSnapshot<S>(cloud: Backend<S>, disk: Disk, j: nat, maxSnapshot: nat) returns (r: Result<Bytes, CompactError>)
    requires cloud.Valid() && disk.Valid(cloud.world.cloud) && j in cloud.world.jobs && cloud.world.jobs[j].phase.Started?
    requires maxSnapshot == cloud.world.rules.maxSnapshot
    modifies cloud, disk
    ensures cloud.Valid() && disk.Valid(cloud.world.cloud) && Later(old(cloud.world), cloud.world) && j in cloud.world.jobs
    ensures old(cloud.clock) <= cloud.clock <= old(cloud.clock) + 1
    ensures var job := old(cloud.world).jobs[j];
      match r
      case Ok(bytes) => cloud.world.jobs[j] == job.(phase := Built(bytes)) && Compacted(cloud.world, job) == Ok(bytes)
      case Err(e) => cloud.world.jobs[j].phase.Aborted? && Refused(cloud.world, job, e, maxSnapshot)
    ensures var job := old(cloud.world).jobs[j]; job.baseKey.Some? && r.Ok? ==> job.baseKey.value in cloud.world.cloud.tried
    ensures cloud.faults == old(cloud.faults) + (if r.Err? && r.error.FetchFailed? then 1 else 0)
  {
    hide Inv, Extends, Recorded, Compacted, Number, Enabled, After, SnapshotReadable;
    ghost var start := cloud.world;
    ExtendsItself(start.cloud);
    var job := cloud.world.jobs[j];
    var base: Option<Bytes> := None;
    var cached := false;
    if job.baseKey.Some? {
      var got;
      got, cached := FetchSnapshot(disk, cloud, Compactor(j), job.baseKey.value, maxSnapshot);
      if got.Err? {
        GiveUpNow(cloud, disk, j, start);
        return Err(FetchFailed(got.error));
      }
      base := got.value;
    }
    ghost var fetched := cloud.world;
    if job.baseKey.Some? {
      BaseWasDeleted(fetched, j);
    }
    BuildShape(fetched, j, cached, base);
    cloud.Do(OfJob(j, Build(cached)));
    LaterTransitive(start, fetched, cloud.world);
    disk.Ages(fetched.cloud, cloud.world.cloud);
    if job.baseKey.Some? && base.None? {
      DeletedStays(fetched, cloud.world, job.baseKey.value);
      return Err(BaseGone);
    }
    CompactedBase(fetched, job, base);
    CompactedStays(fetched, cloud.world, job);
    var snapshot := cloud.world.app.compact(base, Number(job.first, job.entries));
    if snapshot.Err? {
      return Err(CompactFailed);
    }
    if |snapshot.value| > maxSnapshot {
      return Err(TooLarge);
    }
    return Ok(snapshot.value);
  }

  /** The reasons for which a job ends before it uploads anything. */
  ghost predicate Refused<S>(w: World<S>, job: Job, e: CompactError, maxSnapshot: nat) {
    match e
    case FetchFailed(source) => job.baseKey.Some? && source.StoreFailed?
    case BaseGone => job.baseKey.Some? && job.baseKey.value in w.cloud.deleted
    case CompactFailed => Compacted(w, job).Err?
    case TooLarge => Compacted(w, job).Ok? && |Compacted(w, job).value| > maxSnapshot
    case _ => false
  }

  /** One compactor thread from start to finish. Only a confirmed upload is reported as a fold. */
  method RunCompaction<S>(cloud: Backend<S>, disk: Disk, j: nat, maxSnapshot: nat) returns (r: Result<SnapshotRef, CompactError>)
    requires cloud.Valid() && disk.Valid(cloud.world.cloud) && j in cloud.world.jobs && cloud.world.jobs[j].phase.Started?
    requires maxSnapshot == cloud.world.rules.maxSnapshot
    modifies cloud, disk
    ensures cloud.Valid() && disk.Valid(cloud.world.cloud) && Later(old(cloud.world), cloud.world)
    ensures cloud.clock <= old(cloud.clock) + 1 + MAX_RACES && j in cloud.world.jobs
    ensures var job := old(cloud.world).jobs[j];
      match r
      case Ok(fold) =>
        && cloud.world.jobs[j].phase == Done(fold.key) && fold.key !in old(cloud.world).cloud.tried && Restorable(cloud.world, fold)
        && fold.lsn + 1 == job.first + |job.entries| && Compacted(cloud.world, job) == Ok(cloud.world.cloud.tried[fold.key].bytes)
      case Err(e) =>
        && cloud.world.jobs[j].phase.Aborted?
        && match e
           case UploadFailed(_) => cloud.faults == old(cloud.faults) + 1
           case NoId => cloud.turns(cloud.clock).key in cloud.world.cloud.tried
           case Collisions => cloud.clock >= old(cloud.clock) + MAX_RACES
           case FetchFailed(_) => cloud.faults == old(cloud.faults) + 1 && Refused(cloud.world, job, e, maxSnapshot)
           case _ => Refused(cloud.world, job, e, maxSnapshot)
  {
    hide Inv, Extends, Recorded, Compacted, Number, Restorable;
    ghost var start := cloud.world;
    var job := cloud.world.jobs[j];
    SnapshotFacts(start, j);
    var snapshot := BuildSnapshot(cloud, disk, j, maxSnapshot);
    if snapshot.Err? {
      return Err(snapshot.error);
    }
    ghost var built := cloud.world;
    TriedBefore(start.cloud, built.cloud);
    var key := PublishSnapshot(cloud, disk, j, snapshot.value);
    LaterTransitive(start, built, cloud.world);
    CompactedStays(built, cloud.world, job);
    if key.Err? {
      return Err(key.error);
    }
    DoneRestores(cloud.world, j);
    disk.SaveSnapshot(cloud.world.cloud, key.value, snapshot.value);
    return Ok(SnapshotRef(key.value, job.Count() - 1));
  }
}
