/** The synced image and state shared by writers and replicas, and the two loops that bring them up to date. */
module CoreModel {
  import opened Primitives
  import opened Image
  import opened App
  import opened Protocol
  import opened CloudInvariant
  import opened WorldInvariant
  import opened ProtocolTheorems
  import opened Environment

  /** Bound on re-reading the WAL while compactions keep replacing the snapshot. */
  const MAX_RACES: nat := 8

  datatype CachePolicy = Disabled | EveryCommit | OnFlush

  datatype Options = Options(
    policy: CachePolicy, limits: ImageLimits, maxSnapshot: nat, maxWriteAttempts: nat, maxPendingDeletes: nat)

  /** The call whose retries ran out. */
  datatype Operation = OpOpen | OpRefresh | OpWrite | OpFlush

  datatype WalError =
    | Encoding(image: ImageError)
    | ReconcileAborted
    | Contention(operation: Operation, attempts: nat)
    | InvalidReplacement(actual: nat)
    | CompactionFailed
    | StoreFailed(store: StoreError)
    | AppFailed
    | CorruptWal

  /** An error is never made up: a store failure is the one error answer received meanwhile, any other error came
      with none; and reads that kept racing did take all their rounds of two requests. */
  ghost predicate Blames(e: WalError, faults: nat, faultsNow: nat, clock: nat, clockNow: nat) {
    && faultsNow == faults + (if e.StoreFailed? then 1 else 0)
    && (e.Contention? && (e.operation.OpRefresh? || e.operation.OpOpen?) ==> clockNow >= clock + 2 * MAX_RACES)
  }

  /** A held version at least as new as the one stored in `c`. */
  ghost predicate Current(c: Protocol.Cloud, etag: Option<Text>, ver: nat) {
    c.versions != [] ==> etag.Some? && |c.versions| - 1 <= ver
  }

  // ----- the local cache -----

  /** What other users of the cache directory did since the last access. */
  datatype Tamper = Keep | Evict | Swap(i: nat)

  /** A (validator, bytes) pair that was one of the accepted WAL objects. */
  ghost predicate Recorded(c: Protocol.Cloud, etag: Text, data: Bytes) {
    exists i :: 0 <= i < |c.versions| && c.versions[i].etag == etag && Layout(c.versions[i].image) == data
  }

  ghost predicate SnapshotCopy(c: Protocol.Cloud, key: Text, data: Bytes) {
    key in c.published && key in c.tried && c.tried[key].bytes == data
  }

  lemma RecordedLater(c: Protocol.Cloud, d: Protocol.Cloud, etag: Text, data: Bytes)
    requires Recorded(c, etag, data) && Extends(c, d)
    ensures Recorded(d, etag, data)
  {
    var i :| 0 <= i < |c.versions| && c.versions[i].etag == etag && Layout(c.versions[i].image) == data;
    assert d.versions[i] == c.versions[i];
  }

  /** The cache directory as its owner sees it. Any record may vanish or be replaced between accesses, but
      only by a record the same log saved: the record format turns everything else into a miss. */
  class Disk {
    const tamper: nat -> Tamper
    var clock: nat
    var wal: Option<(Text, Bytes)>
    var snaps: map<Text, Bytes>

    constructor (tamper: nat -> Tamper)
      ensures wal == None && snaps == map[]
    {
      this.tamper := tamper;
      clock := 0;
      wal := None;
      snaps := map[];
    }

    ghost predicate Valid(c: Protocol.Cloud)
      reads this
    {
      && (wal.Some? ==> Recorded(c, wal.value.0, wal.value.1))
      && (forall k :: k in snaps ==> SnapshotCopy(c, k, snaps[k]))
    }

    lemma Ages(c: Protocol.Cloud, d: Protocol.Cloud)
      requires Valid(c) && Extends(c, d)
      ensures Valid(d)
    {
      hide Layout;
      if wal.Some? {
        RecordedLater(c, d, wal.value.0, wal.value.1);
      }
    }

    method LoadWal(c: Protocol.Cloud) returns (r: Option<(Text, Bytes)>)
      requires Valid(c)
      modifies this
      ensures Valid(c) && r == wal
    {
      hide Layout;
      match tamper(clock) {
        case Keep =>
        case Evict => wal := None;
        case Swap(i) =>
          if i < |c.versions| {
            wal := Some((c.versions[i].etag, Layout(c.versions[i].image)));
          }
      }
      clock := clock + 1;
      r := wal;
    }

    method SaveWal(ghost c: Protocol.Cloud, etag: Text, data: Bytes)
      requires Valid(c) && Recorded(c, etag, data)
      modifies this`wal
      ensures Valid(c) && wal == Some((etag, data))
    {
      wal := Some((etag, data));
    }

    method LoadSnapshot(c: Protocol.Cloud, key: Text) returns (r: Option<Bytes>)
      requires Valid(c)
      modifies this
      ensures Valid(c) && wal == old(wal)
      ensures r.Some? ==> SnapshotCopy(c, key, r.value)
    {
      match tamper(clock) {
        case Keep =>
        case Evict => snaps := snaps - {key};
        case Swap(_) =>
          if key in c.published && key in c.tried {
            snaps := snaps[key := c.tried[key].bytes];
          }
      }
      clock := clock + 1;
      r := if key in snaps then Some(snaps[key]) else None;
    }

    method SaveSnapshot(ghost c: Protocol.Cloud, key: Text, data: Bytes)
      requires Valid(c) && SnapshotCopy(c, key, data)
      modifies this`snaps
      ensures Valid(c) && key in snaps && snaps[key] == data
    {
      snaps := snaps[key := data];
    }

    method RemoveSnapshot(ghost c: Protocol.Cloud, key: Text)
      requires Valid(c)
      modifies this`snaps
      ensures Valid(c) && snaps == old(snaps) - {key}
    {
      snaps := snaps - {key};
    }
  }

  // ----- shared helpers -----

  /** Applies `entries` in LSN order. */
  method ApplyAll<S>(app: WalApp<S>, state: S, lsn: nat, entries: seq<Bytes>) returns (r: S)
    ensures r == Replay(app, state, lsn, entries)
  {
    r := state;
    for i := 0 to |entries|
      invariant Replay(app, state, lsn, entries) == Replay(app, r, lsn + i, entries[i..])
    {
      r := app.apply(r, lsn + i, entries[i]);
    }
  }

  /** Restores the snapshot and applies the entries above it. */
  method RebuildState<S>(app: WalApp<S>, snapshot: Bytes, image: WalImage) returns (state: S)
    requires app.restore(snapshot).Ok?
    ensures state == Replay(app, app.restore(snapshot).value, image.First(), image.entries)
  {
    hide Replay;
    var base := app.restore(snapshot);
    state := ApplyAll(app, base.value, image.First(), image.EntriesFrom(image.First()));
  }

  /** `record_missing_snapshot`: the same version missing the same snapshot twice is corruption. */
  method RecordMissingSnapshot(previous: Option<(Text, Text)>, etag: Text, key: Text) returns (r: Result<Option<(Text, Text)>, WalError>)
    ensures r.Err? <==> previous == Some((etag, key))
    ensures r.Err? ==> r.error == CorruptWal
    ensures r.Ok? ==> r.value == Some((etag, key))
  {
    if previous == Some((etag, key)) {
      return Err(CorruptWal);
    }
    return Ok(Some((etag, key)));
  }

  ghost predicate Tracks(missed: Option<(Text, Text)>, phase: Option<Missed>) {
    match phase
    case None => missed.None?
    case Some(m) => missed == Some((m.etag, m.key))
  }

  /** Disk first, then the store, filling the cache. `None` means the object is gone. */
  method FetchSnapshot<S>(disk: Disk, cloud: Backend<S>, me: Actor, key: Text, maxBytes: nat)
    returns (r: Result<Option<Bytes>, WalError>, cached: bool)
    requires cloud.Valid() && disk.Valid(cloud.world.cloud) && maxBytes == cloud.world.rules.maxSnapshot
    modifies cloud, disk
    ensures cloud.Valid() && disk.Valid(cloud.world.cloud)
    ensures Later(old(cloud.world), cloud.world) && Untouched(me, old(cloud.world), cloud.world)
    ensures old(cloud.clock) <= cloud.clock <= old(cloud.clock) + 1 && disk.wal == old(disk.wal)
    ensures r.Ok? && r.value.Some? ==>
              SnapshotReadable(cloud.world.cloud, key, cached) && SnapshotCopy(cloud.world.cloud, key, r.value.value)
    ensures r.Ok? && r.value.None? ==> !cached && !(SnapshotReadable(cloud.world.cloud, key, cached) && key in cloud.world.cloud.tried)
    ensures r.Ok? && r.value.None? ==> cloud.clock == old(cloud.clock) + 1
    ensures r.Err? ==> r.error.StoreFailed? && cloud.faults == old(cloud.faults) + 1
    ensures r.Ok? ==> cloud.faults == old(cloud.faults)
  {
    hide Inv, Extends, Recorded;
    ExtendsItself(cloud.world.cloud);
    var hit := disk.LoadSnapshot(cloud.world.cloud, key);
    if hit.Some? {
      PublishedFits(cloud.world, key);
      assert |hit.value| <= maxBytes;
      return Ok(hit), true;
    }
    cached := false;
    ghost var was := cloud.world;
    var got := cloud.GetSnapshot(me, key);
    disk.Ages(was.cloud, cloud.world.cloud);
    match got {
      case Err(e) => r := Err(StoreFailed(e));
      case Ok(None) => r := Ok(None);
      case Ok(Some(bytes)) =>
        PublishedFits(cloud.world, key);
        assert |bytes| <= maxBytes;
        disk.SaveSnapshot(cloud.world.cloud, key, bytes);
        r := Ok(Some(bytes));
    }
  }

  /** Every published snapshot is within the budget all handles share. */
  lemma PublishedFits<S>(w: World<S>, key: Text)
    requires Inv(w) && key in w.cloud.tried
    ensures |w.cloud.tried[key].bytes| <= w.rules.maxSnapshot
  {
    hide Fits, Law, JobInv, HandleInv, RequestInv, Link, Chain;
    assert SnapInv(w.rules, w.cloud, w.cloud.tried[key]);
  }

  /** What the store returns always decodes, to the image that was published. */
  lemma StoredDecodes<S>(w: World<S>, i: nat)
    requires Inv(w) && i < |w.cloud.versions|
    ensures Fits(w.cloud.versions[i].image, w.rules.limits)
    ensures Parse(Layout(w.cloud.versions[i].image), w.rules.limits) == Ok(w.cloud.versions[i].image)
  {
    hide Fits, Law, JobInv, HandleInv, RequestInv, Link, Chain, Parse, Layout;
    assert VersionInv(w.rules, w.cloud, w.cloud.versions[i].image);
    ParseExact(Layout(w.cloud.versions[i].image), w.rules.limits, w.cloud.versions[i].image);
  }

  datatype Refreshed = Refreshed(changed: bool, superseded: Option<SnapshotRef>)

  // ----- Core -----

  class Core<S> {
    const cloud: Backend<S>
    const disk: Disk
    const me: nat
    const opts: Options
    var state: S
    var image: WalImage
    var etag: Option<Text>
    var imageLen: nat
    var cacheDirty: bool
    ghost var ver: nat  // the position of the held version, for the specification only

    constructor (cloud: Backend<S>, disk: Disk, me: nat, opts: Options, state: S, image: WalImage, ghost ver: nat)
      ensures this.cloud == cloud && this.disk == disk && this.me == me && this.opts == opts
      ensures this.state == state && this.image == image && this.etag == None && this.ver == ver
      ensures imageLen == 0 && !cacheDirty
    {
      this.cloud := cloud;
      this.disk := disk;
      this.me := me;
      this.opts := opts;
      this.state := state;
      this.image := image;
      this.etag := None;
      this.imageLen := 0;
      this.cacheDirty := false;
      this.ver := ver;
    }

    ghost predicate Linked()
      reads this, cloud, disk
    {
      && cloud.Valid() && me in cloud.world.handles && disk.Valid(cloud.world.cloud)
      && opts.limits == cloud.world.rules.limits && opts.maxSnapshot == cloud.world.rules.maxSnapshot
    }

    /** The recorded size is that of the held image. */
    ghost predicate Sized()
      reads `etag, `imageLen, `image
    {
      etag.Some? ==> imageLen == |Layout(image)|
    }

    ghost function It(): Handle<S>
      reads this, cloud
      requires me in cloud.world.handles
    {
      cloud.world.handles[me]
    }

    ghost predicate Holds(h: Handle<S>)
      reads this
    {
      h.etag == etag && h.ver == ver && h.image == image && h.state == state
    }

    /** The one place an accepted image version is recorded: cache, etag, size. */
    method RecordImagePut(e: Text, data: Bytes)
      requires disk.Valid(cloud.world.cloud) && Recorded(cloud.world.cloud, e, data)
      modifies this`etag, this`imageLen, this`cacheDirty, disk`wal
      ensures disk.Valid(cloud.world.cloud)
      ensures etag == Some(e) && imageLen == |data| && cacheDirty == opts.policy.OnFlush?
      ensures disk.wal == if opts.policy.EveryCommit? then Some((e, data)) else old(disk.wal)
    {
      if opts.policy.EveryCommit? {
        disk.SaveWal(cloud.world.cloud, e, data);
      }
      cacheDirty := opts.policy.OnFlush?;
      imageLen := |data|;
      etag := Some(e);
    }

    /** Saves precisely the held version: its validator and its stored bytes. */
    method CheckpointCache()
      requires Linked() && Holds(It()) && It().phase.Calm?
      modifies this`cacheDirty, disk`wal
      ensures Linked()
      ensures old(cacheDirty) && etag.Some? ==>
                !cacheDirty && disk.wal == Some((etag.value, Layout(image))) && Recorded(cloud.world.cloud, etag.value, Layout(image))
      ensures !old(cacheDirty) || etag.None? ==> disk.wal == old(disk.wal) && cacheDirty == old(cacheDirty)
    {
      hide Inv, Layout, Fits, Recorded;
      if !cacheDirty {
        return;
      }
      if etag.Some? {
        HeldIsRecorded(cloud.world, me);
        var data := EncodeView(image, None, 0, [], opts.limits);
        ViewNothing(image);
        if data.Ok? {
          disk.SaveWal(cloud.world.cloud, etag.value, data.value);
          cacheDirty := false;
        }
      }
    }

    /** One read of the WAL, and of its snapshot when entries were folded away unseen. */
    method ReadOnce(missed: Option<(Text, Text)>) returns (r: Result<Option<Refreshed>, WalError>, noted: Option<(Text, Text)>)
      requires Linked() && Holds(It()) && It().phase.Reading? && Tracks(missed, It().phase.missed)
      requires It().etag.Some? || !It().writer
      modifies this, cloud, disk
      ensures Linked() && Later(old(cloud.world), cloud.world) && old(cloud.clock) <= cloud.clock <= old(cloud.clock) + 2
      ensures r.Err? || (r.Ok? && r.value.None?) ==>
                image == old(image) && state == old(state) && etag == old(etag) && ver == old(ver) && It() == old(It()).(phase := It().phase)
      ensures r.Err? ==> r.error.StoreFailed? && (It().phase.Reading? || It().phase.Fetching?)
      ensures r.Ok? && r.value.None? ==> It().phase.Reading? && Tracks(noted, It().phase.missed)
      ensures r.Ok? && r.value.Some? && !r.value.value.changed ==>
                && Holds(It()) && It() == old(It()).(phase := Calm) && r.value.value.superseded == None
      ensures r.Ok? && r.value.Some? && r.value.value.changed ==> Adopted(old(It())) && r.value.value.superseded == Abandoned(old(image), image)
      ensures old(etag).Some? ==> etag.Some? && old(ver) <= ver
      ensures r.Ok? && r.value.Some? ==> Current(old(cloud.world).cloud, etag, ver) && (r.value.value.changed <==> etag != old(etag))
      ensures r.Ok? && r.value.None? ==> cloud.clock == old(cloud.clock) + 2
      ensures cloud.faults == old(cloud.faults) + (if r.Err? then 1 else 0)
      ensures old(Sized()) ==> Sized()
    {
      hide Inv, Fits, Layout, Parse, Recorded, Adopt, Extends, Replay, Enabled, After, Disk.Valid, Untouched, Tracks, Abandoned;
      noted := missed;
      ghost var start := cloud.world;
      var got := cloud.GetWal(me, etag);
      disk.Ages(start.cloud, cloud.world.cloud);
      if got.Err? {
        return Err(StoreFailed(got.error)), noted;
      }
      ghost var read := cloud.world;
      ReadShape(read, me);
      CurrentEarlier(start.cloud, read.cloud);
      if !got.value.Changed? {
        assert if got.value.Missing? then etag.None? else etag.Some?;
        if etag.Some? {
          HeldLast(read, me);
        }
        cloud.Do(OfHandle(me, ReadWal));
        disk.Ages(read.cloud, cloud.world.cloud);
        LaterTransitive(start, read, cloud.world);
        return Ok(Some(Refreshed(false, None))), noted;
      }
      StoredDecodes(read, |read.cloud.versions| - 1);
      var decoded := Decode(got.value.data, opts.limits);
      assert decoded == Ok(read.cloud.Last().image);
      var remote := decoded.value;
      cloud.Do(OfHandle(me, ReadWal));
      disk.Ages(read.cloud, cloud.world.cloud);
      LaterTransitive(start, read, cloud.world);
      LastRecorded(read.cloud, cloud.world.cloud);
      if remote.First() <= image.Next() {
        var next := ApplyAll(cloud.world.app, state, image.Next(), remote.EntriesFrom(image.Next()));
        var superseded := Replace(remote, next, got.value.etag, got.value.data, |read.cloud.versions| - 1);
        AdoptCore(read.handles[me], read.cloud.Last(), ver, state);
        return Ok(Some(Refreshed(true, superseded))), noted;
      }
      ghost var fetching := cloud.world;
      r, noted := FetchAndRebuild(missed, got.value.etag, got.value.data, remote);
      LaterTransitive(start, fetching, cloud.world);
      AdoptPhase(start.handles[me], fetching.handles[me].phase);
    }

    /** The held handle is `was`, moved to the version the fields now describe. */
    ghost predicate Adopted(was: Handle<S>)
      reads this, cloud, disk
      requires me in cloud.world.handles
    {
      && ver < |cloud.world.cloud.versions| && Holds(It())
      && It() == Adopt(was, cloud.world.cloud.versions[ver], ver, state)
    }

    /** Replaces the held image, as `refresh` does once the new state is complete. */
    method Replace(remote: WalImage, next: S, e: Text, data: Bytes, ghost at: nat) returns (superseded: Option<SnapshotRef>)
      requires disk.Valid(cloud.world.cloud) && Recorded(cloud.world.cloud, e, data)
      modifies this, disk
      ensures disk.Valid(cloud.world.cloud)
      ensures image == remote && state == next && etag == Some(e) && ver == at && imageLen == |data|
      ensures superseded == Abandoned(old(image), remote)
    {
      superseded := Abandoned(image, remote);
      if superseded.Some? {
        disk.RemoveSnapshot(cloud.world.cloud, superseded.value.key);
      }
      state := next;
      image := remote;
      ver := at;
      RecordImagePut(e, data);
    }

    /** The snapshot path of `refresh`: fetch, restore, replay the entries above it. */
    method FetchAndRebuild(missed: Option<(Text, Text)>, e: Text, data: Bytes, remote: WalImage)
      returns (r: Result<Option<Refreshed>, WalError>, noted: Option<(Text, Text)>)
      requires Linked() && Recorded(cloud.world.cloud, e, data) && remote.snapshot.Some? && data == Layout(remote)
      requires var h := It();
        && h.phase.Fetching? && Tracks(missed, h.phase.missed) && h.phase.ver < |cloud.world.cloud.versions|
        && cloud.world.cloud.versions[h.phase.ver].etag == e && cloud.world.cloud.versions[h.phase.ver].image == remote
      modifies this, cloud, disk
      ensures Linked() && Later(old(cloud.world), cloud.world) && old(cloud.clock) <= cloud.clock <= old(cloud.clock) + 1
      ensures r.Err? || (r.Ok? && r.value.None?) ==>
                image == old(image) && state == old(state) && etag == old(etag) && ver == old(ver) && It() == old(It()).(phase := It().phase)
      ensures r.Err? ==> r.error.StoreFailed? && It().phase.Fetching?
      ensures r.Ok? && r.value.None? ==> It().phase.Reading? && Tracks(noted, It().phase.missed)
      ensures r.Ok? && r.value.Some? ==> r.value.value.changed && Adopted(old(It())) && r.value.value.superseded == Abandoned(old(image), image)
      ensures r.Ok? && r.value.Some? ==> etag == Some(e) && ver == old(It()).phase.ver
      ensures r.Ok? && r.value.None? ==> cloud.clock == old(cloud.clock) + 1
      ensures cloud.faults == old(cloud.faults) + (if r.Err? then 1 else 0)
      ensures old(Sized()) ==> Sized()
    {
      hide Inv, Fits, Layout, Recorded, Adopt, Extends, Replay, Enabled, After;
      noted := missed;
      ghost var start := cloud.world;
      ghost var at := It().phase.ver;
      var sr := remote.snapshot.value;
      var got, cached := FetchSnapshot(disk, cloud, Client(me), sr.key, opts.maxSnapshot);
      if got.Err? {
        return Err(got.error), noted;
      }
      ghost var fetched := cloud.world;
      VersionStays(start.cloud, fetched.cloud, at);
      RecordedLater(start.cloud, fetched.cloud, e, data);
      FetchShape(fetched, me, cached);
      cloud.Do(OfHandle(me, ReadSnapshot(cached)));
      LaterTransitive(start, fetched, cloud.world);
      disk.Ages(fetched.cloud, cloud.world.cloud);
      VersionStays(fetched.cloud, cloud.world.cloud, at);
      RecordedLater(fetched.cloud, cloud.world.cloud, e, data);
      if got.value.None? {
        var again := RecordMissingSnapshot(missed, e, sr.key);
        assert again.Ok?;
        return Ok(None), again.value;
      }
      var next := RebuildState(cloud.world.app, got.value.value, remote);
      var superseded := Replace(remote, next, e, data, at);
      AdoptCore(start.handles[me], cloud.world.cloud.versions[at], at, state);
      return Ok(Some(Refreshed(true, superseded))), noted;
    }

    /** Pulls the latest WAL image and advances the state; a failure changes nothing. */
    method Refresh() returns (r: Result<Refreshed, WalError>)
      requires Linked() && Holds(It()) && It().phase == Reading(None) && (It().etag.Some? || !It().writer)
      modifies this, cloud, disk
      ensures Linked() && Later(old(cloud.world), cloud.world) && old(cloud.clock) <= cloud.clock <= old(cloud.clock) + 2 * MAX_RACES
      ensures r.Err? ==>
                && image == old(image) && state == old(state) && etag == old(etag) && ver == old(ver)
                && It() == old(It()).(phase := Calm) && Holds(It()) && (r.error.StoreFailed? || r.error == Contention(OpRefresh, MAX_RACES))
      ensures r.Ok? && !r.value.changed ==> Holds(It()) && It() == old(It()).(phase := Calm) && r.value.superseded == None
      ensures r.Ok? && r.value.changed ==> Adopted(old(It())) && r.value.superseded == Abandoned(old(image), image)
      ensures old(image).Next() <= image.Next()
      ensures r.Ok? ==> Current(old(cloud.world).cloud, etag, ver) && |old(cloud.world).cloud.Log()| <= image.Next()
      ensures r.Ok? ==> (r.value.changed <==> etag != old(etag)) && cloud.faults == old(cloud.faults)
      ensures r.Err? ==> Blames(r.error, old(cloud.faults), cloud.faults, old(cloud.clock), cloud.clock)
      ensures old(Sized()) ==> Sized()
    {
      hide Inv, Adopt, Extends, Recorded, Sized, Current, History;
      ghost var start := cloud.world;
      ExtendsItself(start.cloud);
      var missed: Option<(Text, Text)> := None;
      for attempt := 0 to MAX_RACES
        invariant Linked() && Later(start, cloud.world) && cloud.clock == old(cloud.clock) + 2 * attempt && cloud.faults == old(cloud.faults)
        invariant old(Sized()) ==> Sized()
        invariant image == old(image) && state == old(state) && etag == old(etag) && ver == old(ver)
        invariant It() == start.handles[me].(phase := It().phase) && It().phase.Reading? && Tracks(missed, It().phase.missed)
      {
        ghost var before := cloud.world;
        var once, noted := ReadOnce(missed);
        LaterTransitive(start, before, cloud.world);
        if once.Err? {
          GiveUpNow(start);
          return Err(once.error);
        }
        if once.value.Some? {
          AdoptPhase(start.handles[me], before.handles[me].phase);
          HeldEtag(start.handles[me], cloud.world, ver, state);
          NextRises(start, cloud.world, me);
          CurrentEarlierHeld(start.cloud, before.cloud, etag, ver);
          CurrentCovers(start, cloud.world, me);
          return Ok(once.value.value);
        }
        missed := noted;
      }
      GiveUpNow(start);
      return Err(Contention(OpRefresh, MAX_RACES));
    }

    method GiveUpNow(ghost start: World<S>)
      requires Linked() && Later(start, cloud.world) && (It().phase.Reading? || It().phase.Fetching?) && (It().etag.Some? || !It().writer)
      modifies cloud`world
      ensures Linked() && Later(start, cloud.world) && It() == old(It()).(phase := Calm)
    {
      hide Inv, Extends, Recorded;
      ghost var was := cloud.world;
      cloud.Do(OfHandle(me, GiveUp));
      LaterTransitive(start, was, cloud.world);
      disk.Ages(was.cloud, cloud.world.cloud);
    }

    lemma AdoptPhase(h: Handle<S>, phase: Phase)
      requires me in cloud.world.handles && h == h.(phase := h.phase)
      ensures Adopted(h.(phase := phase)) ==> Adopted(h)
    {
      if Adopted(h.(phase := phase)) {
        AdoptIgnoresPhase(h, phase, cloud.world.cloud.versions[ver], ver, state);
      }
    }
  }

  lemma HandleShape<S>(w: World<S>, h: nat)
    requires Inv(w) && h in w.handles
    ensures HandleInv(w.app, w.cloud, w.jobs, w.handles[h])
    ensures w.handles[h].etag.Some? ==> w.cloud.versions != []
    ensures w.handles[h].image.Next() >= 0 && !w.handles[h].phase.Corrupted?
  {
    hide HandleInv, CloudInv, Law, JobInv, Fits;
    Unfold(w.app, w.cloud, w.jobs, w.handles[h]);
  }

  /** The three ways a WAL read can go. */
  lemma ReadShape<S>(w: World<S>, h: nat)
    requires Inv(w) && h in w.handles && w.handles[h].phase.Reading?
    requires w.handles[h].etag.Some? || !w.handles[h].writer || w.cloud.versions != []
    ensures Enabled(w, OfHandle(h, ReadWal))
    ensures w.handles[h].etag.Some? ==> w.cloud.versions != [] && w.handles[h].ver < |w.cloud.versions|
    ensures var it := w.handles[h]; var after := After(w, OfHandle(h, ReadWal)); var n := |w.cloud.versions|;
      && h in after.handles && after.cloud == w.cloud && after.app == w.app && after.rules == w.rules
      && if n == 0 || it.etag == Some(w.cloud.Last().etag) then after.handles[h] == it.(phase := Calm)
         else if w.cloud.Last().image.First() <= it.image.Next() then
           after.handles[h] == Adopt(it, w.cloud.Last(), n - 1,
             Replay(w.app, it.state, it.image.Next(), w.cloud.Last().image.EntriesFrom(it.image.Next())))
         else after.handles[h] == it.(phase := Fetching(n - 1, it.phase.missed)) && w.cloud.Last().image.snapshot.Some?
  {
    hide Inv, Adopt, Replay, Fits, HandleInv;
    HandleShape(w, h);
    Unfold(w.app, w.cloud, w.jobs, w.handles[h]);
  }

  /** A handle that has moved from one accepted version to the same or a later one has lost no entry. */
  lemma NextRises<S>(a: World<S>, b: World<S>, h: nat)
    requires h in a.handles && h in b.handles && Later(a, b)
    requires a.handles[h].etag.Some? ==> b.handles[h].etag.Some? && a.handles[h].ver <= b.handles[h].ver
    requires Inv(a) && Inv(b)
    ensures a.handles[h].image.Next() <= b.handles[h].image.Next()
  {
    hide Inv, HandleInv, Maintenance, PhaseInv, CloudInv, Extends, History, StateAt;
    HandleShape(a, h);
    HandleShape(b, h);
    Unfold(a.app, a.cloud, a.jobs, a.handles[h]);
    Unfold(b.app, b.cloud, b.jobs, b.handles[h]);
    InvCloud(b);
    if a.handles[h].etag.Some? {
      VersionStays(a.cloud, b.cloud, a.handles[h].ver);
      VersionsOrdered(b.rules, b.cloud, a.handles[h].ver, b.handles[h].ver);
    }
  }

  /** A validator that is both held and stored is held at the last version. */
  lemma HeldLast<S>(w: World<S>, h: nat)
    requires h in w.handles && w.cloud.versions != [] && w.handles[h].etag == Some(w.cloud.Last().etag)
    requires Inv(w)
    ensures w.handles[h].ver == |w.cloud.versions| - 1
  {
    hide Inv, HandleInv, Layout;
    HandleShape(w, h);
    Unfold(w.app, w.cloud, w.jobs, w.handles[h]);
    if w.handles[h].ver < |w.cloud.versions| - 1 {
      VersionsNeverRepeat(w, w.handles[h].ver, |w.cloud.versions| - 1);
    }
  }

  lemma CurrentEarlier(c: Protocol.Cloud, d: Protocol.Cloud)
    requires Extends(c, d)
    ensures |c.versions| <= |d.versions|
  {
  }

  lemma CurrentEarlierHeld(c: Protocol.Cloud, d: Protocol.Cloud, etag: Option<Text>, ver: nat)
    requires Extends(c, d) && Current(d, etag, ver)
    ensures Current(c, etag, ver)
  {
  }

  /** Whoever holds a version at least as new as the one stored in `a` has every entry committed in `a`. */
  lemma CurrentCovers<S>(a: World<S>, w: World<S>, h: nat)
    requires h in w.handles && Later(a, w) && Current(a.cloud, w.handles[h].etag, w.handles[h].ver)
    requires Inv(a) && Inv(w)
    ensures |a.cloud.Log()| <= w.handles[h].image.Next()
  {
    hide Inv, HandleInv, CloudInv, Extends, History, Maintenance, PhaseInv, StateAt;
    HandleShape(w, h);
    Unfold(w.app, w.cloud, w.jobs, w.handles[h]);
    InvCloud(a);
    InvCloud(w);
    TipOfLog(a.rules, a.cloud);
    if a.cloud.versions != [] {
      TipBelow(a.rules, a.cloud, w.cloud, w.handles[h].ver);
    }
  }

  lemma TipBelow(r: Rules, c: Protocol.Cloud, d: Protocol.Cloud, i: nat)
    requires CloudInv(r, c) && CloudInv(r, d) && Extends(c, d) && |c.versions| - 1 <= i < |d.versions|
    ensures |c.Log()| <= d.versions[i].image.Next()
  {
    hide CloudInv, History, Extends;
    TipOfLog(r, c);
    if c.versions != [] {
      VersionStays(c, d, |c.versions| - 1);
      VersionsOrdered(r, d, |c.versions| - 1, i);
    }
  }

  lemma TipOfLog(r: Rules, c: Protocol.Cloud)
    requires CloudInv(r, c)
    ensures if c.versions == [] then c.Log() == [] else c.Last().image.Next() == |c.Log()|
  {
    hide RequestInv, VersionInv, Uploads, Link, Obsolete, History;
  }

  lemma HeldEtag<S>(h: Handle<S>, w: World<S>, ver: nat, state: S)
    ensures ver < |w.cloud.versions| ==> Adopt(h, w.cloud.versions[ver], ver, state).etag == Some(w.cloud.versions[ver].etag)
  {
  }

  /** A fetched snapshot restores; a missing one was not missing at the same version before. */
  lemma FetchShape<S>(w: World<S>, h: nat, cached: bool)
    requires Inv(w) && h in w.handles && w.handles[h].phase.Fetching? && w.handles[h].phase.ver < |w.cloud.versions|
    requires w.cloud.versions[w.handles[h].phase.ver].image.snapshot.Some?
    ensures Enabled(w, OfHandle(h, ReadSnapshot(cached)))
    ensures var it := w.handles[h]; var v := w.cloud.versions[it.phase.ver]; var key := v.image.snapshot.value.key;
      var after := After(w, OfHandle(h, ReadSnapshot(cached)));
      && h in after.handles && after.cloud == w.cloud && after.app == w.app && after.rules == w.rules
      && if SnapshotReadable(w.cloud, key, cached) && key in w.cloud.tried then
           var base := w.app.restore(w.cloud.tried[key].bytes);
           && base.Ok?
           && after.handles[h] == Adopt(it, v, it.phase.ver, Replay(w.app, base.value, v.image.First(), v.image.entries))
         else
           && after.handles[h] == it.(phase := Reading(Some(Missed(v.etag, key, it.phase.ver))))
           && !(it.phase.missed.Some? && it.phase.missed.value.etag == v.etag && it.phase.missed.value.key == key)
  {
    hide Inv, Adopt, Replay, Fits;
    var it := w.handles[h];
    RebuildSound(w, it.phase.ver);
    StepKeeps(w, OfHandle(h, ReadSnapshot(cached)));
    NeverCorrupted(After(w, OfHandle(h, ReadSnapshot(cached))), h);
  }

  lemma AdoptCore<S>(h: Handle<S>, v: Version, ver: nat, state: S)
    ensures var after := Adopt(h, v, ver, state);
      after.etag == Some(v.etag) && after.ver == ver && after.image == v.image && after.state == state && after.phase.Calm?
  {
  }

  lemma NeverCorrupted<S>(w: World<S>, h: nat)
    requires Inv(w) && h in w.handles
    ensures !w.handles[h].phase.Corrupted?
  {
    hide Inv;
    HandleShape(w, h);
  }

  lemma HeldIsRecorded<S>(w: World<S>, h: nat)
    requires Inv(w) && h in w.handles && w.handles[h].etag.Some?
    ensures Recorded(w.cloud, w.handles[h].etag.value, Layout(w.handles[h].image)) && Fits(w.handles[h].image, w.rules.limits)
  {
    hide Inv, HandleInv, Fits, Layout;
    HandleShape(w, h);
    Unfold(w.app, w.cloud, w.jobs, w.handles[h]);
    StoredDecodes(w, w.handles[h].ver);
  }

  lemma ViewNothing(image: WalImage)
    ensures View(image, None, 0, []) == image
  {
    assert image.entries[0..] + [] == image.entries;
  }

  lemma LastRecorded(c: Protocol.Cloud, d: Protocol.Cloud)
    requires c.versions != [] && Extends(c, d)
    ensures Recorded(d, c.Last().etag, Layout(c.Last().image))
  {
    hide Layout;
    assert d.versions[|c.versions| - 1] == c.Last();
  }

  lemma VersionStays(c: Protocol.Cloud, d: Protocol.Cloud, i: nat)
    requires i < |c.versions| && Extends(c, d)
    ensures i < |d.versions| && d.versions[i] == c.versions[i]
  {
  }

  // ----- opening -----

  /** What one round of `open` came to. */
  datatype Opening<S> =
    | Found(etag: Text, data: Bytes, image: WalImage, state: S)
    | NoWal
    | Again(missed: Option<(Text, Text)>)

  /** A handle that is still being opened: nothing held, nothing owed. */
  ghost predicate Opens<S>(w: World<S>, me: nat, writer: bool, cap: nat) {
    me in w.handles && w.handles[me] == Fresh(w.app, writer, cap).(phase := w.handles[me].phase)
  }

  ghost predicate OpenedAt<S>(w: World<S>, me: nat, writer: bool, cap: nat, o: Opening<S>, at: nat)
    requires o.Found?
  {
    && me in w.handles && at < |w.cloud.versions| && Recorded(w.cloud, o.etag, o.data) && o.data == Layout(o.image)
    && w.handles[me] == Handle(writer, Some(o.etag), at, o.image, o.state, Idle, [], 0, cap, Calm)
  }

  lemma AdoptFresh<S>(app: WalApp<S>, writer: bool, cap: nat, phase: Phase, v: Version, ver: nat, state: S)
    ensures Adopt(Fresh(app, writer, cap).(phase := phase), v, ver, state)
         == Handle(writer, Some(v.etag), ver, v.image, state, Idle, [], 0, cap, Calm)
  {
  }

  /** A cached record under the stored validator is the stored object. */
  lemma CachedIsCurrent<S>(w: World<S>, etag: Text, data: Bytes)
    requires Inv(w) && Recorded(w.cloud, etag, data) && w.cloud.versions != [] && w.cloud.Last().etag == etag
    ensures data == Layout(w.cloud.Last().image)
  {
    hide Fits, Law, JobInv, HandleInv, Uploads, RequestInv, Link, Layout;
    var i :| 0 <= i < |w.cloud.versions| && w.cloud.versions[i].etag == etag && Layout(w.cloud.versions[i].image) == data;
  }

  lemma FreshShape<S>(w: World<S>, me: nat, writer: bool, cap: nat)
    requires Inv(w) && Opens(w, me, writer, cap) && w.handles[me].phase.Reading? && w.cloud.versions != []
    ensures Enabled(w, OfHandle(me, ReadWal))
    ensures var after := After(w, OfHandle(me, ReadWal)); var v := w.cloud.Last(); var at := |w.cloud.versions| - 1;
      && after.cloud == w.cloud && after.app == w.app && after.rules == w.rules && me in after.handles
      && if v.image.snapshot.None?
         then after.handles[me] == Handle(writer, Some(v.etag), at, v.image, Replay(w.app, w.app.init, 0, v.image.entries), Idle, [], 0, cap, Calm)
         else Opens(after, me, writer, cap) && after.handles[me].phase == Fetching(at, w.handles[me].phase.missed)
  {
    hide Inv, Replay, Fits, Adopt, Enabled, After;
    var v := w.cloud.Last();
    ReadShape(w, me);
    AdoptFresh(w.app, writer, cap, w.handles[me].phase, v, |w.cloud.versions| - 1, Replay(w.app, w.app.init, 0, v.image.entries));
    assert v.image.EntriesFrom(0) == v.image.entries;
  }

  /** One round: find the WAL object or create it, then rebuild the state it stands for. */
  method OpenOnce<S>(cloud: Backend<S>, disk: Disk, me: nat, opts: Options, writer: bool, cap: nat,
                     cached: Option<(Text, Bytes)>, missed: Option<(Text, Text)>)
    returns (r: Result<Opening<S>, WalError>, ghost at: nat)
    requires cloud.Valid() && disk.Valid(cloud.world.cloud) && Opens(cloud.world, me, writer, cap)
    requires cloud.world.handles[me].phase.Reading? && Tracks(missed, cloud.world.handles[me].phase.missed)
    requires opts.limits == cloud.world.rules.limits && opts.maxSnapshot == cloud.world.rules.maxSnapshot
    requires cached.Some? ==> Recorded(cloud.world.cloud, cached.value.0, cached.value.1)
    modifies cloud, disk
    ensures cloud.Valid() && disk.Valid(cloud.world.cloud) && Later(old(cloud.world), cloud.world)
    ensures cloud.clock <= old(cloud.clock) + 2 && me in cloud.world.handles
    ensures r.Err? ==> r.error.StoreFailed?
    ensures r.Ok? && r.value.Again? ==>
              && Opens(cloud.world, me, writer, cap) && cloud.world.handles[me].phase.Reading?
              && Tracks(r.value.missed, cloud.world.handles[me].phase.missed)
    ensures r.Ok? && r.value.NoWal? ==> !writer && cloud.world.handles[me] == Fresh(cloud.world.app, writer, cap).(phase := Calm)
    ensures r.Ok? && r.value.Found? ==> OpenedAt(cloud.world, me, writer, cap, r.value, at)
    ensures r.Ok? && r.value.Found? ==> |old(cloud.world).cloud.versions| - 1 <= at
    ensures r.Ok? && r.value.NoWal? ==> old(cloud.world).cloud.versions == []
    ensures r.Ok? && r.value.Again? ==> cloud.clock == old(cloud.clock) + 2
    ensures cloud.faults == old(cloud.faults) + (if r.Err? then 1 else 0)
  {
    hide Inv, Fits, Layout, Parse, Recorded, Adopt, Extends, Replay, Enabled, After, Disk.Valid, Untouched, Tracks, Abandoned;
    at := 0;
    ghost var start := cloud.world;
    var got := cloud.GetWal(me, if cached.Some? then Some(cached.value.0) else None);
    disk.Ages(start.cloud, cloud.world.cloud);
    ghost var read := cloud.world;
    CurrentEarlier(start.cloud, read.cloud);
    if got.Err? {
      return Err(StoreFailed(got.error)), 0;
    }
    if got.value.Missing? {
      if writer {
        r := CreateOnce(cloud, disk, me, opts, cap, missed);
      } else {
        ReadShape(read, me);
        cloud.Do(OfHandle(me, ReadWal));
        r := Ok(NoWal);
      }
      LaterTransitive(start, read, cloud.world);
      disk.Ages(read.cloud, cloud.world.cloud);
      return r, 0;
    }
    var e := if got.value.Changed? then got.value.etag else cached.value.0;
    var data := if got.value.Changed? then got.value.data else cached.value.1;
    if !got.value.Changed? {
      RecordedLater(start.cloud, read.cloud, e, data);
      CachedIsCurrent(read, e, data);
    }
    StoredDecodes(read, |read.cloud.versions| - 1);
    var decoded := Decode(data, opts.limits);
    assert decoded == Ok(read.cloud.Last().image);
    var image := decoded.value;
    FreshShape(read, me, writer, cap);
    cloud.Do(OfHandle(me, ReadWal));
    disk.Ages(read.cloud, cloud.world.cloud);
    LaterTransitive(start, read, cloud.world);
    LastRecorded(read.cloud, cloud.world.cloud);
    if image.snapshot.None? {
      var state := ApplyAll(cloud.world.app, cloud.world.app.init, 0, image.entries);
      return Ok(Found(e, data, image, state)), |read.cloud.versions| - 1;
    }
    ghost var fetching := cloud.world;
    r, at := OpenFromSnapshot(cloud, disk, me, opts, writer, cap, missed, e, data, image);
    LaterTransitive(start, fetching, cloud.world);
  }

  method CreateOnce<S>(cloud: Backend<S>, disk: Disk, me: nat, opts: Options, cap: nat, missed: Option<(Text, Text)>)
    returns (r: Result<Opening<S>, WalError>)
    requires cloud.Valid() && disk.Valid(cloud.world.cloud) && Opens(cloud.world, me, true, cap)
    requires cloud.world.handles[me].phase.Reading? && Tracks(missed, cloud.world.handles[me].phase.missed)
    requires opts.limits == cloud.world.rules.limits
    modifies cloud
    ensures cloud.Valid() && disk.Valid(cloud.world.cloud) && Later(old(cloud.world), cloud.world)
    ensures cloud.clock <= old(cloud.clock) + 1 && me in cloud.world.handles
    ensures r.Err? ==> r.error.StoreFailed?
    ensures r.Ok? && r.value.Again? ==>
              && Opens(cloud.world, me, true, cap) && cloud.world.handles[me].phase.Reading?
              && Tracks(r.value.missed, cloud.world.handles[me].phase.missed)
    ensures r.Ok? ==> !r.value.NoWal?
    ensures r.Ok? && r.value.Again? ==> cloud.clock == old(cloud.clock) + 1
    ensures cloud.faults == old(cloud.faults) + (if r.Err? then 1 else 0)
    ensures r.Ok? && r.value.Found? ==> OpenedAt(cloud.world, me, true, cap, r.value, 0)
  {
    hide Inv, Fits, Layout, Recorded, Adopt, Extends;
    ghost var start := cloud.world;
    EmptyFits(start);
    var data := EncodeView(Empty, None, 0, [], opts.limits);
    ViewNothing(Empty);
    assert data == Ok(Layout(Empty));
    var put := cloud.CreateWal(me, data.value);
    disk.Ages(start.cloud, cloud.world.cloud);
    match put {
      case Err(e) => r := Err(StoreFailed(e));
      case Ok(PreconditionFailed) => r := Ok(Again(missed));
      case Ok(Written(e)) =>
        FirstRecorded(cloud.world.cloud);
        AdoptFresh(start.app, true, cap, start.handles[me].phase, cloud.world.cloud.versions[0], 0, start.app.init);
        r := Ok(Found(e, data.value, Empty, cloud.world.app.init));
    }
  }

  lemma EmptyFits<S>(w: World<S>)
    requires Inv(w)
    ensures Fits(Empty, w.rules.limits)
  {
    hide CloudInv, HandleInv, JobInv, Law, Fits;
  }

  lemma FirstRecorded(c: Protocol.Cloud)
    requires c.versions != []
    ensures Recorded(c, c.versions[0].etag, Layout(c.versions[0].image))
  {
    hide Layout;
  }

  /** The snapshot read of a handle still being opened either completes it or sends it back to the WAL. */
  lemma FetchOpens<S>(w: World<S>, me: nat, writer: bool, cap: nat, cached: bool)
    requires Opens(w, me, writer, cap) && w.handles[me].phase.Fetching? && w.handles[me].phase.ver < |w.cloud.versions|
    requires w.cloud.versions[w.handles[me].phase.ver].image.snapshot.Some?
    requires Inv(w)
    ensures Enabled(w, OfHandle(me, ReadSnapshot(cached)))
    ensures var it := w.handles[me]; var v := w.cloud.versions[it.phase.ver]; var key := v.image.snapshot.value.key;
      var after := After(w, OfHandle(me, ReadSnapshot(cached)));
      && me in after.handles && after.cloud == w.cloud && after.app == w.app && after.rules == w.rules
      && if SnapshotReadable(w.cloud, key, cached) && key in w.cloud.tried then
           var base := w.app.restore(w.cloud.tried[key].bytes);
           && base.Ok?
           && after.handles[me] == Handle(writer, Some(v.etag), it.phase.ver, v.image,
                                          Replay(w.app, base.value, v.image.First(), v.image.entries), Idle, [], 0, cap, Calm)
         else
           && Opens(after, me, writer, cap) && after.handles[me].phase == Reading(Some(Missed(v.etag, key, it.phase.ver)))
           && !(it.phase.missed.Some? && it.phase.missed.value.etag == v.etag && it.phase.missed.value.key == key)
  {
    hide Inv, Adopt, Replay, Enabled, After;
    var it := w.handles[me];
    var v := w.cloud.versions[it.phase.ver];
    FetchShape(w, me, cached);
    var base := if v.image.snapshot.value.key in w.cloud.tried then w.app.restore(w.cloud.tried[v.image.snapshot.value.key].bytes) else Err("");
    if base.Ok? {
      AdoptFresh(w.app, writer, cap, it.phase, v, it.phase.ver, Replay(w.app, base.value, v.image.First(), v.image.entries));
    }
  }

  lemma OpensHere<S>(w: World<S>, me: nat, writer: bool, cap: nat)
    requires Opens(w, me, writer, cap)
    ensures me in w.handles
  {
  }

  lemma OpensStill<S>(a: World<S>, b: World<S>, me: nat, writer: bool, cap: nat)
    requires Opens(a, me, writer, cap) && me in b.handles && b.handles[me] == a.handles[me] && b.app == a.app
    ensures Opens(b, me, writer, cap)
  {
  }

  lemma FoundAt<S>(w: World<S>, me: nat, writer: bool, cap: nat, e: Text, data: Bytes, image: WalImage, state: S, at: nat)
    requires me in w.handles && at < |w.cloud.versions| && Recorded(w.cloud, e, data) && data == Layout(image)
    requires w.handles[me] == Handle(writer, Some(e), at, image, state, Idle, [], 0, cap, Calm)
    ensures OpenedAt(w, me, writer, cap, Found(e, data, image, state), at)
  {
    hide Recorded, Layout;
  }

  method OpenFromSnapshot<S>(cloud: Backend<S>, disk: Disk, me: nat, opts: Options, writer: bool, cap: nat,
                             missed: Option<(Text, Text)>, e: Text, data: Bytes, image: WalImage)
    returns (r: Result<Opening<S>, WalError>, ghost at: nat)
    requires cloud.Valid() && disk.Valid(cloud.world.cloud) && Opens(cloud.world, me, writer, cap)
    requires opts.maxSnapshot == cloud.world.rules.maxSnapshot
    requires Recorded(cloud.world.cloud, e, data) && image.snapshot.Some? && data == Layout(image)
    requires var phase := cloud.world.handles[me].phase;
      && phase.Fetching? && Tracks(missed, phase.missed) && phase.ver < |cloud.world.cloud.versions|
      && cloud.world.cloud.versions[phase.ver].etag == e && cloud.world.cloud.versions[phase.ver].image == image
    modifies cloud, disk
    ensures cloud.Valid() && disk.Valid(cloud.world.cloud) && Later(old(cloud.world), cloud.world)
    ensures cloud.clock <= old(cloud.clock) + 1 && me in cloud.world.handles
    ensures r.Err? ==> r.error.StoreFailed?
    ensures r.Ok? && r.value.Again? ==>
              && Opens(cloud.world, me, writer, cap) && cloud.world.handles[me].phase.Reading?
              && Tracks(r.value.missed, cloud.world.handles[me].phase.missed)
    ensures r.Ok? ==> !r.value.NoWal?
    ensures r.Ok? && r.value.Again? ==> cloud.clock == old(cloud.clock) + 1
    ensures at == old(cloud.world).handles[me].phase.ver
    ensures cloud.faults == old(cloud.faults) + (if r.Err? then 1 else 0)
    ensures r.Ok? && r.value.Found? ==> OpenedAt(cloud.world, me, writer, cap, r.value, at)
  {
    hide Inv, Layout, Recorded, Extends, Replay, Enabled, After, Opens, OpenedAt;
    OpensHere(cloud.world, me, writer, cap);
    ghost var start := cloud.world;
    at := start.handles[me].phase.ver;
    var sr := image.snapshot.value;
    var got, cached := FetchSnapshot(disk, cloud, Client(me), sr.key, opts.maxSnapshot);
    if got.Err? {
      return Err(got.error), at;
    }
    ghost var fetched := cloud.world;
    VersionStays(start.cloud, fetched.cloud, at);
    RecordedLater(start.cloud, fetched.cloud, e, data);
    OpensStill(start, fetched, me, writer, cap);
    FetchOpens(fetched, me, writer, cap, cached);
    cloud.Do(OfHandle(me, ReadSnapshot(cached)));
    LaterTransitive(start, fetched, cloud.world);
    disk.Ages(fetched.cloud, cloud.world.cloud);
    if got.value.None? {
      var again := RecordMissingSnapshot(missed, e, sr.key);
      assert again.Ok?;
      return Ok(Again(again.value)), at;
    }
    var state := RebuildState(cloud.world.app, got.value.value, image);
    FoundAt(cloud.world, me, writer, cap, e, data, image, state, at);
    r := Ok(Found(e, data, image, state));
    assert OpenedAt(cloud.world, me, writer, cap, r.value, at);
  }

  lemma OpenShape<S>(w: World<S>, me: nat, writer: bool, cap: nat)
    requires me !in w.handles
    ensures Enabled(w, Step.Open(me, writer, cap))
    ensures var after := After(w, Step.Open(me, writer, cap));
      Opens(after, me, writer, cap) && me in after.handles && after.handles[me].phase == Reading(None)
    ensures Tracks(None, None)
  {
  }

  /** A core that holds exactly what the protocol says of a handle just opened. */
  ghost predicate Opened<S>(core: Core<S>, writer: bool, cap: nat)
    reads core, core.cloud, core.disk
  {
    && core.Linked() && core.Holds(core.It()) && (writer ==> core.etag.Some?) && core.Sized()
    && core.It() == Fresh(core.cloud.world.app, writer, cap).(
                      etag := core.etag, ver := core.ver, image := core.image, state := core.state, phase := Calm)
  }

  /** It holds everything that was committed in world `a`, and nothing at all only if there was no WAL object. */
  ghost predicate Reaches<S>(a: World<S>, core: Core<S>)
    reads core
  {
    && Current(a.cloud, core.etag, core.ver) && |a.cloud.Log()| <= core.image.Next()
    && (core.etag.None? ==> a.cloud.versions == [])
  }

  /** Opens a handle on the log. Never reports corruption, and reads the store at most `2 * MAX_RACES` times. */
  method Open<S>(cloud: Backend<S>, disk: Disk, me: nat, opts: Options, writer: bool, cap: nat)
    returns (r: Result<Core<S>, WalError>)
    requires cloud.Valid() && disk.Valid(cloud.world.cloud) && me !in cloud.world.handles
    requires opts.limits == cloud.world.rules.limits && opts.maxSnapshot == cloud.world.rules.maxSnapshot
    modifies cloud, disk
    ensures cloud.Valid() && disk.Valid(cloud.world.cloud) && Later(old(cloud.world), cloud.world)
    ensures cloud.clock <= old(cloud.clock) + 2 * MAX_RACES
    ensures r.Err? ==> me !in cloud.world.handles && (r.error.StoreFailed? || r.error == Contention(OpOpen, MAX_RACES))
    ensures r.Ok? ==>
              && fresh(r.value) && r.value.cloud == cloud && r.value.disk == disk && r.value.me == me && r.value.opts == opts
              && Opened(r.value, writer, cap) && Reaches(old(cloud.world), r.value) && cloud.faults == old(cloud.faults)
    ensures r.Err? ==> Blames(r.error, old(cloud.faults), cloud.faults, old(cloud.clock), cloud.clock)
  {
    hide Inv, Extends, Recorded, Layout, Parse, Fits, History, Enabled, After, Opens, OpenedAt, Tracks, Opened, Reaches, Disk.Valid, SnapshotCopy;
    OpenShape(cloud.world, me, writer, cap);
    ghost var start := cloud.world;
    cloud.Do(Step.Open(me, writer, cap));
    disk.Ages(start.cloud, cloud.world.cloud);
    var cached := None;
    if !opts.policy.Disabled? {
      cached := LoadDecodable(cloud, disk, opts);
    }
    ghost var opening := cloud.world;
    ghost var at: nat;
    var found;
    found, at := Search(cloud, disk, me, opts, writer, cap, cached);
    LaterTransitive(start, opening, cloud.world);
    if found.Err? {
      Abandon(cloud, disk, me, start);
      return Err(found.error);
    }
    CurrentEarlier(start.cloud, opening.cloud);
    var core := NewCore(cloud, disk, me, opts, writer, cap, found.value, at, start);
    return Ok(core);
  }

  /** Rounds of reading until one ends with a whole version, or with no WAL object at all. */
  method Search<S>(cloud: Backend<S>, disk: Disk, me: nat, opts: Options, writer: bool, cap: nat, cached: Option<(Text, Bytes)>)
    returns (r: Result<Opening<S>, WalError>, ghost at: nat)
    requires cloud.Valid() && disk.Valid(cloud.world.cloud) && Opens(cloud.world, me, writer, cap)
    requires cloud.world.handles[me].phase == Reading(None)
    requires opts.limits == cloud.world.rules.limits && opts.maxSnapshot == cloud.world.rules.maxSnapshot
    requires cached.Some? ==> Recorded(cloud.world.cloud, cached.value.0, cached.value.1)
    modifies cloud, disk
    ensures cloud.Valid() && disk.Valid(cloud.world.cloud) && Later(old(cloud.world), cloud.world)
    ensures cloud.clock <= old(cloud.clock) + 2 * MAX_RACES && me in cloud.world.handles
    ensures r.Ok? ==> !r.value.Again? && cloud.faults == old(cloud.faults)
    ensures r.Ok? && r.value.NoWal? ==>
              && !writer && cloud.world.handles[me] == Fresh(cloud.world.app, writer, cap).(phase := Calm)
              && old(cloud.world).cloud.versions == []
    ensures r.Ok? && r.value.Found? ==> OpenedAt(cloud.world, me, writer, cap, r.value, at) && |old(cloud.world).cloud.versions| - 1 <= at
    ensures r.Err? ==>
              && (r.error.StoreFailed? || r.error == Contention(OpOpen, MAX_RACES))
              && Blames(r.error, old(cloud.faults), cloud.faults, old(cloud.clock), cloud.clock)
  {
    hide Inv, Extends, Recorded, Layout, Parse, Fits, OpenedAt;
    ghost var start := cloud.world;
    ExtendsItself(start.cloud);
    var missed: Option<(Text, Text)> := None;
    for attempt := 0 to MAX_RACES
      invariant cloud.Valid() && disk.Valid(cloud.world.cloud) && Later(start, cloud.world)
      invariant cloud.clock == old(cloud.clock) + 2 * attempt && cloud.faults == old(cloud.faults)
      invariant Opens(cloud.world, me, writer, cap) && cloud.world.handles[me].phase.Reading?
      invariant Tracks(missed, cloud.world.handles[me].phase.missed)
      invariant cached.Some? ==> Recorded(cloud.world.cloud, cached.value.0, cached.value.1)
    {
      ghost var before := cloud.world;
      CurrentEarlier(start.cloud, before.cloud);
      r, at := OpenOnce(cloud, disk, me, opts, writer, cap, cached, missed);
      LaterTransitive(start, before, cloud.world);
      if r.Err? || !r.value.Again? {
        return;
      }
      missed := r.value.missed;
      if cached.Some? {
        RecordedLater(before.cloud, cloud.world.cloud, cached.value.0, cached.value.1);
      }
    }
    return Err(Contention(OpOpen, MAX_RACES)), 0;
  }

  method NewCore<S>(cloud: Backend<S>, disk: Disk, me: nat, opts: Options, writer: bool, cap: nat, o: Opening<S>, ghost at: nat,
                    ghost start: World<S>)
    returns (core: Core<S>)
    requires cloud.Valid() && disk.Valid(cloud.world.cloud) && me in cloud.world.handles && !o.Again?
    requires opts.limits == cloud.world.rules.limits && opts.maxSnapshot == cloud.world.rules.maxSnapshot
    requires o.NoWal? ==> !writer && cloud.world.handles[me] == Fresh(cloud.world.app, writer, cap).(phase := Calm)
    requires o.Found? ==> OpenedAt(cloud.world, me, writer, cap, o, at) && |start.cloud.versions| - 1 <= at
    requires o.NoWal? ==> start.cloud.versions == []
    requires Later(start, cloud.world) && Inv(start)
    modifies disk
    ensures fresh(core) && core.cloud == cloud && core.disk == disk && core.me == me && core.opts == opts
    ensures Opened(core, writer, cap) && Reaches(start, core) && disk.Valid(cloud.world.cloud)
  {
    hide Inv, Recorded, Layout, Extends, History;
    if o.NoWal? {
      core := new Core(cloud, disk, me, opts, cloud.world.app.init, Empty, 0);
    } else {
      core := new Core(cloud, disk, me, opts, o.state, o.image, at);
      core.RecordImagePut(o.etag, o.data);
    }
    CurrentCovers(start, cloud.world, me);
  }

  /** A cached image that no longer decodes is not offered at all. */
  method LoadDecodable<S>(cloud: Backend<S>, disk: Disk, opts: Options) returns (r: Option<(Text, Bytes)>)
    requires cloud.Valid() && disk.Valid(cloud.world.cloud)
    modifies disk
    ensures disk.Valid(cloud.world.cloud)
    ensures r.Some? ==> Recorded(cloud.world.cloud, r.value.0, r.value.1) && Parse(r.value.1, opts.limits).Ok?
  {
    hide Inv, Recorded, Layout, Parse, Fits;
    r := disk.LoadWal(cloud.world.cloud);
    if r.Some? {
      var decoded := Decode(r.value.1, opts.limits);
      if decoded.Err? {
        r := None;
      }
    }
  }

  method Abandon<S>(cloud: Backend<S>, disk: Disk, me: nat, ghost start: World<S>)
    requires cloud.Valid() && disk.Valid(cloud.world.cloud) && Later(start, cloud.world) && me in cloud.world.handles
    modifies cloud`world
    ensures cloud.Valid() && disk.Valid(cloud.world.cloud) && Later(start, cloud.world) && me !in cloud.world.handles
  {
    hide Inv, Extends, Recorded;
    ghost var was := cloud.world;
    cloud.Do(Drop(me));
    LaterTransitive(start, was, cloud.world);
    disk.Ages(was.cloud, cloud.world.cloud);
  }
}
