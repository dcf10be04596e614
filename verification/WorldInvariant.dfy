/** What every handle and every compactor keeps, and that each step of the protocol keeps all of it. */
module WorldInvariant {
  import opened Primitives
  import opened Image
  import opened App
  import opened Protocol
  import opened CloudInvariant

  // ----- the invariant -----

  /** The held WAL version is an accepted one, and the state is the replay of the history up to it. */
  ghost predicate Position<S>(app: WalApp<S>, c: Cloud, h: Handle<S>) {
    && (h.etag.Some? ==>
          && h.ver < |c.versions| && h.etag == Some(c.versions[h.ver].etag) && h.image == c.versions[h.ver].image)
    && (h.etag.None? ==> h.image == Empty && h.compaction.Idle? && h.garbage == [])
    && h.image.Next() <= |c.Log()|
    && h.state == StateAt(app, c.Log()[..h.image.Next()])
  }

  /** Maintenance: an installable fold, only obsolete keys queued, each once and no more than the cap. */
  ghost predicate Maintenance<S>(c: Cloud, jobs: map<nat, Job>, h: Handle<S>) {
    && (!h.writer ==> h.compaction.Idle? && h.garbage == [])
    && (h.compaction.Ready? ==>
          Applies(h.compaction.fold, h.image) && Covers(c, h.compaction.fold.key, h.compaction.fold.lsn + 1))
    && (h.compaction.Running? ==> h.compaction.job in jobs && jobs[h.compaction.job].Count() <= h.image.Next())
    && Garbage(c, h.garbage) && |h.garbage| <= h.cap
  }

  ghost predicate Garbage(c: Cloud, keys: seq<Text>) {
    && (forall i :: 0 <= i < |keys| ==> Obsolete(c, keys[i]))
    && (forall i, j :: 0 <= i < j < |keys| ==> keys[i] != keys[j])
  }

  /** The WAL has moved on from every version whose snapshot was found missing. */
  ghost predicate MovedOn(c: Cloud, missed: Option<Missed>, ver: int) {
    missed.Some? ==> missed.value.ver < ver < |c.versions| && c.versions[missed.value.ver].etag == missed.value.etag
  }

  ghost predicate PhaseInv<S>(c: Cloud, h: Handle<S>) {
    match h.phase
    case Calm => h.writer ==> h.etag.Some?
    case Creating(id, missed) =>
      h.writer && h.etag.None? && id < |c.requests| && c.requests[id] == Put(None, 0, None, [], Empty)
      && MovedOn(c, missed, |c.versions| - 1)
    case Waiting(id, batch) =>
      && h.writer && h.etag.Some? && id < |c.requests|
      && (h.compaction.Ready? ==> Applies(h.compaction.fold, h.image))
      && c.requests[id] == Put(h.etag, h.ver, Pending(h.compaction), batch, Candidate(h.image, Pending(h.compaction), batch))
    case Reading(missed) => MovedOn(c, missed, |c.versions| - 1)
    case Fetching(ver, missed) =>
      && ver < |c.versions| && c.versions[ver].image.snapshot.Some?
      && (h.etag.Some? ==> h.ver < ver) && MovedOn(c, missed, ver)
    case Deleting => h.garbage != []
    case Corrupted => false
  }

  ghost predicate HandleInv<S>(app: WalApp<S>, c: Cloud, jobs: map<nat, Job>, h: Handle<S>) {
    Position(app, c, h) && Maintenance(c, jobs, h) && PhaseInv(c, h)
  }

  ghost predicate JobInv(r: Rules, c: Cloud, job: Job) {
    && job.entries != [] && job.Count() <= |c.Log()| && job.entries == c.Log()[job.first..job.Count()]
    && (job.baseKey.None? ==> job.first == 0)
    && (job.baseKey.Some? ==> Covers(c, job.baseKey.value, job.first))
    && match job.phase
       case Started => true
       case Built(bytes) => SnapInv(r, c, Snap(bytes, job.Count()))
       case Uploading(key, bytes) =>
         SnapInv(r, c, Snap(bytes, job.Count())) && key in c.tried && c.tried[key] == Snap(bytes, job.Count())
       case Done(key) => Covers(c, key, job.Count())
       case Aborted => true
  }

  ghost predicate Inv<S>(w: World<S>) {
    && Law(w.app, w.rules.rep)
    && Fits(Empty, w.rules.limits)
    && CloudInv(w.rules, w.cloud)
    && (forall h :: h in w.handles ==> HandleInv(w.app, w.cloud, w.jobs, w.handles[h]))
    && (forall j :: j in w.jobs ==> JobInv(w.rules, w.cloud, w.jobs[j]))
  }

  /** Jobs are never forgotten, their work never changes, and how they ended is final. */
  ghost predicate JobsExtend(jobs: map<nat, Job>, after: map<nat, Job>) {
    forall j :: j in jobs ==> j in after && after[j].baseKey == jobs[j].baseKey && after[j].first == jobs[j].first
                              && after[j].entries == jobs[j].entries
                              && (jobs[j].phase.Done? || jobs[j].phase.Aborted? ==> after[j].phase == jobs[j].phase)
  }

  // ----- stability under the steps of everybody else -----

  lemma GarbageStable(r: Rules, c: Cloud, d: Cloud, keys: seq<Text>)
    requires Garbage(c, keys) && Extends(c, d) && CloudInv(r, d)
    ensures Garbage(d, keys)
  {
    hide CloudInv, Extends, Obsolete;
    forall i | 0 <= i < |keys| ensures Obsolete(d, keys[i]) {
      ObsoleteStable(r, c, d, keys[i]);
    }
  }

  lemma PositionStable<S>(app: WalApp<S>, c: Cloud, d: Cloud, h: Handle<S>)
    requires Position(app, c, h) && Extends(c, d)
    ensures Position(app, d, h)
  {
    hide StateAt, History;
    HistoryMonotone(c.versions, d.versions);
    assert d.Log()[..h.image.Next()] == c.Log()[..h.image.Next()];
  }

  lemma HandleStable<S>(app: WalApp<S>, r: Rules, c: Cloud, d: Cloud, jobs: map<nat, Job>, after: map<nat, Job>, h: Handle<S>)
    requires HandleInv(app, c, jobs, h) && Extends(c, d) && JobsExtend(jobs, after) && CloudInv(r, d)
    ensures HandleInv(app, d, after, h)
  {
    hide StateAt, History, CloudInv, Position, Garbage, Applies, Candidate;
    PositionStable(app, c, d, h);
    GarbageStable(r, c, d, h.garbage);
  }

  lemma JobStable(r: Rules, c: Cloud, d: Cloud, job: Job)
    requires JobInv(r, c, job) && Extends(c, d)
    ensures JobInv(r, d, job)
  {
    hide History, SnapInv;
    HistoryMonotone(c.versions, d.versions);
    assert job.entries == d.Log()[job.first..job.Count()];
    match job.phase
    case Built(bytes) => SnapStable(r, c, d, Snap(bytes, job.Count()));
    case Uploading(key, bytes) => SnapStable(r, c, d, Snap(bytes, job.Count()));
    case _ =>
  }

  // ----- adopting another version -----

  lemma VersionsOrdered(r: Rules, c: Cloud, i: nat, j: nat)
    requires CloudInv(r, c) && i <= j < |c.versions|
    ensures var a, b := c.versions[i].image, c.versions[j].image;
      && a.First() <= b.First() && a.Next() <= b.Next() <= |c.Log()|
      && (a.First() == b.First() ==> a.snapshot == b.snapshot)
      && VersionInv(r, c, a) && VersionInv(r, c, b)
  {
    hide Fits, History, Link, Uploads, RequestInv, Obsolete;
    if i < j {
      assert Progress(c.versions[i].image, c.versions[j].image);
    }
  }

  /** The snapshot reference a later version no longer carries is obsolete. */
  lemma AbandonedObsolete(r: Rules, c: Cloud, i: nat, j: nat)
    requires CloudInv(r, c) && i <= j < |c.versions|
    ensures var gone := Abandoned(c.versions[i].image, c.versions[j].image); gone.Some? ==> Obsolete(c, gone.value.key)
  {
    hide Fits, History, CloudInv;
    VersionsOrdered(r, c, i, j);
    VersionsOrdered(r, c, j, |c.versions| - 1);
    VersionsOrdered(r, c, i, |c.versions| - 1);
  }

  lemma NothingAbandoned(image: WalImage)
    ensures Abandoned(Empty, image) == None
  {
  }

  /** A published fold the held version has moved past, and does not name, is obsolete. */
  lemma SupersededObsolete(r: Rules, c: Cloud, ver: nat, fold: SnapshotRef)
    requires CloudInv(r, c) && ver < |c.versions| && Covers(c, fold.key, fold.lsn + 1)
    requires fold.lsn < c.versions[ver].image.First()
    requires c.versions[ver].image.snapshot.Some? && c.versions[ver].image.snapshot.value.key != fold.key
    ensures Obsolete(c, fold.key)
  {
    hide Fits, History, CloudInv;
    VersionsOrdered(r, c, ver, |c.versions| - 1);
  }

  lemma QueueKeeps<S>(c: Cloud, h: Handle<S>, key: Text)
    requires Garbage(c, h.garbage) && |h.garbage| <= h.cap && Obsolete(c, key)
    ensures Garbage(c, QueueObsolete(h, key).garbage) && |QueueObsolete(h, key).garbage| <= h.cap
    ensures QueueObsolete(h, key) == h.(garbage := QueueObsolete(h, key).garbage, overflowed := QueueObsolete(h, key).overflowed)
  {
    hide Obsolete;
  }

  /** After a handle takes up a version at least as new, maintenance is sound again. */
  lemma DiscardKeeps<S>(r: Rules, c: Cloud, jobs: map<nat, Job>, h: Handle<S>)
    requires CloudInv(r, c) && h.writer && h.etag.Some? && h.ver < |c.versions| && h.image == c.versions[h.ver].image
    requires h.compaction.Ready? ==> h.compaction.fold.lsn < h.image.Next() && Covers(c, h.compaction.fold.key, h.compaction.fold.lsn + 1)
    requires h.compaction.Running? ==> h.compaction.job in jobs && jobs[h.compaction.job].Count() <= h.image.Next()
    requires Garbage(c, h.garbage) && |h.garbage| <= h.cap
    ensures Maintenance(c, jobs, Discard(h))
    ensures Discard(h) == h.(compaction := Discard(h).compaction, garbage := Discard(h).garbage, overflowed := Discard(h).overflowed)
  {
    hide Fits, History, CloudInv, Garbage, Obsolete;
    if h.compaction.Ready? && !Applies(h.compaction.fold, h.image)
       && !(h.image.snapshot.Some? && h.image.snapshot.value.key == h.compaction.fold.key) {
      SupersededObsolete(r, c, h.ver, h.compaction.fold);
      QueueKeeps(c, h.(compaction := Superseded), h.compaction.fold.key);
    }
  }

  lemma AdoptKeeps<S>(app: WalApp<S>, r: Rules, c: Cloud, jobs: map<nat, Job>, h: Handle<S>, ver: nat, state: S)
    requires CloudInv(r, c) && HandleInv(app, c, jobs, h) && ver < |c.versions| && (h.etag.Some? ==> h.ver <= ver)
    requires state == StateAt(app, c.Log()[..c.versions[ver].image.Next()])
    ensures HandleInv(app, c, jobs, Adopt(h, c.versions[ver], ver, state))
  {
    hide Fits, History, StateAt, CloudInv, Obsolete, Garbage, QueueObsolete, Abandoned;
    var v := c.versions[ver];
    VersionsOrdered(r, c, ver, ver);
    var core := h.(etag := Some(v.etag), ver := ver, image := v.image, state := state, phase := Calm);
    var gone := Abandoned(h.image, v.image);
    if h.etag.Some? {
      VersionsOrdered(r, c, h.ver, ver);
      AbandonedObsolete(r, c, h.ver, ver);
    } else {
      NothingAbandoned(v.image);
    }
    if h.writer {
      DiscardKeeps(r, c, jobs, core);
      if gone.Some? {
        QueueKeeps(c, Discard(core), gone.value.key);
      }
    }
  }

  // ----- handle steps -----

  lemma StateGrows<S>(app: WalApp<S>, c: Cloud, from: nat, upto: nat, state: S, missing: seq<Bytes>)
    requires from <= upto <= |c.Log()| && state == StateAt(app, c.Log()[..from]) && missing == c.Log()[from..upto]
    ensures Replay(app, state, from, missing) == StateAt(app, c.Log()[..upto])
  {
    hide History, StateAt, Replay;
    StateAtConcat(app, c.Log()[..from], missing);
    assert c.Log()[..from] + missing == c.Log()[..upto];
  }

  lemma PhaseChange<S>(app: WalApp<S>, c: Cloud, jobs: map<nat, Job>, h: Handle<S>, phase: Phase)
    requires HandleInv(app, c, jobs, h) && PhaseInv(c, h.(phase := phase))
    ensures HandleInv(app, c, jobs, h.(phase := phase))
  {
  }

  /** Applying just the entries not yet applied leads to the state of the newer version. */
  lemma CatchupSound<S>(w: World<S>, h: Handle<S>, ver: nat)
    requires Inv(w) && Position(w.app, w.cloud, h) && ver < |w.cloud.versions|
    requires var image := w.cloud.versions[ver].image; image.First() <= h.image.Next() <= image.Next()
    ensures Catchup(w.app, h, w.cloud.versions[ver].image) == StateAt(w.app, w.cloud.Log()[..w.cloud.versions[ver].image.Next()])
  {
    hide Fits, History, StateAt, Replay, HandleInv, JobInv, Law, CloudInv;
    var image := w.cloud.versions[ver].image;
    VersionsOrdered(w.rules, w.cloud, ver, ver);
    var from := h.image.Next();
    SliceSlice(w.cloud.Log(), image.First(), image.Next(), from);
    StateGrows(w.app, w.cloud, from, image.Next(), h.state, image.EntriesFrom(from));
  }

  /** The held version is never newer than the stored one. */
  lemma HeldVersion<S>(w: World<S>, h: Handle<S>, ver: nat)
    requires Inv(w) && HandleInv(w.app, w.cloud, w.jobs, h) && ver < |w.cloud.versions| && (h.etag.Some? ==> h.ver <= ver)
    ensures h.image.First() <= w.cloud.versions[ver].image.First() && h.image.Next() <= w.cloud.versions[ver].image.Next()
    ensures Position(w.app, w.cloud, h)
  {
    hide Fits, History, StateAt, JobInv, Law, CloudInv, Maintenance, PhaseInv;
    if h.etag.Some? {
      VersionsOrdered(w.rules, w.cloud, h.ver, ver);
    }
  }

  /** Reading the WAL never moves back: the stored version is at least as new as any held one. */
  lemma ReadKeeps<S>(w: World<S>, h: Handle<S>)
    requires Inv(w) && HandleInv(w.app, w.cloud, w.jobs, h) && h.phase.Reading?
    ensures HandleInv(w.app, w.cloud, w.jobs, ReadOutcome(w, h))
  {
    hide Fits, History, StateAt, Catchup, Law, JobInv, CloudInv, Maintenance, Adopt;
    var c := w.cloud;
    Unfold(w.app, c, w.jobs, h);
    if c.versions != [] && h.etag != Some(c.Last().etag) {
      var last := |c.versions| - 1;
      HeldVersion(w, h, last);
      if c.Last().image.First() <= h.image.Next() {
        CatchupSound(w, h, last);
        AdoptKeeps(w.app, w.rules, c, w.jobs, h, last, Catchup(w.app, h, c.Last().image));
      } else {
        PhaseChange(w.app, c, w.jobs, h, Fetching(last, h.phase.missed));
      }
    } else {
      PhaseChange(w.app, c, w.jobs, h, ReadOutcome(w, h).phase);
    }
  }

  lemma TailOfSlice<T>(log: seq<T>, first: nat, from: nat, next: nat, kept: seq<T>, batch: seq<T>)
    requires first <= from <= next <= |log| && log[first..next] == kept + batch && |kept| == from - first
    ensures log[from..next] == batch
  {
    assert log[first..next][from - first..] == batch;
  }

  lemma SliceSlice<T>(log: seq<T>, first: nat, next: nat, from: nat)
    requires first <= from <= next <= |log|
    ensures log[first..next][from - first..] == log[from..next]
  {
  }

  /** A readable snapshot of an accepted version rebuilds exactly the history up to that version. */
  lemma RebuildSound<S>(w: World<S>, ver: nat)
    requires Inv(w) && ver < |w.cloud.versions| && w.cloud.versions[ver].image.snapshot.Some?
    ensures var image := w.cloud.versions[ver].image;
      && Covers(w.cloud, image.snapshot.value.key, image.First()) && image.Next() <= |w.cloud.Log()|
      && Rebuild(w.app, w.cloud.tried[image.snapshot.value.key].bytes, image) == Ok(StateAt(w.app, w.cloud.Log()[..image.Next()]))
  {
    hide Fits, History, StateAt, Replay, Obsolete, JobInv, HandleInv, Chain, Link, RequestInv;
    var c := w.cloud;
    var image := c.versions[ver].image;
    VersionsOrdered(w.rules, c, ver, ver);
    var snap := c.tried[image.snapshot.value.key];
    assert SnapInv(w.rules, c, snap);
    StateGrows(w.app, c, image.First(), image.Next(), StateAt(w.app, c.Log()[..image.First()]), image.entries);
  }

  /** No false corruption: a snapshot found missing belongs to a version the WAL has left behind. */
  lemma FetchKeeps<S>(w: World<S>, h: Handle<S>, cached: bool)
    requires Inv(w) && HandleInv(w.app, w.cloud, w.jobs, h) && HandleEnabled(w, h, ReadSnapshot(cached))
    ensures HandleInv(w.app, w.cloud, w.jobs, FetchOutcome(w, h, cached))
  {
    hide Fits, History, StateAt, Rebuild, Law, JobInv, Maintenance, Adopt, Position, Link, RequestInv, Uploads, VersionInv;
    var c := w.cloud;
    var ver := h.phase.ver;
    var v := c.versions[ver];
    var key := v.image.snapshot.value.key;
    RebuildSound(w, ver);
    if SnapshotReadable(c, key, cached) {
      HandlePosition(w.app, c, w.jobs, h);
      AdoptKeeps(w.app, w.rules, c, w.jobs, h, ver, StateAt(w.app, c.Log()[..v.image.Next()]));
    } else {
      assert Obsolete(c, key);
      assert ver < |c.versions| - 1;
      PhaseChange(w.app, c, w.jobs, h, Reading(Some(Missed(v.etag, key, ver))));
    }
  }

  lemma HandlePosition<S>(app: WalApp<S>, c: Cloud, jobs: map<nat, Job>, h: Handle<S>)
    requires HandleInv(app, c, jobs, h)
    ensures h.etag.Some? ==> h.ver < |c.versions| && h.etag == Some(c.versions[h.ver].etag)
  {
    hide *;
    Unfold(app, c, jobs, h);
  }

  lemma Unfold<S>(app: WalApp<S>, c: Cloud, jobs: map<nat, Job>, h: Handle<S>)
    requires HandleInv(app, c, jobs, h)
    ensures Position(app, c, h) && Maintenance(c, jobs, h) && PhaseInv(c, h)
    ensures h.etag.Some? ==> h.ver < |c.versions| && h.etag == Some(c.versions[h.ver].etag) && h.image == c.versions[h.ver].image
  {
  }

  /** The in-place update after an accepted PUT is exactly the image that was published. */
  lemma FoldInShape<S>(h: Handle<S>, batch: seq<Bytes>)
    requires h.compaction.Ready? ==> Applies(h.compaction.fold, h.image)
    ensures var after := FoldIn(h);
      && after.image.(entries := after.image.entries + batch) == Candidate(h.image, Pending(h.compaction), batch)
      && after.compaction == (if h.compaction.Ready? then Installed else h.compaction)
      && after == h.(image := after.image, compaction := after.compaction, garbage := after.garbage, overflowed := after.overflowed)
  {
    assert h.image.entries[0..] == h.image.entries;
    assert Candidate(h.image, Pending(h.compaction), []).entries + batch
        == Candidate(h.image, Pending(h.compaction), batch).entries;
  }

  lemma FoldInKeeps<S>(r: Rules, c: Cloud, h: Handle<S>)
    requires CloudInv(r, c) && Garbage(c, h.garbage) && |h.garbage| <= h.cap
    requires h.compaction.Ready? ==> Applies(h.compaction.fold, h.image)
    requires h.ver + 1 < |c.versions| && h.image == c.versions[h.ver].image
    requires h.compaction.Ready? ==> c.versions[h.ver + 1].image.snapshot == Some(h.compaction.fold)
    ensures Garbage(c, FoldIn(h).garbage) && |FoldIn(h).garbage| <= h.cap
  {
    hide CloudInv, Garbage, Obsolete, QueueObsolete, Candidate;
    if h.compaction.Ready? && h.image.snapshot.Some? && h.image.snapshot.value.key != h.compaction.fold.key {
      AbandonedObsolete(r, c, h.ver, h.ver + 1);
      QueueKeeps(c, h.(image := Candidate(h.image, Pending(h.compaction), []), compaction := Installed), h.image.snapshot.value.key);
    }
  }

  /** The accepted version is the image this handle published over the version it holds. */
  lemma AcceptedShape<S>(w: World<S>, h: Handle<S>)
    requires Inv(w) && HandleInv(w.app, w.cloud, w.jobs, h) && h.phase.Waiting?
    requires h.ver + 1 < |w.cloud.versions| && w.cloud.versions[h.ver + 1].put == h.phase.put
    ensures h.compaction.Ready? ==> Applies(h.compaction.fold, h.image)
    ensures w.cloud.versions[h.ver + 1].image == Candidate(h.image, Pending(h.compaction), h.phase.batch)
    ensures VersionInv(w.rules, w.cloud, w.cloud.versions[h.ver + 1].image) && CloudInv(w.rules, w.cloud)
  {
    hide Fits, Law, JobInv, Position, Maintenance, VersionInv, Chain, Uploads, RequestInv, Obsolete, Candidate, Applies;
    assert Wrote(w.cloud, w.cloud.versions[h.ver + 1], h.ver + 1);
  }

  /** After an accepted PUT the in-place update equals the published image, and the state its replay. */
  lemma InstallKeeps<S>(w: World<S>, h: Handle<S>)
    requires Inv(w) && HandleInv(w.app, w.cloud, w.jobs, h) && h.phase.Waiting?
    requires h.ver + 1 < |w.cloud.versions| && w.cloud.versions[h.ver + 1].put == h.phase.put
    requires h.compaction.Ready? ==> Applies(h.compaction.fold, h.image)
    ensures HandleInv(w.app, w.cloud, w.jobs, Install(w.app, h, h.phase.batch, w.cloud.versions[h.ver + 1], h.ver + 1))
  {
    hide Inv, Fits, History, StateAt, Replay, CloudInv, Garbage, Candidate, Applies, VersionInv, FoldIn;
    var v := w.cloud.versions[h.ver + 1];
    AcceptedShape(w, h);
    CandidateShape(h.image, Pending(h.compaction), h.phase.batch);
    InstallState(w, h, v.image);
    FoldInShape(h, h.phase.batch);
    FoldInKeeps(w.rules, w.cloud, h);
  }

  lemma InstallState<S>(w: World<S>, h: Handle<S>, image: WalImage)
    requires Position(w.app, w.cloud, h) && VersionInv(w.rules, w.cloud, image)
    requires h.phase.Waiting? && (h.compaction.Ready? ==> Applies(h.compaction.fold, h.image))
    requires image == Candidate(h.image, Pending(h.compaction), h.phase.batch)
    ensures Replay(w.app, h.state, h.image.Next(), h.phase.batch) == StateAt(w.app, w.cloud.Log()[..image.Next()])
    ensures image.Next() <= |w.cloud.Log()|
  {
    hide Fits, History, StateAt, Replay, Candidate, Skip;
    var c := w.cloud;
    CandidateShape(h.image, Pending(h.compaction), h.phase.batch);
    TailOfSlice(c.Log(), image.First(), h.image.Next(), image.Next(),
                h.image.entries[Skip(Pending(h.compaction), h.image)..], h.phase.batch);
    StateGrows(w.app, c, h.image.Next(), image.Next(), h.state, h.phase.batch);
  }

  lemma FinishKeeps<S>(w: World<S>, h: Handle<S>)
    requires h.phase.Calm? && h.compaction.Running? && h.compaction.job in w.jobs
    requires w.jobs[h.compaction.job].phase.Done? || w.jobs[h.compaction.job].phase.Aborted?
    requires HandleInv(w.app, w.cloud, w.jobs, h) && Inv(w)
    ensures HandleInv(w.app, w.cloud, w.jobs, FinishOutcome(h, w.jobs[h.compaction.job]))
  {
    hide Fits, History, StateAt, Law, CloudInv, Obsolete, Garbage, Discard;
    var job := w.jobs[h.compaction.job];
    assert JobInv(w.rules, w.cloud, job);
    if job.phase.Done? {
      DiscardKeeps(w.rules, w.cloud, w.jobs, h.(compaction := Ready(SnapshotRef(job.phase.key, job.Count() - 1))));
    }
  }

  lemma SendPutKeeps<S>(w: World<S>, h: Handle<S>, batch: seq<Bytes>)
    requires Inv(w) && HandleInv(w.app, w.cloud, w.jobs, h) && HandleEnabled(w, h, SendPut(batch))
    ensures var d := HandleCloud(w, h, SendPut(batch));
      && CloudInv(w.rules, d) && Extends(w.cloud, d)
      && HandleInv(w.app, d, w.jobs, HandleAfter(w, h, SendPut(batch)))
  {
    hide Fits, History, StateAt, Law, JobInv, Obsolete, Garbage, Candidate, VersionInv, Chain, Uploads, Link, SnapInv;
    var c := w.cloud;
    var p := Put(h.etag, h.ver, Pending(h.compaction), batch, Candidate(h.image, Pending(h.compaction), batch));
    assert RequestInv(w.rules, c, p);
    SendKeeps(w.rules, c, p);
    HandleStable(w.app, w.rules, c, Send(c, p), w.jobs, w.jobs, h);
  }

  lemma SendCreateKeeps<S>(w: World<S>, h: Handle<S>)
    requires Inv(w) && HandleInv(w.app, w.cloud, w.jobs, h) && HandleEnabled(w, h, SendCreate)
    ensures var d := HandleCloud(w, h, SendCreate);
      && CloudInv(w.rules, d) && Extends(w.cloud, d)
      && HandleInv(w.app, d, w.jobs, HandleAfter(w, h, SendCreate))
  {
    hide Fits, History, StateAt, Law, JobInv, Obsolete, Garbage, Candidate, VersionInv, Chain, Uploads, Link, SnapInv;
    var c := w.cloud;
    var p := Put(None, 0, None, [], Empty);
    SendKeeps(w.rules, c, p);
    HandleStable(w.app, w.rules, c, Send(c, p), w.jobs, w.jobs, h);
  }

  lemma RejectKeeps<S>(w: World<S>, h: Handle<S>, d: Cloud, after: Handle<S>, id: nat)
    requires Inv(w) && HandleInv(w.app, w.cloud, w.jobs, h) && d == w.cloud.(flight := w.cloud.flight - {id})
    requires after == h.(phase := after.phase) && PhaseInv(w.cloud, after)
    ensures CloudInv(w.rules, d) && Extends(w.cloud, d) && HandleInv(w.app, d, w.jobs, after)
  {
    hide Fits, History, StateAt, Law, JobInv, Obsolete, Garbage, Candidate, CloudInv;
    var c := w.cloud;
    Settle(w.rules, c, d);
    HandleStable(w.app, w.rules, c, d, w.jobs, w.jobs, after);
  }

  lemma Settle(r: Rules, c: Cloud, d: Cloud)
    requires CloudInv(r, c) && d == c.(flight := d.flight, deletes := d.deletes, uploading := d.uploading)
    requires d.flight <= c.flight && d.uploading <= c.uploading
    requires forall k :: k in d.deletes && k !in c.deletes ==> Obsolete(c, k)
    ensures CloudInv(r, d) && Extends(c, d)
  {
    hide Fits, History, Obsolete, SnapInv, VersionInv, Chain, Link, RequestInv;
    SettleKeeps(r, c, d);
  }

  lemma SendDeleteKeeps<S>(w: World<S>, h: Handle<S>)
    requires Inv(w) && HandleInv(w.app, w.cloud, w.jobs, h) && HandleEnabled(w, h, SendDelete)
    ensures var d := HandleCloud(w, h, SendDelete);
      && CloudInv(w.rules, d) && Extends(w.cloud, d)
      && HandleInv(w.app, d, w.jobs, HandleAfter(w, h, SendDelete))
  {
    hide Fits, History, StateAt, Law, JobInv, Obsolete, Candidate, CloudInv;
    var d := HandleCloud(w, h, SendDelete);
    Settle(w.rules, w.cloud, d);
    HandleStable(w.app, w.rules, w.cloud, d, w.jobs, w.jobs, HandleAfter(w, h, SendDelete));
  }

  /** Steps that leave the store alone and only change how far the handle has come. */
  lemma LocalKeeps<S>(w: World<S>, h: Handle<S>, s: HandleStep)
    requires Inv(w) && HandleInv(w.app, w.cloud, w.jobs, h) && HandleEnabled(w, h, s)
    requires s.Unknown? || s.StartRead? || s.GiveUp? || s.SpawnFailed? || s.Acknowledge? || s.DeleteDone? || s.DeleteFailed?
    ensures HandleInv(w.app, w.cloud, w.jobs, HandleAfter(w, h, s))
  {
    hide Fits, History, StateAt, Law, JobInv, Obsolete, Candidate, CloudInv;
  }

  lemma HandleKeeps<S>(w: World<S>, h: Handle<S>, s: HandleStep)
    requires Inv(w) && HandleInv(w.app, w.cloud, w.jobs, h) && HandleEnabled(w, h, s)
    ensures var d := HandleCloud(w, h, s);
      CloudInv(w.rules, d) && Extends(w.cloud, d) && HandleInv(w.app, d, w.jobs, HandleAfter(w, h, s))
  {
    hide Fits, History, StateAt, Law, JobInv, Obsolete, Candidate, CloudInv, Position, Maintenance, Adopt, Install,
         ReadOutcome, FetchOutcome, FinishOutcome, HandleInv;
    ExtendsItself(w.cloud);
    match s
    case SendCreate => SendCreateKeeps(w, h);
    case Created => CreatedKeeps(w, h);
    case CreateRejected => CreateRejectedKeeps(w, h);
    case SendPut(batch) => SendPutKeeps(w, h, batch);
    case Accepted => InstallKeeps(w, h);
    case Rejected => Unfold(w.app, w.cloud, w.jobs, h);
      RejectKeeps(w, h, HandleCloud(w, h, s), HandleAfter(w, h, s), h.phase.put);
    case NotApplied => NotAppliedKeeps(w, h);
    case ReadWal => ReadKeeps(w, h);
    case ReadSnapshot(cached) => FetchKeeps(w, h, cached);
    case Finish => FinishKeeps(w, h);
    case SendDelete => SendDeleteKeeps(w, h);
    case _ => LocalKeeps(w, h, s);
  }

  lemma ExtendsItself(c: Cloud)
    ensures Extends(c, c)
  {
  }

  lemma CreatedKeeps<S>(w: World<S>, h: Handle<S>)
    requires Inv(w) && HandleInv(w.app, w.cloud, w.jobs, h) && HandleEnabled(w, h, Created)
    ensures HandleInv(w.app, w.cloud, w.jobs, HandleAfter(w, h, Created))
  {
    hide Fits, History, Law, JobInv, Obsolete, Maintenance, Adopt, VersionInv, Link, RequestInv, Uploads;
    var c := w.cloud;
    assert c.versions[0].image == Empty && c.Log()[..0] == [];
    AdoptKeeps(w.app, w.rules, c, w.jobs, h, 0, w.app.init);
  }

  lemma CreateRejectedKeeps<S>(w: World<S>, h: Handle<S>)
    requires Inv(w) && HandleInv(w.app, w.cloud, w.jobs, h) && HandleEnabled(w, h, CreateRejected)
    ensures var d := HandleCloud(w, h, CreateRejected);
      CloudInv(w.rules, d) && Extends(w.cloud, d) && HandleInv(w.app, d, w.jobs, HandleAfter(w, h, CreateRejected))
  {
    hide Fits, History, StateAt, Law, JobInv, Obsolete, Candidate, CloudInv, Position, Maintenance;
    RejectKeeps(w, h, HandleCloud(w, h, CreateRejected), HandleAfter(w, h, CreateRejected), h.phase.put);
  }

  lemma NotAppliedKeeps<S>(w: World<S>, h: Handle<S>)
    requires Inv(w) && HandleInv(w.app, w.cloud, w.jobs, h) && HandleEnabled(w, h, NotApplied)
    ensures var d := HandleCloud(w, h, NotApplied);
      CloudInv(w.rules, d) && Extends(w.cloud, d) && HandleInv(w.app, d, w.jobs, HandleAfter(w, h, NotApplied))
  {
    hide Fits, History, StateAt, Law, JobInv, Obsolete, Candidate, CloudInv, Position, Maintenance;
    RejectKeeps(w, h, HandleCloud(w, h, NotApplied), HandleAfter(w, h, NotApplied), h.phase.put);
  }

  // ----- compactor steps -----

  /** Whatever happened to the log meanwhile, a built snapshot stands for the prefix it was asked to fold. */
  lemma BuildKeeps<S>(w: World<S>, job: Job, cached: bool)
    requires Inv(w) && JobInv(w.rules, w.cloud, job) && job.phase.Started?
    ensures JobInv(w.rules, w.cloud, job.(phase := BuildOutcome(w, job, cached)))
  {
    hide Fits, History, StateAt, Replay, Obsolete, HandleInv, Chain, Link, RequestInv, VersionInv;
    var c := w.cloud;
    var after := BuildOutcome(w, job, cached);
    if after.Built? {
      if job.baseKey.Some? {
        assert SnapInv(w.rules, c, c.tried[job.baseKey.value]);
      }
      assert c.Log()[..job.Count()] == c.Log()[..job.first] + job.entries;
      assert w.rules.rep(after.bytes, c.Log()[..job.Count()]);
    }
  }

  lemma JobKeeps<S>(w: World<S>, job: Job, s: JobStep)
    requires Inv(w) && JobInv(w.rules, w.cloud, job) && JobEnabled(w, job, s)
    ensures var d := JobCloud(w, job, s);
      CloudInv(w.rules, d) && Extends(w.cloud, d) && JobInv(w.rules, d, JobAfter(w, job, s))
  {
    hide Fits, History, StateAt, Law, HandleInv, CloudInv, BuildOutcome, Obsolete;
    var c, d := w.cloud, JobCloud(w, job, s);
    ExtendsItself(c);
    match s
    case Build(cached) => BuildKeeps(w, job, cached);
    case Upload(key) =>
      TryKeeps(w.rules, c, key, Snap(job.phase.bytes, job.Count()));
      JobStable(w.rules, c, d, job);
    case Collided =>
      Settle(w.rules, c, d);
      JobStable(w.rules, c, d, job.(phase := Built(job.phase.bytes)));
    case UploadDone =>
    case GiveUpJob =>
  }

  // ----- every step -----

  lemma SpawnKeeps<S>(w: World<S>, h: nat, j: nat)
    requires Inv(w) && Enabled(w, Spawn(h, j))
    ensures JobInv(w.rules, w.cloud, NewJob(w.handles[h].image))
    ensures HandleInv(w.app, w.cloud, w.jobs[j := NewJob(w.handles[h].image)], w.handles[h].(compaction := Running(j)))
  {
    hide Fits, History, StateAt, Law, Obsolete, Chain, Link, RequestInv, Uploads, Garbage;
    var handle := w.handles[h];
    assert HandleInv(w.app, w.cloud, w.jobs, handle);
    VersionsOrdered(w.rules, w.cloud, handle.ver, handle.ver);
  }

  lemma FreshKeeps<S>(w: World<S>, writer: bool, cap: nat)
    requires Inv(w)
    ensures HandleInv(w.app, w.cloud, w.jobs, Fresh(w.app, writer, cap))
  {
    hide Fits, History, Law, Obsolete, Chain, Link, RequestInv, Uploads;
    assert w.cloud.Log()[..0] == [];
  }

  /** The inductive step: whatever happens next, everything above still holds. */
  lemma StepKeeps<S>(w: World<S>, s: Step)
    requires Inv(w) && Enabled(w, s)
    ensures Inv(After(w, s)) && Extends(w.cloud, After(w, s).cloud) && JobsExtend(w.jobs, After(w, s).jobs)
  {
    hide Fits, Law, CloudInv, HandleInv, JobInv, Extends, NetEnabled, HandleEnabled, JobEnabled,
         Net, HandleCloud, HandleAfter, JobCloud, NewJob, Fresh;
    var a := After(w, s);
    ExtendsItself(w.cloud);
    match s {
      case OfNet(net) => NetKeeps(w.rules, w.cloud, net);
      case OfHandle(h, act) => HandleKeeps(w, w.handles[h], act);
      case OfJob(j, work) => JobKeeps(w, w.jobs[j], work); SameJob(w, w.jobs[j], work);
      case Open(h, writer, cap) => FreshKeeps(w, writer, cap);
      case Drop(h) =>
      case Spawn(h, j) => SpawnKeeps(w, h, j);
    }
    forall h | h in a.handles ensures HandleInv(a.app, a.cloud, a.jobs, a.handles[h]) {
      if h in w.handles && a.handles[h] == w.handles[h] {
        HandleStable(w.app, w.rules, w.cloud, a.cloud, w.jobs, a.jobs, w.handles[h]);
      }
    }
    forall j | j in a.jobs ensures JobInv(a.rules, a.cloud, a.jobs[j]) {
      if j in w.jobs && a.jobs[j] == w.jobs[j] {
        JobStable(w.rules, w.cloud, a.cloud, w.jobs[j]);
      }
    }
  }

  lemma SameJob<S>(w: World<S>, job: Job, s: JobStep)
    requires JobEnabled(w, job, s)
    ensures var after := JobAfter(w, job, s); after.baseKey == job.baseKey && after.first == job.first && after.entries == job.entries
    ensures job.phase.Done? || job.phase.Aborted? ==> JobAfter(w, job, s).phase == job.phase
  {
  }

  lemma InitialInv<S>(w: World<S>)
    requires Initial(w) && Law(w.app, w.rules.rep)
    ensures Inv(w)
  {
  }
}
