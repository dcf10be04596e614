/** What holds of every run: any steps, in any order, of any number of writers, replicas and compactors. */
module ProtocolTheorems {
  import opened Primitives
  import opened Image
  import opened App
  import opened Protocol
  import opened CloudInvariant
  import opened WorldInvariant

  predicate CanRun<S>(w: World<S>, steps: seq<Step>)
    decreases |steps|
  {
    steps == [] || (Enabled(w, steps[0]) && CanRun(After(w, steps[0]), steps[1..]))
  }

  function Run<S>(w: World<S>, steps: seq<Step>): World<S>
    requires CanRun(w, steps)
    decreases |steps|
  {
    if steps == [] then w else Run(After(w, steps[0]), steps[1..])
  }

  /** Safety over whole runs: the invariant is never left, and nothing committed is ever taken back. */
  lemma {:induction false} RunKeeps<S>(w: World<S>, steps: seq<Step>)
    requires Inv(w) && CanRun(w, steps)
    ensures Inv(Run(w, steps)) && Extends(w.cloud, Run(w, steps).cloud)
    ensures Run(w, steps).app == w.app && Run(w, steps).rules == w.rules
    decreases |steps|
  {
    hide Inv, Extends, Enabled;
    if steps == [] {
      ExtendsItself(w.cloud);
    } else {
      var next := After(w, steps[0]);
      StepKeeps(w, steps[0]);
      RunKeeps(next, steps[1..]);
      ExtendsTransitive(w.cloud, next.cloud, Run(next, steps[1..]).cloud);
    }
  }

  lemma Reachable<S>(w: World<S>, steps: seq<Step>)
    requires Initial(w) && Law(w.app, w.rules.rep) && CanRun(w, steps)
    ensures Inv(Run(w, steps))
  {
    InitialInv(w);
    RunKeeps(w, steps);
  }

  // ----- the history is an append-only sequence of whole batches -----

  /** The only step that changes the history is a PUT taking effect, and it appends that call's whole batch. */
  lemma StepAppends<S>(w: World<S>, s: Step)
    requires Inv(w) && Enabled(w, s)
    ensures After(w, s).cloud.Log() == w.cloud.Log() + if s.OfNet? && s.net.LandPut? then w.cloud.requests[s.net.id].batch else []
  {
    hide Inv, CloudInv, Fits, HandleEnabled, JobEnabled, HandleAfter, JobAfter, NewJob, Fresh, History;
    if s.OfNet? && s.net.LandPut? {
      InvCloud(w);
      LandKeeps(w.rules, w.cloud, s.net.id, s.net.etag);
    } else {
      assert After(w, s).cloud.versions == w.cloud.versions;
    }
  }

  lemma InvCloud<S>(w: World<S>)
    requires Inv(w)
    ensures CloudInv(w.rules, w.cloud) && Law(w.app, w.rules.rep)
  {
  }

  lemma RunOnlyAppends<S>(w: World<S>, steps: seq<Step>)
    requires Inv(w) && CanRun(w, steps)
    ensures w.cloud.Log() <= Run(w, steps).cloud.Log()
  {
    hide Inv, History;
    RunKeeps(w, steps);
    HistoryMonotone(w.cloud.versions, Run(w, steps).cloud.versions);
  }

  /** No object content and no validator is ever stored twice. */
  lemma VersionsNeverRepeat<S>(w: World<S>, i: nat, j: nat)
    requires Inv(w) && i < j < |w.cloud.versions|
    ensures w.cloud.versions[i].etag != w.cloud.versions[j].etag
    ensures Layout(w.cloud.versions[i].image) != Layout(w.cloud.versions[j].image)
    ensures w.cloud.versions[i].put != w.cloud.versions[j].put
  {
    hide Fits, History, Layout, HandleInv, JobInv, Uploads, RequestInv;
    var c := w.cloud;
    assert Progress(c.versions[i].image, c.versions[j].image);
    assert Wrote(c, c.versions[i], i) && Wrote(c, c.versions[j], j);
    assert VersionInv(w.rules, c, c.versions[i].image) && VersionInv(w.rules, c, c.versions[j].image);
    if Layout(c.versions[i].image) == Layout(c.versions[j].image) {
      PrefixFree(c.versions[i].image, c.versions[j].image, w.rules.limits);
    }
  }

  // ----- recovery -----

  /** A cold reader: the stored image, the snapshot it names, and the entries above it. */
  function Recover<S>(w: World<S>): Result<S, string> {
    var c := w.cloud;
    if c.versions == [] then Ok(w.app.init)
    else
      var image := c.Last().image;
      if image.snapshot.None? then Ok(Replay(w.app, w.app.init, 0, image.entries))
      else if SnapshotReadable(c, image.snapshot.value.key, false) && image.snapshot.value.key in c.tried
      then Rebuild(w.app, c.tried[image.snapshot.value.key].bytes, image)
      else Err("missing snapshot")
  }

  /** In every reachable state the referenced snapshot exists, and recovery equals replaying the whole history. */
  lemma RecoveryIsReplay<S>(w: World<S>)
    requires Inv(w)
    ensures Recover(w) == Ok(StateAt(w.app, w.cloud.Log()))
  {
    hide Fits, History, Rebuild, HandleInv, JobInv, RequestInv, Link, Uploads;
    var c := w.cloud;
    if c.versions != [] {
      var last := |c.versions| - 1;
      VersionsOrdered(w.rules, c, last, last);
      assert c.Log()[..c.Last().image.Next()] == c.Log() && c.Log()[0..|c.Log()|] == c.Log();
      if c.Last().image.snapshot.Some? {
        RebuildSound(w, last);
        assert !Obsolete(c, c.Last().image.snapshot.value.key);
      }
    }
  }

  // ----- deletion safety -----

  /** A key some handle may delete, has asked to delete, or has deleted. */
  ghost predicate Condemned<S>(w: World<S>, key: Text) {
    || key in w.cloud.deleted || key in w.cloud.deletes
    || exists h :: h in w.handles && key in w.handles[h].garbage
  }

  lemma CondemnedObsolete<S>(w: World<S>, key: Text)
    requires Inv(w) && Condemned(w, key)
    ensures Obsolete(w.cloud, key)
  {
    hide Fits, History, Law, JobInv, Position, PhaseInv, Chain, Link, RequestInv, Uploads, Obsolete;
    if key !in w.cloud.deleted && key !in w.cloud.deletes {
      var h :| h in w.handles && key in w.handles[h].garbage;
      assert HandleInv(w.app, w.cloud, w.jobs, w.handles[h]);
    }
  }

  /** No condemned key is named by the stored WAL object, now or after any further steps. */
  lemma CondemnedNeverNamed<S>(w: World<S>, key: Text, steps: seq<Step>)
    requires Inv(w) && Condemned(w, key) && CanRun(w, steps)
    ensures var c := Run(w, steps).cloud;
      c.versions != [] && c.Last().image.snapshot.Some? && c.Last().image.snapshot.value.key != key
  {
    hide Inv, CloudInv, Extends, Condemned, Fits, History;
    CondemnedObsolete(w, key);
    RunKeeps(w, steps);
    InvCloud(Run(w, steps));
    ObsoleteStable(w.rules, w.cloud, Run(w, steps).cloud, key);
  }

  /** A PUT that can still take effect, however late, names only snapshots that exist. */
  lemma InstallableSnapshotExists<S>(w: World<S>, id: nat)
    requires Inv(w) && id in w.cloud.flight && id < |w.cloud.requests| && CasMatches(w.cloud.Etag(), w.cloud.requests[id].expected)
    ensures var image := w.cloud.requests[id].image;
      image.snapshot.Some? ==> SnapshotReadable(w.cloud, image.snapshot.value.key, false)
  {
    hide Fits, History, HandleInv, JobInv, Law, Candidate, Uploads, Link, Chain;
    var c := w.cloud;
    var p := c.requests[id];
    InvCloud(w);
    LandsOnCurrent(w.rules, c, p);
    if p.expected.Some? {
      VersionsOrdered(w.rules, c, p.base, p.base);
      RequestShape(w.rules, c, p);
      assert p.image.snapshot.Some? ==> !Obsolete(c, p.image.snapshot.value.key);
    }
  }

  // ----- handles -----

  /** Every open handle's state is exactly the replay of a prefix of the history, and none ever reports corruption. */
  lemma HandleStateIsReplay<S>(w: World<S>, h: nat)
    requires Inv(w) && h in w.handles
    ensures w.handles[h].image.Next() <= |w.cloud.Log()|
    ensures w.handles[h].state == StateAt(w.app, w.cloud.Log()[..w.handles[h].image.Next()])
    ensures !w.handles[h].phase.Corrupted?
  {
    hide Fits, History, StateAt, Law, JobInv, Obsolete, CloudInv;
    assert HandleInv(w.app, w.cloud, w.jobs, w.handles[h]);
  }

  /** When the snapshot a reader was sent to is gone, the stored WAL already carries another validator. */
  lemma MissingMeansMovedOn<S>(w: World<S>, ver: nat)
    requires Inv(w) && ver < |w.cloud.versions| && w.cloud.versions[ver].image.snapshot.Some?
    requires !SnapshotReadable(w.cloud, w.cloud.versions[ver].image.snapshot.value.key, false)
    ensures ver < |w.cloud.versions| - 1 && w.cloud.Etag() != Some(w.cloud.versions[ver].etag)
  {
    hide Fits, History, HandleInv, JobInv, Law, RequestInv, Link, Uploads;
    var c := w.cloud;
    VersionsOrdered(w.rules, c, ver, ver);
    assert Obsolete(c, c.versions[ver].image.snapshot.value.key);
  }

  lemma InstallImage<S>(app: WalApp<S>, h: Handle<S>, batch: seq<Bytes>, v: Version, ver: nat)
    requires h.compaction.Ready? ==> Applies(h.compaction.fold, h.image)
    ensures Install(app, h, batch, v, ver).image.Next() == h.image.Next() + |batch|
  {
    hide Candidate, Replay, FoldIn;
    FoldInShape(h, batch);
    CandidateShape(h.image, Pending(h.compaction), batch);
  }

  lemma AdoptNext<S>(w: World<S>, h: Handle<S>, ver: nat, state: S)
    requires Inv(w) && HandleInv(w.app, w.cloud, w.jobs, h) && ver < |w.cloud.versions| && (h.etag.Some? ==> h.ver <= ver)
    ensures h.image.Next() <= Adopt(h, w.cloud.versions[ver], ver, state).image.Next()
  {
    hide Inv, HandleInv;
    HeldVersion(w, h, ver);
  }

  lemma ReadNext<S>(w: World<S>, h: Handle<S>)
    requires Inv(w) && HandleInv(w.app, w.cloud, w.jobs, h) && h.phase.Reading?
    ensures h.image.Next() <= ReadOutcome(w, h).image.Next()
  {
    hide Inv, HandleInv, Adopt, Catchup;
    Unfold(w.app, w.cloud, w.jobs, h);
    if w.cloud.versions != [] {
      AdoptNext(w, h, |w.cloud.versions| - 1, Catchup(w.app, h, w.cloud.Last().image));
    }
  }

  lemma FetchNext<S>(w: World<S>, h: Handle<S>, cached: bool)
    requires Inv(w) && HandleInv(w.app, w.cloud, w.jobs, h) && HandleEnabled(w, h, ReadSnapshot(cached))
    ensures h.image.Next() <= FetchOutcome(w, h, cached).image.Next()
  {
    hide Inv, HandleInv, Adopt, Rebuild;
    Unfold(w.app, w.cloud, w.jobs, h);
    RebuildSound(w, h.phase.ver);
    var rebuilt := Rebuild(w.app, w.cloud.tried[w.cloud.versions[h.phase.ver].image.snapshot.value.key].bytes,
                           w.cloud.versions[h.phase.ver].image);
    if rebuilt.Ok? {
      AdoptNext(w, h, h.phase.ver, rebuilt.value);
    }
  }

  /** A handle never moves back: its next LSN is kept or raised by each of its own steps. */
  lemma NextNeverFalls<S>(w: World<S>, h: nat, act: HandleStep)
    requires Inv(w) && h in w.handles && HandleEnabled(w, w.handles[h], act)
    ensures w.handles[h].image.Next() <= After(w, OfHandle(h, act)).handles[h].image.Next()
  {
    hide Fits, Law, JobInv, CloudInv, HandleInv, Adopt, Install, ReadOutcome, FetchOutcome, FinishOutcome, CasMatches, Candidate;
    var it := w.handles[h];
    Unfold(w.app, w.cloud, w.jobs, it);
    match act
    case Created => AdoptNext(w, it, 0, w.app.init);
    case Accepted => InstallImage(w.app, it, it.phase.batch, w.cloud.versions[it.ver + 1], it.ver + 1);
    case ReadWal => ReadNext(w, it);
    case ReadSnapshot(cached) => FetchNext(w, it, cached);
    case _ => OnlyCommitsAndReadsMove(w, it, act);
  }

  /** Failures, rejections and maintenance change neither state, image nor validator. */
  lemma OnlyCommitsAndReadsMove<S>(w: World<S>, h: Handle<S>, act: HandleStep)
    requires HandleEnabled(w, h, act) && !act.Created? && !act.Accepted? && !act.ReadWal? && !act.ReadSnapshot?
    ensures var after := HandleAfter(w, h, act); after.image == h.image && after.state == h.state && after.etag == h.etag
  {
    hide Fits, Candidate, CasMatches;
  }

  // ----- fold lifetime and maintenance -----

  ghost predicate Named(c: Cloud, key: Text) {
    exists i :: 0 <= i < |c.versions| && c.versions[i].image.snapshot.Some? && c.versions[i].image.snapshot.value.key == key
  }

  /** A pending fold covers a proper prefix of the held entries; any version it no longer fits has folded past it. */
  lemma FoldLifetime<S>(w: World<S>, h: nat, ver: nat)
    requires Inv(w) && h in w.handles && w.handles[h].compaction.Ready? && w.handles[h].ver <= ver < |w.cloud.versions|
    ensures Applies(w.handles[h].compaction.fold, w.handles[h].image)
    ensures var fold, image := w.handles[h].compaction.fold, w.cloud.versions[ver].image;
      !Applies(fold, image) <==> fold.lsn < image.First()
  {
    hide Fits, Law, JobInv, CloudInv, HandleInv, History, Garbage;
    Unfold(w.app, w.cloud, w.jobs, w.handles[h]);
    VersionsOrdered(w.rules, w.cloud, w.handles[h].ver, ver);
  }

  /** Installing a fold keeps the next LSN and strictly raises the first live one to just above the fold. */
  lemma FoldInRaises<S>(h: Handle<S>)
    requires h.compaction.Ready? && Applies(h.compaction.fold, h.image)
    ensures FoldIn(h).image.Next() == h.image.Next() && FoldIn(h).state == h.state
    ensures FoldIn(h).image.First() == h.compaction.fold.lsn + 1 > h.image.First()
    ensures FoldIn(h).image.entries == h.image.entries[|h.image.entries| - |FoldIn(h).image.entries|..]
  {
    hide Candidate;
    FoldInShape(h, []);
    CandidateShape(h.image, Pending(h.compaction), []);
    assert FoldIn(h).image.entries + [] == FoldIn(h).image.entries;
    assert h.image.entries[Skip(Pending(h.compaction), h.image)..] + [] == h.image.entries[Skip(Pending(h.compaction), h.image)..];
  }

  lemma AdoptInstalled<S>(h: Handle<S>, v: Version, ver: nat, state: S)
    requires h.compaction.Ready? && Adopt(h, v, ver, state).compaction.Installed?
    ensures v.image.snapshot.Some? && v.image.snapshot.value.key == h.compaction.fold.key
  {
  }

  /** A fold is reported installed only when some accepted WAL version names its key, however its PUT was answered. */
  lemma InstalledWasNamed<S>(w: World<S>, h: nat, act: HandleStep)
    requires h in w.handles && HandleEnabled(w, w.handles[h], act) && w.handles[h].compaction.Ready?
    requires HandleAfter(w, w.handles[h], act).compaction.Installed?
    requires Inv(w)
    ensures Named(w.cloud, w.handles[h].compaction.fold.key)
  {
    hide Fits, Law, JobInv, HandleInv, Adopt, Install, Catchup, Rebuild, FinishOutcome, CasMatches, Candidate,
         Named, VersionInv, RequestInv, Chain, Uploads;
    var it := w.handles[h];
    Unfold(w.app, w.cloud, w.jobs, it);
    match act
    case Accepted => AcceptedNames(w, it);
    case ReadWal => AdoptNames(w, it, |w.cloud.versions| - 1, Catchup(w.app, it, w.cloud.Last().image));
    case ReadSnapshot(cached) =>
      var key := w.cloud.versions[it.phase.ver].image.snapshot.value.key;
      var rebuilt := Rebuild(w.app, w.cloud.tried[key].bytes, w.cloud.versions[it.phase.ver].image);
      AdoptNames(w, it, it.phase.ver, rebuilt.value);
    case _ =>
  }

  lemma AdoptNames<S>(w: World<S>, h: Handle<S>, ver: nat, state: S)
    requires h.compaction.Ready? && ver < |w.cloud.versions| && Adopt(h, w.cloud.versions[ver], ver, state).compaction.Installed?
    ensures Named(w.cloud, h.compaction.fold.key)
  {
    hide Adopt;
    AdoptInstalled(h, w.cloud.versions[ver], ver, state);
  }

  lemma AcceptedNames<S>(w: World<S>, h: Handle<S>)
    requires Inv(w) && HandleInv(w.app, w.cloud, w.jobs, h) && HandleEnabled(w, h, Accepted) && h.compaction.Ready?
    ensures Named(w.cloud, h.compaction.fold.key)
  {
    hide Fits, Law, JobInv, Position, Maintenance, VersionInv, RequestInv, Chain, Uploads, Candidate;
    var v := w.cloud.versions[h.ver + 1];
    assert Wrote(w.cloud, v, h.ver + 1);
    CandidateShape(h.image, Pending(h.compaction), h.phase.batch);
  }

  /** A key offered for deletion is queued, or counted; the queue keeps its order and cap and gains no duplicate. */
  lemma OfferedIsAccountedFor<S>(h: Handle<S>, key: Text)
    requires |h.garbage| <= h.cap && forall i, j :: 0 <= i < j < |h.garbage| ==> h.garbage[i] != h.garbage[j]
    ensures var after := QueueObsolete(h, key);
      && h.garbage <= after.garbage && |after.garbage| <= h.cap
      && (forall i, j :: 0 <= i < j < |after.garbage| ==> after.garbage[i] != after.garbage[j])
      && (key in after.garbage ==> after.overflowed == h.overflowed)
      && (key !in after.garbage ==> |h.garbage| == h.cap && after.overflowed == Min(h.overflowed + 1, U64_MAX))
  {
  }

  /** Afterwards the key is queued, or the overflow count has moved up, as far as it goes. */
  ghost predicate Offered<S>(a: Handle<S>, b: Handle<S>, key: Text) {
    key in b.garbage || b.overflowed >= Min(a.overflowed + 1, U64_MAX)
  }

  lemma OfferedByQueueing<S>(h: Handle<S>, key: Text)
    ensures var after := QueueObsolete(h, key);
      Offered(h, after, key) && after == h.(garbage := after.garbage, overflowed := after.overflowed)
    ensures h.garbage <= QueueObsolete(h, key).garbage && QueueObsolete(h, key).overflowed >= Min(h.overflowed, U64_MAX)
  {
  }

  /** A fold is dropped exactly when it no longer applies; then it is installed if the image names it, and offered for deletion otherwise. */
  lemma DiscardAccounts<S>(h: Handle<S>)
    ensures var after := Discard(h);
      && after == h.(compaction := after.compaction, garbage := after.garbage, overflowed := after.overflowed)
      && h.garbage <= after.garbage && after.overflowed >= Min(h.overflowed, U64_MAX)
      && (!h.compaction.Ready? || Applies(h.compaction.fold, h.image) ==> after == h)
      && (h.compaction.Ready? && !Applies(h.compaction.fold, h.image) ==>
            if h.image.snapshot.Some? && h.image.snapshot.value.key == h.compaction.fold.key then after == h.(compaction := Installed)
            else after.compaction.Superseded? && Offered(h, after, h.compaction.fold.key))
  {
    hide QueueObsolete, Offered;
    if h.compaction.Ready? {
      OfferedByQueueing(h.(compaction := Superseded), h.compaction.fold.key);
    }
    OfferedIgnores(h, Discard(h));
  }

  lemma OfferedIgnores<S>(h: Handle<S>, after: Handle<S>)
    ensures forall key :: Offered(h.(compaction := Superseded), after, key) <==> Offered(h, after, key)
  {
  }

  /** What a handle stops needing in one step is accounted for in that step: the snapshot its image no longer
      names, and a fold that turns superseded, are queued or counted. */
  ghost predicate NothingForgotten<S>(h: Handle<S>, after: Handle<S>) {
    && (h.image.snapshot.Some? && (after.image.snapshot.None? || after.image.snapshot.value.key != h.image.snapshot.value.key) ==>
          Offered(h, after, h.image.snapshot.value.key))
    && (h.compaction.Ready? && after.compaction.Superseded? ==>
          && Offered(h, after, h.compaction.fold.key)
          && !(after.image.snapshot.Some? && after.image.snapshot.value.key == h.compaction.fold.key))
  }

  lemma AdoptAccounts<S>(h: Handle<S>, v: Version, ver: nat, state: S)
    requires h.writer
    ensures NothingForgotten(h, Adopt(h, v, ver, state))
    ensures var gone := h.image.snapshot; gone.Some? && (v.image.snapshot.None? || v.image.snapshot.value.key != gone.value.key) ==>
              Offered(h, Adopt(h, v, ver, state), gone.value.key)
  {
    hide QueueObsolete, Discard;
    var core := h.(etag := Some(v.etag), ver := ver, image := v.image, state := state, phase := Calm);
    DiscardAccounts(core);
    if h.image.snapshot.Some? {
      OfferedByQueueing(Discard(core), h.image.snapshot.value.key);
    }
  }

  lemma FoldInAccounts<S>(h: Handle<S>)
    requires h.compaction.Ready? ==> Applies(h.compaction.fold, h.image)
    ensures NothingForgotten(h, FoldIn(h))
  {
    hide QueueObsolete, Candidate;
    FoldInShape(h, []);
    CandidateShape(h.image, Pending(h.compaction), []);
    if h.image.snapshot.Some? && h.compaction.Ready? {
      OfferedByQueueing(h.(image := Candidate(h.image, Pending(h.compaction), []), compaction := Installed), h.image.snapshot.value.key);
    }
  }

  /** No step of a writer forgets a snapshot it stops needing. */
  lemma StepForgetsNothing<S>(w: World<S>, h: nat, act: HandleStep)
    requires h in w.handles && w.handles[h].writer && HandleEnabled(w, w.handles[h], act)
    ensures NothingForgotten(w.handles[h], HandleAfter(w, w.handles[h], act))
  {
    hide Fits, Adopt, FoldIn, Install, CasMatches, Candidate, NothingForgotten, ReadOutcome, FetchOutcome, FinishOutcome;
    var it := w.handles[h];
    NothingChanged(it, it);
    match act
    case Created => AdoptAccounts(it, w.cloud.versions[0], 0, w.app.init);
    case Accepted => InstallAccounts(w.app, it, it.phase.batch, w.cloud.versions[it.ver + 1], it.ver + 1);
    case ReadWal => ReadAccounts(w, it);
    case ReadSnapshot(cached) => FetchAccounts(w, it, cached);
    case Finish => FinishAccounts(it, w.jobs[it.compaction.job]);
    case _ => NothingChanged(it, HandleAfter(w, it, act));
  }

  lemma ReadAccounts<S>(w: World<S>, h: Handle<S>)
    requires h.writer && h.phase.Reading?
    ensures NothingForgotten(h, ReadOutcome(w, h))
  {
    hide Adopt, Catchup, NothingForgotten;
    NothingChanged(h, ReadOutcome(w, h));
    if w.cloud.versions != [] {
      AdoptAccounts(h, w.cloud.Last(), |w.cloud.versions| - 1, Catchup(w.app, h, w.cloud.Last().image));
    }
  }

  lemma FetchAccounts<S>(w: World<S>, h: Handle<S>, cached: bool)
    requires h.writer && HandleEnabled(w, h, ReadSnapshot(cached))
    ensures NothingForgotten(h, FetchOutcome(w, h, cached))
  {
    hide Adopt, Rebuild, NothingForgotten;
    var v := w.cloud.versions[h.phase.ver];
    var key := v.image.snapshot.value.key;
    NothingChanged(h, FetchOutcome(w, h, cached));
    if key in w.cloud.tried {
      var rebuilt := Rebuild(w.app, w.cloud.tried[key].bytes, v.image);
      if rebuilt.Ok? {
        AdoptAccounts(h, v, h.phase.ver, rebuilt.value);
      }
    }
  }

  lemma NothingChanged<S>(h: Handle<S>, after: Handle<S>)
    ensures after.image == h.image && (after.compaction == h.compaction || !h.compaction.Ready?) ==> NothingForgotten(h, after)
  {
  }

  lemma FinishAccounts<S>(h: Handle<S>, job: Job)
    requires h.compaction.Running?
    ensures NothingForgotten(h, FinishOutcome(h, job))
    ensures job.phase.Done? && FinishOutcome(h, job).compaction.Superseded? ==> Offered(h, FinishOutcome(h, job), job.phase.key)
    ensures FinishOutcome(h, job).compaction.Failed? <==> !job.phase.Done?
  {
    hide Discard;
    if job.phase.Done? && job.entries != [] {
      DiscardAccounts(h.(compaction := Ready(SnapshotRef(job.phase.key, job.Count() - 1))));
    }
  }

  lemma InstallAccounts<S>(app: WalApp<S>, h: Handle<S>, batch: seq<Bytes>, v: Version, ver: nat)
    requires h.compaction.Ready? ==> Applies(h.compaction.fold, h.image)
    ensures NothingForgotten(h, Install(app, h, batch, v, ver))
  {
    hide FoldIn, Replay;
    FoldInAccounts(h);
  }

  /** A compactor folds exactly the entries its handle held when it was started, however much later it is done. */
  lemma FoldsTheTip<S>(w: World<S>, h: nat, j: nat, steps: seq<Step>)
    requires Inv(w) && Enabled(w, Spawn(h, j)) && CanRun(After(w, Spawn(h, j)), steps)
    ensures var image := w.handles[h].image; var jobs := Run(After(w, Spawn(h, j)), steps).jobs;
      && j in jobs && jobs[j].first == image.First() && jobs[j].entries == image.entries && jobs[j].Count() == image.Next()
      && jobs[j].baseKey == (if image.snapshot.Some? then Some(image.snapshot.value.key) else None)
  {
    hide Inv, CanRun, Run;
    StepKeeps(w, Spawn(h, j));
    RunKeepsJobs(After(w, Spawn(h, j)), steps);
  }

  lemma {:induction false} RunKeepsJobs<S>(w: World<S>, steps: seq<Step>)
    requires Inv(w) && CanRun(w, steps)
    ensures JobsExtend(w.jobs, Run(w, steps).jobs)
    decreases |steps|
  {
    hide Inv, Enabled;
    if steps != [] {
      StepKeeps(w, steps[0]);
      RunKeepsJobs(After(w, steps[0]), steps[1..]);
    }
  }

  // ----- outcomes of requests -----

  /** A request that has left the flight without landing. */
  ghost predicate Dead(c: Cloud, id: nat) {
    id < |c.requests| && id !in c.flight && !c.Landed(id)
  }

  /** What is reported as not applied stays not applied, whatever arrives late. */
  lemma DeadForever<S>(w: World<S>, id: nat, steps: seq<Step>)
    requires Inv(w) && Dead(w.cloud, id) && CanRun(w, steps)
    ensures Dead(Run(w, steps).cloud, id)
  {
    hide Inv;
    RunKeeps(w, steps);
    DeadStays(w.cloud, Run(w, steps).cloud, id);
  }

  lemma DeadStays(c: Cloud, d: Cloud, id: nat)
    requires Dead(c, id) && Extends(c, d)
    ensures Dead(d, id)
  {
    forall i | 0 <= i < |d.versions| ensures d.versions[i].put != id {
      if i < |c.versions| {
        assert d.versions[i] == c.versions[i];
      }
    }
  }

  /** A landed request is present whole: its batch occupies one contiguous range, starting where its base ended. */
  lemma LandedBatchPresent<S>(w: World<S>, id: nat)
    requires Inv(w) && w.cloud.Landed(id)
    ensures id < |w.cloud.requests| && id !in w.cloud.flight
    ensures var p := w.cloud.requests[id]; p.expected.Some? ==>
              && p.base < |w.cloud.versions|
              && var from := w.cloud.versions[p.base].image.Next();
                 from + |p.batch| <= |w.cloud.Log()| && w.cloud.Log()[from..from + |p.batch|] == p.batch
  {
    hide Fits, History, HandleInv, JobInv, Law, Uploads, Obsolete, Candidate, Chain;
    var c := w.cloud;
    var i :| 0 <= i < |c.versions| && c.versions[i].put == id;
    assert Wrote(c, c.versions[i], i);
    var p := c.requests[id];
    if p.expected.Some? {
      assert RequestInv(w.rules, c, p);
      assert VersionInv(w.rules, c, c.versions[i].image);
      BatchRange(w.rules, c, p);
    }
  }

  lemma BatchRange(r: Rules, c: Cloud, p: Put)
    requires p.base < |c.versions| && (p.fold.Some? ==> Applies(p.fold.value, c.versions[p.base].image))
    requires p.image == Candidate(c.versions[p.base].image, p.fold, p.batch) && VersionInv(r, c, p.image)
    ensures var from := c.versions[p.base].image.Next();
      from + |p.batch| <= |c.Log()| && c.Log()[from..from + |p.batch|] == p.batch
  {
    hide Fits, History, Candidate, Skip;
    var held := c.versions[p.base].image;
    CandidateShape(held, p.fold, p.batch);
    TailOfSlice(c.Log(), p.image.First(), held.Next(), p.image.Next(), held.entries[Skip(p.fold, held)..], p.batch);
  }

  // ----- reconciliation -----

  /** A batch is submitted by a writer that knew only its own prefix; `j` must survive that append. */
  ghost predicate SubmittedSoundly<S>(j: seq<Bytes> -> bool, w: World<S>, s: Step) {
    s.OfHandle? && s.act.SendPut? && s.h in w.handles ==>
      var prefix := w.cloud.Log()[..Min(w.handles[s.h].image.Next(), |w.cloud.Log()|)];
      j(prefix) ==> j(prefix + s.act.batch)
  }

  ghost predicate RunsSoundly<S>(j: seq<Bytes> -> bool, w: World<S>, steps: seq<Step>)
    requires CanRun(w, steps)
    decreases |steps|
  {
    steps != [] ==> SubmittedSoundly(j, w, steps[0]) && RunsSoundly(j, After(w, steps[0]), steps[1..])
  }

  /** Every PUT in flight extends the prefix it was decided on soundly. */
  ghost predicate Decided(j: seq<Bytes> -> bool, c: Cloud) {
    forall id :: 0 <= id < |c.requests| && c.requests[id].expected.Some? && c.requests[id].base < |c.versions| ==>
      Extended(j, c, c.requests[id])
  }

  ghost predicate Extended(j: seq<Bytes> -> bool, c: Cloud, p: Put)
    requires p.base < |c.versions|
  {
    var n := c.versions[p.base].image.Next();
    n <= |c.Log()| && (j(c.Log()[..n]) ==> j(c.Log()[..n] + p.batch))
  }

  lemma ExtendedStable(r: Rules, j: seq<Bytes> -> bool, c: Cloud, d: Cloud, p: Put)
    requires CloudInv(r, c) && Extends(c, d) && p.base < |c.versions| && Extended(j, c, p)
    ensures Extended(j, d, p)
  {
    hide CloudInv, History;
    HistoryMonotone(c.versions, d.versions);
    var n := c.versions[p.base].image.Next();
    assert c.Log()[..n] == d.Log()[..n];
  }

  lemma StepDecided<S>(j: seq<Bytes> -> bool, w: World<S>, s: Step)
    requires Inv(w) && Enabled(w, s) && Decided(j, w.cloud) && j(w.cloud.Log()) && SubmittedSoundly(j, w, s)
    ensures Decided(j, After(w, s).cloud) && j(After(w, s).cloud.Log())
  {
    hide Fits, History, HandleInv, JobInv, Law, Uploads, Obsolete, Candidate, Chain, Link, Extends,
         HandleAfter, JobAfter, NewJob, Fresh, Extended;
    var c, d := w.cloud, After(w, s).cloud;
    StepKeeps(w, s);
    StepAppends(w, s);
    forall id | 0 <= id < |d.requests| && d.requests[id].expected.Some? && d.requests[id].base < |d.versions|
      ensures Extended(j, d, d.requests[id])
    {
      if id < |c.requests| {
        SameRequest(c, d, id);
        assert RequestInv(w.rules, c, c.requests[id]);
        ExtendedStable(w.rules, j, c, d, c.requests[id]);
      } else {
        SentDecided(j, w, s);
      }
    }
    if s.OfNet? && s.net.LandPut? {
      LandedDecided(j, w, s.net.id);
    } else {
      assert d.Log() == c.Log();
    }
  }

  lemma SameRequest(c: Cloud, d: Cloud, id: nat)
    requires Extends(c, d) && id < |c.requests|
    ensures d.requests[id] == c.requests[id]
  {
  }

  lemma SentDecided<S>(j: seq<Bytes> -> bool, w: World<S>, s: Step)
    requires Inv(w) && Enabled(w, s) && SubmittedSoundly(j, w, s) && |After(w, s).cloud.requests| > |w.cloud.requests|
    ensures var d := After(w, s).cloud;
      && |d.requests| == |w.cloud.requests| + 1 && d.versions == w.cloud.versions
      && var p := d.requests[|w.cloud.requests|];
         p.expected.Some? && p.base < |d.versions| ==> Extended(j, d, p)
  {
    hide Fits, History, JobInv, Law, CloudInv, Candidate, StateAt, Obsolete, Garbage, HandleAfter;
    if s.OfHandle? && s.act.SendPut? {
      assert HandleInv(w.app, w.cloud, w.jobs, w.handles[s.h]);
    }
  }

  lemma LandedDecided<S>(j: seq<Bytes> -> bool, w: World<S>, id: nat)
    requires Inv(w) && Decided(j, w.cloud) && j(w.cloud.Log()) && id < |w.cloud.requests|
    requires CasMatches(w.cloud.Etag(), w.cloud.requests[id].expected)
    ensures j(w.cloud.Log() + w.cloud.requests[id].batch)
  {
    hide Fits, History, HandleInv, JobInv, Law, Uploads, Obsolete, Candidate, Link;
    var c := w.cloud;
    InvCloud(w);
    var p := c.requests[id];
    LandsOnCurrent(w.rules, c, p);
    if p.expected.Some? {
      assert Extended(j, c, p);
      assert c.Log()[..|c.Log()|] == c.Log();
    } else {
      assert c.Log() + p.batch == c.Log();
    }
  }

  /** Any property of histories that each submitted or reconciled batch keeps, on the prefix its writer
      had seen, holds of the whole history: whoever else commits in between, nothing slips past. */
  lemma {:induction false} ReconciliationSound<S>(j: seq<Bytes> -> bool, w: World<S>, steps: seq<Step>)
    requires Inv(w) && CanRun(w, steps) && Decided(j, w.cloud) && j(w.cloud.Log()) && RunsSoundly(j, w, steps)
    ensures j(Run(w, steps).cloud.Log()) && Decided(j, Run(w, steps).cloud)
    decreases |steps|
  {
    hide Inv, Enabled, Decided, SubmittedSoundly;
    if steps != [] {
      StepKeeps(w, steps[0]);
      StepDecided(j, w, steps[0]);
      ReconciliationSound(j, After(w, steps[0]), steps[1..]);
    }
  }

  // ----- every reachable state -----

  ghost predicate Starts<S>(w: World<S>) { Initial(w) && Law(w.app, w.rules.rep) }

  /** At every moment of every run, the stored WAL object and the snapshot it names recover the whole history. */
  lemma AlwaysRecoverable<S>(w: World<S>, steps: seq<Step>)
    requires Starts(w) && CanRun(w, steps)
    ensures var now := Run(w, steps); Recover(now) == Ok(StateAt(now.app, now.cloud.Log()))
  {
    hide Inv, Initial, Law, CanRun, Run, Recover, StateAt, History;
    Reachable(w, steps);
    RecoveryIsReplay(Run(w, steps));
  }

  /** What is committed at one moment of a run is, in place, part of the history at every later moment. */
  lemma CommittedForever<S>(w: World<S>, steps: seq<Step>, more: seq<Step>)
    requires Starts(w) && CanRun(w, steps) && CanRun(Run(w, steps), more)
    ensures Run(w, steps).cloud.Log() <= Run(Run(w, steps), more).cloud.Log()
  {
    hide Inv, Initial, Law, CanRun, Run, History;
    Reachable(w, steps);
    RunOnlyAppends(Run(w, steps), more);
  }

  /** A key queued for deletion at one moment of a run is named by the stored WAL at no later moment. */
  lemma DeletionIsSafe<S>(w: World<S>, steps: seq<Step>, more: seq<Step>, h: nat, key: Text)
    requires Starts(w) && CanRun(w, steps) && CanRun(Run(w, steps), more)
    requires h in Run(w, steps).handles && key in Run(w, steps).handles[h].garbage
    ensures var c := Run(Run(w, steps), more).cloud;
      c.versions != [] && c.Last().image.snapshot.Some? && c.Last().image.snapshot.value.key != key
  {
    hide Inv, Initial, Law, CanRun, Run, History;
    Reachable(w, steps);
    CondemnedNeverNamed(Run(w, steps), key, more);
  }

  /** At every moment of every run each handle's state replays the entries below its next LSN, all committed,
      and no handle has reported corruption. */
  lemma HandlesAreTruthful<S>(w: World<S>, steps: seq<Step>, h: nat)
    requires Starts(w) && CanRun(w, steps) && h in Run(w, steps).handles
    ensures var now := Run(w, steps); var it := now.handles[h];
      && it.image.Next() <= |now.cloud.Log()| && it.state == StateAt(now.app, now.cloud.Log()[..it.image.Next()])
      && !it.phase.Corrupted?
  {
    hide Inv, Initial, Law, CanRun, Run, StateAt, History;
    Reachable(w, steps);
    HandleStateIsReplay(Run(w, steps), h);
  }

  /** A request lands at most once, as one version; what it commits is its whole batch in one range. */
  lemma LandsOnceAndWhole<S>(w: World<S>, steps: seq<Step>, id: nat, i: nat, j: nat)
    requires Starts(w) && CanRun(w, steps)
    requires var vs := Run(w, steps).cloud.versions; i < |vs| && j < |vs| && vs[i].put == id == vs[j].put
    ensures var c := Run(w, steps).cloud;
      && i == j && id < |c.requests|
      && (c.requests[id].expected.Some? ==>
            && c.requests[id].base < |c.versions|
            && var from := c.versions[c.requests[id].base].image.Next();
               from + |c.requests[id].batch| <= |c.Log()| && c.Log()[from..from + |c.requests[id].batch|] == c.requests[id].batch)
  {
    hide Inv, Initial, Law, CanRun, Run, History;
    Reachable(w, steps);
    var now := Run(w, steps);
    if i < j { VersionsNeverRepeat(now, i, j); }
    if j < i { VersionsNeverRepeat(now, j, i); }
    LandedBatchPresent(now, id);
  }

  /** What was reported as not applied or rejected at one moment of a run has landed at no later one. */
  lemma NotAppliedIsFinal<S>(w: World<S>, steps: seq<Step>, more: seq<Step>, id: nat)
    requires Starts(w) && CanRun(w, steps) && CanRun(Run(w, steps), more)
    requires Dead(Run(w, steps).cloud, id)
    ensures !Run(Run(w, steps), more).cloud.Landed(id)
  {
    hide Inv, Initial, Law, CanRun, Run;
    Reachable(w, steps);
    DeadForever(Run(w, steps), id, more);
  }
}
