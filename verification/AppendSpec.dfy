/** What an append promises and how its attempts relate, in terms of the protocol: the vocabulary of the
    writer's contracts, and the facts that carry them from one step to the next. */
module AppendSpec {
  import opened Primitives
  import opened Image
  import opened App
  import opened Protocol
  import opened CloudInvariant
  import opened WorldInvariant
  import opened ProtocolTheorems
  import opened Environment
  import opened CoreModel

  /** A failed append keeps the final attempted batch; `unknown` is `MutationOutcome::Unknown`. */
  datatype WriteError = WriteError(entries: seq<Bytes>, source: WalError, unknown: bool)

  datatype InstallError = InstallError(source: WalError, unknown: bool)

  datatype CompactionStatus = StatusIdle | StatusRunning | StatusReady | StatusInstalled | StatusSuperseded

  datatype MaintenanceStatus = MaintenanceStatus(compaction: CompactionStatus, pending: nat, overflowed: nat)

  // ----- what an append leaves behind -----

  ghost predicate AllDead(c: Protocol.Cloud, ids: seq<nat>) {
    forall i :: 0 <= i < |ids| ==> Dead(c, ids[i])
  }

  function Reconciled(decision: ReconcileBatch, pending: seq<Bytes>): seq<Bytes> {
    match decision
    case RetryBatch => pending
    case ReplaceBatch(entries) => entries
    case AbortBatch => pending
  }

  /** Request `id` was built on a version whose history prefix has length `n`. */
  ghost predicate BuiltOn(c: Protocol.Cloud, id: nat, n: nat) {
    && id < |c.requests| && c.requests[id].base < |c.versions|
    && c.versions[c.requests[id].base].image.Next() == n <= |c.Log()|
  }

  /** Request `id` carries what reconciliation made of `previous`, given exactly the prefix it extends. */
  ghost predicate DecidedOn<S>(w: World<S>, id: nat, previous: seq<Bytes>) {
    exists n: nat :: BuiltOn(w.cloud, id, n) && w.cloud.requests[id].batch
                 == Reconciled(w.app.reconcileBatch(StateAt(w.app, w.cloud.Log()[..n]), previous), previous)
  }

  /** The attempts of one call: its own requests, in order. The first carries the caller's entries, each
      later one what reconciliation made of the one before. */
  ghost predicate Attempts<S>(start: World<S>, w: World<S>, entries: seq<Bytes>, ids: seq<nat>) {
    && (forall i :: 0 <= i < |ids| ==> |start.cloud.requests| <= ids[i] < |w.cloud.requests|)
    && (forall i, j :: 0 <= i < j < |ids| ==> ids[i] < ids[j])
    && (|ids| > 0 ==> w.cloud.requests[ids[0]].batch == entries)
    && (forall i :: 0 < i < |ids| ==> DecidedOn(w, ids[i], w.cloud.requests[ids[i - 1]].batch))
  }

  /** What the call would submit next: the caller's entries, or the last attempt reconciled with the state now held. */
  ghost predicate Prepared<S>(w: World<S>, h: nat, batch: seq<Bytes>, ids: seq<nat>, entries: seq<Bytes>) {
    if ids == [] then entries == batch
    else
      && h in w.handles && ids[|ids| - 1] < |w.cloud.requests|
      && var last := w.cloud.requests[ids[|ids| - 1]].batch;
         entries == Reconciled(w.app.reconcileBatch(w.handles[h].state, last), last)
  }

  ghost predicate Committed(c: Protocol.Cloud, from: nat, batch: seq<Bytes>) {
    from + |batch| <= |c.Log()| && c.Log()[from..from + |batch|] == batch
  }

  /** The image that handle `h` would publish with `batch` breaks a limit. */
  ghost predicate TooBig<S>(w: World<S>, h: nat, batch: seq<Bytes>)
    requires h in w.handles
  {
    var it := w.handles[h];
    && (it.compaction.Ready? ==> Applies(it.compaction.fold, it.image))
    && !Fits(Candidate(it.image, Pending(it.compaction), batch), w.rules.limits)
  }

  /** What each result of an append says about the history, whatever is still in flight. */
  ghost predicate Outcome<S>(w: World<S>, h: nat, batch: seq<Bytes>, single: bool, ids: seq<nat>, r: Result<(nat, nat), WriteError>) {
    && h in w.handles && (forall i :: 0 <= i < |ids| ==> ids[i] < |w.cloud.requests|)
    && match r
       case Ok((from, upto)) =>
         if from == upto then AllDead(w.cloud, ids) && Prepared(w, h, batch, ids, [])
         else
           && ids != [] && w.cloud.Landed(Last(ids)) && AllDead(w.cloud, ids[..|ids| - 1])
           && Committed(w.cloud, from, w.cloud.requests[Last(ids)].batch) && upto == from + |w.cloud.requests[Last(ids)].batch|
       case Err(WriteError(entries, source, unknown)) =>
         && (!unknown ==> AllDead(w.cloud, ids))
         && (unknown ==> ids != [] && source.StoreFailed? && AllDead(w.cloud, ids[..|ids| - 1]) && entries == w.cloud.requests[Last(ids)].batch)
         && match source
            case Encoding(_) => !unknown && Prepared(w, h, batch, ids, entries) && TooBig(w, h, entries)
            case StoreFailed(_) => ids != [] && entries == w.cloud.requests[Last(ids)].batch
            case Contention(operation, n) =>
              && ids != [] && entries == w.cloud.requests[Last(ids)].batch
              && if operation.OpWrite? then n == |ids| else operation.OpRefresh? && n == MAX_RACES
            case ReconcileAborted =>
              ids != [] && entries == w.cloud.requests[Last(ids)].batch && w.app.reconcileBatch(w.handles[h].state, entries).AbortBatch?
            case InvalidReplacement(n) =>
              && single && ids != [] && n == |entries| != 1
              && w.app.reconcileBatch(w.handles[h].state, w.cloud.requests[Last(ids)].batch) == ReplaceBatch(entries)
            case _ => false
  }

  function Last(ids: seq<nat>): nat
    requires ids != []
  {
    ids[|ids| - 1]
  }

  lemma AllDeadStays(c: Protocol.Cloud, d: Protocol.Cloud, ids: seq<nat>)
    requires AllDead(c, ids) && Extends(c, d)
    ensures AllDead(d, ids)
  {
    hide Extends, Dead;
    forall i | 0 <= i < |ids| ensures Dead(d, ids[i]) {
      DeadStays(c, d, ids[i]);
    }
  }

  lemma DecidedStays<S>(a: World<S>, b: World<S>, id: nat, previous: seq<Bytes>)
    requires DecidedOn(a, id, previous) && Later(a, b)
    ensures DecidedOn(b, id, previous)
  {
    hide History, StateAt;
    HistoryMonotone(a.cloud.versions, b.cloud.versions);
    var n: nat :| BuiltOn(a.cloud, id, n) && a.cloud.requests[id].batch
             == Reconciled(a.app.reconcileBatch(StateAt(a.app, a.cloud.Log()[..n]), previous), previous);
    assert a.cloud.Log()[..n] == b.cloud.Log()[..n];
    assert BuiltOn(b.cloud, id, n);
  }

  lemma AttemptsStay<S>(start: World<S>, a: World<S>, b: World<S>, entries: seq<Bytes>, ids: seq<nat>)
    requires Attempts(start, a, entries, ids) && Later(a, b)
    ensures Attempts(start, b, entries, ids)
  {
    hide DecidedOn;
    forall i | 0 < i < |ids| ensures DecidedOn(b, ids[i], b.cloud.requests[ids[i - 1]].batch) {
      DecidedStays(a, b, ids[i], a.cloud.requests[ids[i - 1]].batch);
    }
  }

  lemma NoAttempts<S>(start: World<S>, w: World<S>, h: nat, batch: seq<Bytes>)
    ensures Attempts(start, w, batch, []) && AllDead(w.cloud, []) && Prepared(w, h, batch, [], batch)
  {
  }

  /** A request sent now was built on the prefix this handle's state replays. */
  lemma SentDecidedOn<S>(a: World<S>, b: World<S>, h: nat, previous: seq<Bytes>, entries: seq<Bytes>)
    requires Inv(a) && h in a.handles && a.handles[h].etag.Some? && Later(a, b) && Sent(a, b, h, entries)
    requires entries == Reconciled(a.app.reconcileBatch(a.handles[h].state, previous), previous)
    ensures DecidedOn(b, |a.cloud.requests|, previous)
  {
    hide Inv, History, StateAt, Maintenance, PhaseInv;
    HandleShape(a, h);
    Unfold(a.app, a.cloud, a.jobs, a.handles[h]);
    HistoryMonotone(a.cloud.versions, b.cloud.versions);
    var n := a.handles[h].image.Next();
    assert a.cloud.Log()[..n] == b.cloud.Log()[..n];
    assert BuiltOn(b.cloud, |a.cloud.requests|, n);
  }

  lemma AttemptsGrow<S>(start: World<S>, a: World<S>, b: World<S>, h: nat, batch: seq<Bytes>, ids: seq<nat>, entries: seq<Bytes>, sent: seq<nat>)
    requires Inv(a) && h in a.handles && a.handles[h].etag.Some? && Later(start, a) && Later(a, b)
    requires Attempts(start, a, batch, ids) && Prepared(a, h, batch, ids, entries)
    requires sent == [] || (sent == [|a.cloud.requests|] && Sent(a, b, h, entries))
    ensures Attempts(start, b, batch, ids + sent)
    ensures AllDead(a.cloud, ids) ==> AllDead(b.cloud, ids)
    ensures AllDead(a.cloud, ids) && AllDead(b.cloud, sent) ==> AllDead(b.cloud, ids + sent)
    ensures sent != [] ==> sent[0] < |b.cloud.requests| && b.cloud.requests[sent[0]].batch == entries
  {
    hide Inv, DecidedOn, Dead;
    AttemptsStay(start, a, b, batch, ids);
    if AllDead(a.cloud, ids) {
      AllDeadStays(a.cloud, b.cloud, ids);
    }
    if sent != [] && ids != [] {
      SentDecidedOn(a, b, h, a.cloud.requests[Last(ids)].batch, entries);
    }
    assert sent == [] ==> ids + sent == ids;
  }

  lemma ReadyApplies<S>(w: World<S>, h: nat)
    requires Inv(w) && h in w.handles
    ensures w.handles[h].compaction.Ready? ==> Applies(w.handles[h].compaction.fold, w.handles[h].image)
    ensures w.handles[h].compaction.Running? ==> w.handles[h].compaction.job in w.jobs
    ensures w.handles[h].etag.Some? ==> w.handles[h].ver < |w.cloud.versions|
  {
    hide Inv, HandleInv, Garbage, PhaseInv;
    HandleShape(w, h);
    Unfold(w.app, w.cloud, w.jobs, w.handles[h]);
  }

  lemma SendEnabled<S>(w: World<S>, h: nat, batch: seq<Bytes>)
    requires h in w.handles && w.handles[h].writer && w.handles[h].etag.Some? && w.handles[h].phase.Calm?
    requires batch != [] || w.handles[h].compaction.Ready?
    requires w.handles[h].compaction.Ready? ==> Applies(w.handles[h].compaction.fold, w.handles[h].image)
    requires Fits(Candidate(w.handles[h].image, Pending(w.handles[h].compaction), batch), w.rules.limits)
    ensures HandleEnabled(w, w.handles[h], SendPut(batch))
  {
    hide Fits;
  }

  lemma AcceptedRecorded<S>(w: World<S>, h: nat, was: Handle<S>, batch: seq<Bytes>, id: nat)
    requires Inv(w) && was.ver + 1 < |w.cloud.versions| && w.cloud.versions[was.ver + 1].put == id && id < |w.cloud.requests|
    requires was.compaction.Ready? ==> Applies(was.compaction.fold, was.image)
    requires h in w.handles && w.handles[h] == Install(w.app, was, batch, w.cloud.versions[was.ver + 1], was.ver + 1)
    ensures var v := w.cloud.versions[was.ver + 1];
      v.image == Candidate(was.image, Pending(was.compaction), batch) && Recorded(w.cloud, v.etag, Layout(v.image))
  {
    hide Inv, HandleInv, FoldIn, Layout, Replay, Candidate;
    HandleShape(w, h);
    Unfold(w.app, w.cloud, w.jobs, w.handles[h]);
    FoldInShape(was, batch);
  }

  /** `rest` is what remains of `queue` once its front keys are known deleted. */
  ghost predicate Drained(queue: seq<Text>, rest: seq<Text>, deleted: set<Text>) {
    && |rest| <= |queue| && rest == queue[|queue| - |rest|..]
    && forall i :: 0 <= i < |queue| - |rest| ==> queue[i] in deleted
  }

  lemma DrainedNothing(queue: seq<Text>, deleted: set<Text>)
    ensures Drained(queue, queue, deleted)
  {
  }

  lemma DrainedMore(queue: seq<Text>, rest: seq<Text>, c: Protocol.Cloud, d: Protocol.Cloud)
    requires Drained(queue, rest, c.deleted) && Extends(c, d)
    ensures Drained(queue, rest, d.deleted)
    ensures rest != [] && rest[0] in d.deleted ==> Drained(queue, rest[1..], d.deleted)
  {
    if rest != [] {
      assert rest[0] == queue[|queue| - |rest|];
    }
  }

  lemma FoldInIgnores<S>(h: Handle<S>, etag: Option<Text>, ver: nat)
    requires h.compaction.Ready? ==> Applies(h.compaction.fold, h.image)
    ensures FoldIn(h.(etag := etag, ver := ver)) == FoldIn(h).(etag := etag, ver := ver)
  {
    hide Candidate;
  }

  /** A landed request of this handle occupies exactly the range starting at its next LSN. */
  lemma AcceptedCommits<S>(a: World<S>, w: World<S>, h: nat, batch: seq<Bytes>, ver: nat)
    requires Inv(a) && Inv(w) && Later(a, w) && h in a.handles && a.handles[h].etag.Some? && Sent(a, w, h, batch)
    requires ver < |w.cloud.versions| && w.cloud.versions[ver].put == |a.cloud.requests|
    ensures w.cloud.Landed(|a.cloud.requests|) && Committed(w.cloud, a.handles[h].image.Next(), batch)
  {
    hide Inv, History, StateAt, Maintenance, PhaseInv;
    HandleShape(a, h);
    Unfold(a.app, a.cloud, a.jobs, a.handles[h]);
    LandedBatchPresent(w, |a.cloud.requests|);
  }

  /** What a call commits comes after everything that was committed when the call began. */
  lemma LandsAfter<S>(start: World<S>, a: World<S>, w: World<S>, h: nat, batch: seq<Bytes>, ver: nat)
    requires Inv(start) && Inv(a) && Inv(w) && Later(start, a) && Later(a, w)
    requires h in a.handles && a.handles[h].etag.Some? && Sent(a, w, h, batch)
    requires ver < |w.cloud.versions| && w.cloud.versions[ver].put == |a.cloud.requests|
    ensures |start.cloud.Log()| <= a.handles[h].image.Next()
  {
    hide Inv, CloudInv, History, StateAt, Maintenance, PhaseInv, Extends;
    HandleShape(a, h);
    Unfold(a.app, a.cloud, a.jobs, a.handles[h]);
    InvCloud(start);
    InvCloud(w);
    LaterTransitive(start, a, w);
    RequestsGrow(start.cloud, a.cloud);
    LandedLate(start.rules, start.cloud, w.cloud, ver);
    WrittenBy(w.rules, w.cloud, ver);
    VersionStays(a.cloud, w.cloud, a.handles[h].ver);
    TipBelow(start.rules, start.cloud, w.cloud, a.handles[h].ver);
  }

  lemma RequestsGrow(c: Protocol.Cloud, d: Protocol.Cloud)
    requires Extends(c, d)
    ensures |c.requests| <= |d.requests|
  {
  }

  lemma WrittenBy(r: Rules, c: Protocol.Cloud, ver: nat)
    requires CloudInv(r, c) && ver < |c.versions|
    ensures c.versions[ver].put < |c.requests|
    ensures c.requests[c.versions[ver].put].expected.Some? ==> ver == c.requests[c.versions[ver].put].base + 1
  {
    hide RequestInv, VersionInv, Uploads, Chain, Obsolete;
    assert Wrote(c, c.versions[ver], ver);
  }

  lemma LandedLate(r: Rules, c: Protocol.Cloud, d: Protocol.Cloud, ver: nat)
    requires CloudInv(r, c) && Extends(c, d) && ver < |d.versions| && d.versions[ver].put >= |c.requests|
    ensures ver >= |c.versions|
  {
    hide CloudInv;
    if ver < |c.versions| {
      WrittenBy(r, c, ver);
      assert false;
    }
  }

  lemma CommittedStays<S>(a: World<S>, b: World<S>, start: World<S>, batch: seq<Bytes>, ids: seq<nat>, id: nat, from: nat, entries: seq<Bytes>)
    requires Later(a, b) && a.cloud.Landed(id) && Committed(a.cloud, from, entries) && AllDead(a.cloud, ids)
    requires Attempts(start, a, batch, ids + [id])
    ensures b.cloud.Landed(id) && Committed(b.cloud, from, entries) && AllDead(b.cloud, ids)
    ensures Attempts(start, b, batch, ids + [id])
    ensures id < |a.cloud.requests| <= |b.cloud.requests| && b.cloud.requests[id] == a.cloud.requests[id]
    ensures forall i :: 0 <= i < |ids| ==> ids[i] < |b.cloud.requests|
  {
    hide History, Attempts, Dead;
    assert (ids + [id])[|ids|] == id;
    AttemptsStay(start, a, b, batch, ids + [id]);
    AllDeadStays(a.cloud, b.cloud, ids);
    HistoryMonotone(a.cloud.versions, b.cloud.versions);
    assert b.cloud.Log()[from..from + |entries|] == a.cloud.Log()[from..from + |entries|];
    AttemptIds(start, a, batch, ids + [id]);
    assert forall i :: 0 <= i < |ids| ==> ids[i] == (ids + [id])[i];
    var i :| 0 <= i < |a.cloud.versions| && a.cloud.versions[i].put == id;
    assert b.cloud.versions[i].put == id;
  }

  lemma NothingOutcome<S>(w: World<S>, h: nat, batch: seq<Bytes>, single: bool, ids: seq<nat>, first: nat)
    requires h in w.handles && AllDead(w.cloud, ids) && (forall i :: 0 <= i < |ids| ==> ids[i] < |w.cloud.requests|)
    requires Prepared(w, h, batch, ids, [])
    ensures Outcome(w, h, batch, single, ids, Ok((first, first)))
  {
    hide Dead, Prepared;
  }

  lemma DoneOutcome<S>(w: World<S>, h: nat, batch: seq<Bytes>, single: bool, ids: seq<nat>, id: nat, from: nat, entries: seq<Bytes>)
    requires h in w.handles && AllDead(w.cloud, ids) && (forall i :: 0 <= i < |ids| ==> ids[i] < |w.cloud.requests|)
    requires id < |w.cloud.requests| && w.cloud.requests[id].batch == entries != []
    requires w.cloud.Landed(id) && Committed(w.cloud, from, entries)
    ensures Outcome(w, h, batch, single, ids + [id], Ok((from, from + |entries|)))
  {
    hide Dead, Committed, AllDead;
    assert (ids + [id])[..|ids|] == ids;
  }

  lemma FailedOutcome<S>(w: World<S>, h: nat, batch: seq<Bytes>, single: bool, ids: seq<nat>, sent: seq<nat>,
                         entries: seq<Bytes>, error: InstallError)
    requires h in w.handles && AllDead(w.cloud, ids) && (forall i :: 0 <= i < |ids + sent| ==> (ids + sent)[i] < |w.cloud.requests|)
    requires |sent| <= 1 && (sent != [] ==> sent[0] < |w.cloud.requests| && w.cloud.requests[sent[0]].batch == entries)
    requires error.source.Encoding? || error.source.StoreFailed? || error.source.Contention?
    requires (error.source.Encoding? <==> sent == []) && (error.unknown ==> error.source.StoreFailed?)
    requires !error.unknown ==> AllDead(w.cloud, ids + sent)
    requires sent == [] ==> Prepared(w, h, batch, ids, entries) && TooBig(w, h, entries)
    requires error.source.Contention? ==> error.source == Contention(OpRefresh, MAX_RACES)
    ensures Outcome(w, h, batch, single, ids + sent, Err(WriteError(entries, error.source, error.unknown)))
  {
    hide Dead, AllDead, Prepared, TooBig;
    if sent == [] {
      assert ids + sent == ids;
    } else {
      assert (ids + sent)[..|ids|] == ids;
    }
  }

  lemma ContendedOutcome<S>(w: World<S>, h: nat, batch: seq<Bytes>, single: bool, ids: seq<nat>, entries: seq<Bytes>)
    requires h in w.handles && AllDead(w.cloud, ids) && (forall i :: 0 <= i < |ids| ==> ids[i] < |w.cloud.requests|)
    requires ids != [] && w.cloud.requests[Last(ids)].batch == entries
    ensures Outcome(w, h, batch, single, ids, Err(WriteError(entries, Contention(OpWrite, |ids|), false)))
  {
    hide Dead, AllDead;
  }

  lemma AbortedOutcome<S>(w: World<S>, h: nat, batch: seq<Bytes>, single: bool, ids: seq<nat>, entries: seq<Bytes>)
    requires h in w.handles && AllDead(w.cloud, ids) && (forall i :: 0 <= i < |ids| ==> ids[i] < |w.cloud.requests|)
    requires ids != [] && w.cloud.requests[Last(ids)].batch == entries
    requires w.app.reconcileBatch(w.handles[h].state, entries).AbortBatch?
    ensures Outcome(w, h, batch, single, ids, Err(WriteError(entries, ReconcileAborted, false)))
  {
    hide Dead, AllDead;
  }

  lemma InvalidOutcome<S>(w: World<S>, h: nat, batch: seq<Bytes>, ids: seq<nat>, refused: seq<Bytes>, entries: seq<Bytes>)
    requires h in w.handles && AllDead(w.cloud, ids) && (forall i :: 0 <= i < |ids| ==> ids[i] < |w.cloud.requests|)
    requires ids != [] && w.cloud.requests[Last(ids)].batch == refused && |entries| != 1
    requires w.app.reconcileBatch(w.handles[h].state, refused) == ReplaceBatch(entries)
    ensures Outcome(w, h, batch, true, ids, Err(WriteError(entries, InvalidReplacement(|entries|), false)))
  {
    hide Dead, AllDead;
  }

  lemma PreparedStays<S>(a: World<S>, b: World<S>, h: nat, batch: seq<Bytes>, ids: seq<nat>, entries: seq<Bytes>)
    requires Prepared(a, h, batch, ids, entries) && Later(a, b)
    ensures h in a.handles && h in b.handles && a.handles[h].state == b.handles[h].state ==> Prepared(b, h, batch, ids, entries)
  {
  }

  lemma AttemptIds<S>(start: World<S>, w: World<S>, batch: seq<Bytes>, ids: seq<nat>)
    requires Attempts(start, w, batch, ids)
    ensures forall i :: 0 <= i < |ids| ==> ids[i] < |w.cloud.requests|
  {
    hide DecidedOn;
  }

  /** Once an attempt is lost, the next batch is what reconciliation makes of it in the state just refreshed. */
  lemma Reprepared<S>(w: World<S>, h: nat, batch: seq<Bytes>, ids: seq<nat>, entries: seq<Bytes>)
    requires h in w.handles && ids != [] && Last(ids) < |w.cloud.requests| && w.cloud.requests[Last(ids)].batch == entries
    ensures Prepared(w, h, batch, ids, Reconciled(w.app.reconcileBatch(w.handles[h].state, entries), entries))
  {
  }

  /** `Install` is `FoldIn` followed by pushing the batch. */
  lemma InstallIsPush<S>(app: WalApp<S>, was: Handle<S>, batch: seq<Bytes>, v: Version, ver: nat)
    requires was.compaction.Ready? ==> Applies(was.compaction.fold, was.image)
    ensures var h := FoldIn(was).(etag := Some(v.etag), ver := ver);
      && h.state == was.state && h.image.Next() == was.image.Next()
      && Install(app, was, batch, v, ver)
         == h.(image := WalImage(h.image.snapshot, h.image.entries + batch),
               state := Replay(app, was.state, was.image.Next(), batch), phase := Calm)
    ensures Install(app, was, batch, v, ver).image == Candidate(was.image, Pending(was.compaction), batch)
  {
    hide Candidate, Replay;
    FoldInShape(was, []);
    FoldInShape(was, batch);
    CandidateShape(was.image, Pending(was.compaction), []);
  }

  lemma FoldInKeepsNext<S>(h: Handle<S>)
    requires h.compaction.Ready? ==> Applies(h.compaction.fold, h.image)
    ensures FoldIn(h).image.Next() == h.image.Next()
    ensures FoldIn(h).compaction == if h.compaction.Ready? then Installed else h.compaction
  {
    hide Candidate;
    FoldInShape(h, []);
    CandidateShape(h.image, Pending(h.compaction), []);
  }

  /** Publishing a fold alone changes neither the next LSN nor the state. */
  lemma FoldInstalls<S>(app: WalApp<S>, was: Handle<S>, v: Version, ver: nat)
    requires was.compaction.Ready? && Applies(was.compaction.fold, was.image) && was.phase.Calm?
    ensures Install(app, was, [], v, ver) == FoldIn(was).(etag := Some(v.etag), ver := ver)
    ensures FoldIn(was).compaction.Installed? && FoldIn(was).image.Next() == was.image.Next() && FoldIn(was).state == was.state
    ensures FoldIn(was).image == Candidate(was.image, Pending(was.compaction), [])
  {
    hide Candidate, Applies;
    InstallIsPush(app, was, [], v, ver);
    FoldInShape(was, []);
    assert FoldIn(was).image.entries + [] == FoldIn(was).image.entries;
  }

  // ----- what a flush leaves behind -----

  /** Requests of one call that carry no entries of their own. */
  ghost predicate FoldsOnly<S>(start: World<S>, w: World<S>, ids: seq<nat>) {
    && (forall i :: 0 <= i < |ids| ==> |start.cloud.requests| <= ids[i] < |w.cloud.requests| && w.cloud.requests[ids[i]].batch == [])
    && (forall i, j :: 0 <= i < j < |ids| ==> ids[i] < ids[j])
  }

  lemma FoldsOnlyGrow<S>(start: World<S>, a: World<S>, b: World<S>, h: nat, ids: seq<nat>, sent: seq<nat>)
    requires h in a.handles && Later(start, a) && Later(a, b) && FoldsOnly(start, a, ids)
    requires sent == [] || (sent == [|a.cloud.requests|] && Sent(a, b, h, []))
    ensures FoldsOnly(start, b, ids + sent)
    ensures AllDead(a.cloud, ids) && AllDead(b.cloud, sent) ==> AllDead(b.cloud, ids + sent)
  {
    hide Dead;
    if AllDead(a.cloud, ids) {
      AllDeadStays(a.cloud, b.cloud, ids);
    }
  }

  lemma FoldsOnlyStay<S>(start: World<S>, a: World<S>, b: World<S>, ids: seq<nat>)
    requires Later(a, b) && FoldsOnly(start, a, ids)
    ensures FoldsOnly(start, b, ids)
  {
  }

  lemma FoldsOnlyEarlier<S>(start: World<S>, a: World<S>, b: World<S>, ids: seq<nat>)
    requires Later(start, a) && FoldsOnly(a, b, ids)
    ensures FoldsOnly(start, b, ids)
  {
  }

  lemma NoFolds<S>(start: World<S>, w: World<S>)
    ensures FoldsOnly(start, w, []) && AllDead(w.cloud, [])
  {
  }

  // ----- compactors and their outcomes -----

  /** Compactor `j` was given exactly the snapshot and the live entries of `image`, up to its tip. */
  ghost predicate Compacts<S>(w: World<S>, j: nat, image: WalImage) {
    && j in w.jobs && w.jobs[j].phase.Started?
    && w.jobs[j].first == image.First() && w.jobs[j].entries == image.entries && w.jobs[j].Count() == image.Next()
    && (image.snapshot.Some? ==> w.jobs[j].baseKey == Some(image.snapshot.value.key))
    && (image.snapshot.None? ==> w.jobs[j].baseKey == None)
  }

  predicate Finished(job: Job) { job.phase.Done? || job.phase.Aborted? }

  /** What a finished compactor's outcome means for a handle holding `image`. */
  ghost predicate TakenUp(job: Job, image: WalImage, c: Compaction) {
    && (c.Failed? <==> job.phase.Aborted?)
    && (job.phase.Done? ==>
          && job.first + |job.entries| > 0
          && var fold := SnapshotRef(job.phase.key, job.first + |job.entries| - 1);
             if Applies(fold, image) then c == Ready(fold)
             else if image.snapshot.Some? && image.snapshot.value.key == fold.key then c.Installed?
             else c.Superseded?)
  }

  /** Whether the outcome of compactor `j` had arrived by this turn, and what was made of it. */
  ghost predicate Integrated<S>(turn: Turn, w: World<S>, j: nat, image: WalImage, c: Compaction) {
    && j in w.jobs
    && if turn.reply.Honest? && Finished(w.jobs[j]) then TakenUp(w.jobs[j], image, c) else c == Running(j)
  }

  /** Starting a compactor on what handle `h` holds, or failing to. */
  lemma SpawnShape<S>(w: World<S>, h: nat, j: nat)
    requires h in w.handles && w.handles[h].writer && w.handles[h].etag.Some? && w.handles[h].phase.Calm?
    requires w.handles[h].image.entries != [] && !w.handles[h].compaction.Running? && !w.handles[h].compaction.Ready?
    ensures var s := OfHandle(h, SpawnFailed);
      && Enabled(w, s) && h in After(w, s).handles && After(w, s).handles[h] == w.handles[h].(compaction := Compaction.Failed)
      && After(w, s).rules == w.rules
    ensures j !in w.jobs ==>
              var s := Spawn(h, j);
              && Enabled(w, s) && h in After(w, s).handles && After(w, s).handles[h] == w.handles[h].(compaction := Running(j))
              && Compacts(After(w, s), j, w.handles[h].image) && After(w, s).rules == w.rules
  {
  }

  lemma GiveUpShape<S>(w: World<S>, j: nat)
    requires j in w.jobs && !w.jobs[j].phase.Done?
    ensures var s := OfJob(j, GiveUpJob);
      && Enabled(w, s) && After(w, s).handles == w.handles && After(w, s).rules == w.rules
      && j in After(w, s).jobs && After(w, s).jobs[j] == w.jobs[j].(phase := Aborted)
  {
  }

  /** A handle that comes to wait for a compactor waits for one it has itself just started. */
  ghost predicate Newer(jobs: map<nat, Job>, was: Compaction, now: Compaction) {
    now.Running? ==> now == was || now.job !in jobs
  }

  lemma NewerLater<S>(a: World<S>, b: World<S>, first: Compaction, was: Compaction, now: Compaction)
    requires Later(a, b) && (was == first || !was.Running?)
    ensures Newer(a.jobs, first, was)
    ensures Newer(b.jobs, was, now) ==> Newer(a.jobs, first, now)
  {
  }

  lemma NeverBack<S>(start: World<S>, a: World<S>, first: Compaction, was: Compaction, now: Compaction)
    requires first.Running? && first.job in start.jobs && Later(start, a) && was != first && Newer(a.jobs, was, now)
    ensures now != first
  {
  }

  /** Compactors are not forgotten, and one that has ended has ended for good. */
  lemma JobsStay<S>(a: World<S>, b: World<S>)
    requires Later(a, b)
    ensures forall j :: j in a.jobs ==> j in b.jobs && (Finished(a.jobs[j]) ==> b.jobs[j].phase == a.jobs[j].phase)
  {
  }

  lemma CandidateIsView(image: WalImage, fold: Option<SnapshotRef>, batch: seq<Bytes>)
    requires fold.Some? ==> Applies(fold.value, image)
    ensures Candidate(image, fold, batch) == View(image, fold, Skip(fold, image), batch)
  {
  }

  lemma VersionsGrow<S>(a: World<S>, b: World<S>, etag: Option<Text>, ver: nat)
    requires Later(a, b)
    ensures Current(b.cloud, etag, ver) ==> Current(a.cloud, etag, ver)
  {
  }

  lemma LogGrows<S>(a: World<S>, b: World<S>)
    requires Later(a, b)
    ensures |a.cloud.Log()| <= |b.cloud.Log()| && |a.cloud.versions| <= |b.cloud.versions|
  {
    hide History;
    HistoryMonotone(a.cloud.versions, b.cloud.versions);
  }

  /** Running out of attempts means as many requests were sent, and none of them lives. */
  lemma ContentionMeans<S>(w: World<S>, h: nat, batch: seq<Bytes>, single: bool, ids: seq<nat>, r: Result<(nat, nat), WriteError>)
    requires Outcome(w, h, batch, single, ids, r)
    ensures r.Err? && r.error.source.Contention? && r.error.source.operation.OpWrite? ==>
              r.error.source.attempts == |ids| && AllDead(w.cloud, ids)
  {
    hide Dead;
  }

  lemma JobShape<S>(w: World<S>, j: nat)
    requires Inv(w) && j in w.jobs
    ensures w.jobs[j].entries != [] && w.jobs[j].Count() > 0
  {
    hide HandleInv, CloudInv, Law, Fits, History;
  }

  /** Adopting a version is taking up its fields, then discarding a stale fold, then queueing the old snapshot. */
  lemma AdoptSettles<S>(was: Handle<S>, v: Version, ver: nat, state: S)
    requires was.writer
    ensures Adopt(was, v, ver, state)
         == QueueAll(Discard(was.(etag := Some(v.etag), ver := ver, image := v.image, state := state, phase := Calm)), Abandoned(was.image, v.image))
  {
  }
}
