/** Dependent batches: every entry allocates the next id, so a batch prepared against an old state is wrong
    as soon as anybody else commits. Whole-batch reconciliation keeps the ids dense all the same. */
module AllocatorModel {
  import opened Primitives
  import opened Image
  import opened App
  import opened Protocol
  import opened CloudInvariant
  import opened WorldInvariant
  import opened ProtocolTheorems
  import opened Environment
  import opened CoreModel
  import opened AppendSpec

  /** `sound` turns false when `apply` would have panicked: a malformed entry, or the failed assertion. */
  datatype Ids = Ids(nextId: nat, given: seq<nat>, sound: bool)

  function Apply(state: Ids, entry: Bytes): Ids {
    if |entry| != 8 || FromLE(entry) != state.nextId then state.(sound := false)
    else Ids(state.nextId + 1, state.given + [FromLE(entry)], state.sound)
  }

  function Allocations(first: nat, count: nat): seq<Bytes> {
    seq(count, i requires 0 <= i < count => LE(first + i, 8))
  }

  function Allocator(): WalApp<Ids> {
    WalApp(Ids(0, [], true), (state, _, entry) => Apply(state, entry),
           _ => Err("restore is not implemented"), (_, _) => Err("compact is not implemented"), _ => false,
           (state: Ids, pending: seq<Bytes>) => ReplaceBatch(Allocations(state.nextId, |pending|)))
  }

  /** The entry at LSN `n` allocates id `n`. */
  predicate Dense(h: seq<Bytes>) {
    forall n :: 0 <= n < |h| ==> h[n] == LE(n, 8)
  }

  function UpTo(n: nat): seq<nat> { seq(n, i => i) }

  lemma {:induction false} DenseReplay(h: seq<Bytes>, n: nat)
    requires Dense(h) && n <= |h| <= U64_MAX
    ensures StateAt(Allocator(), h[..n]) == Ids(n, UpTo(n), true)
  {
    hide LE, FromLE, Pow256, StateAt;
    if n == 0 {
      NothingReplayed(h[..0]);
    } else {
      DenseReplay(h, n - 1);
      assert h[..n] == h[..n - 1] + [h[n - 1]];
      StateAtConcat(Allocator(), h[..n - 1], [h[n - 1]]);
      OneReplayed(StateAt(Allocator(), h[..n - 1]), n - 1, h[n - 1]);
      Widths();
      FromLEOfLE(n - 1, 8);
      assert UpTo(n - 1) + [n - 1] == UpTo(n);
    }
  }

  lemma NothingReplayed(h: seq<Bytes>)
    requires h == []
    ensures StateAt(Allocator(), h) == Ids(0, [], true)
  {
  }

  lemma OneReplayed(state: Ids, lsn: nat, entry: Bytes)
    ensures Replay(Allocator(), state, lsn, [entry]) == Apply(state, entry)
  {
    hide FromLE;
    assert [entry][1..] == [];
    assert Replay(Allocator(), Apply(state, entry), lsn + 1, []) == Apply(state, entry);
  }

  /** Every batch submitted is a run of ids starting at the submitting writer's own next id. */
  ghost predicate OwnBatch(w: World<Ids>, s: Step) {
    s.OfHandle? && s.act.SendPut? && s.h in w.handles ==>
      s.act.batch == Allocations(w.handles[s.h].state.nextId, |s.act.batch|)
  }

  ghost predicate OwnBatches(w: World<Ids>, steps: seq<Step>)
    requires CanRun(w, steps)
    decreases |steps|
  {
    steps != [] ==> OwnBatch(w, steps[0]) && OwnBatches(After(w, steps[0]), steps[1..])
  }

  /** LSNs are 64-bit, so the history is too. */
  lemma HistoryFits<S>(w: World<S>)
    requires Inv(w)
    ensures |w.cloud.Log()| <= U64_MAX
  {
    hide HandleInv, JobInv, Law, RequestInv, Uploads, Link, Obsolete, History;
    var c := w.cloud;
    if c.versions != [] {
      assert VersionInv(w.rules, c, c.Last().image);
    }
  }

  /** A batch prepared from the writer's own state keeps the ids dense, whatever prefix that writer has seen. */
  lemma OwnBatchIsSound(w: World<Ids>, s: Step)
    requires Inv(w) && w.app == Allocator() && OwnBatch(w, s)
    ensures SubmittedSoundly(Dense, w, s)
  {
    hide Inv, History, StateAt, LE, Allocator;
    if s.OfHandle? && s.act.SendPut? && s.h in w.handles {
      HandleStateIsReplay(w, s.h);
      HistoryFits(w);
      var n := w.handles[s.h].image.Next();
      var prefix := w.cloud.Log()[..Min(n, |w.cloud.Log()|)];
      if Dense(prefix) {
        DenseReplay(prefix, n);
        assert prefix[..n] == prefix;
        DenseGrows(prefix, |s.act.batch|);
      }
    }
  }

  lemma DenseGrows(prefix: seq<Bytes>, count: nat)
    requires Dense(prefix)
    ensures Dense(prefix + Allocations(|prefix|, count))
  {
    hide LE;
  }

  lemma {:induction false} OwnBatchesAreSound(w: World<Ids>, steps: seq<Step>)
    requires Inv(w) && w.app == Allocator() && CanRun(w, steps) && OwnBatches(w, steps)
    ensures RunsSoundly(Dense, w, steps)
    decreases |steps|
  {
    hide Inv, Enabled, SubmittedSoundly, OwnBatch, Allocator, Extends;
    if steps != [] {
      OwnBatchIsSound(w, steps[0]);
      StepKeeps(w, steps[0]);
      OwnBatchesAreSound(After(w, steps[0]), steps[1..]);
    }
  }

  /** With any number of allocators racing, from an empty log on: the entry at LSN `n` allocates id `n`, every
      handle's state is exactly the ids of its prefix, and the assertion in `apply` has never failed. */
  lemma IdsStayDense(w: World<Ids>, steps: seq<Step>)
    requires Initial(w) && Law(w.app, w.rules.rep) && w.app == Allocator() && CanRun(w, steps) && OwnBatches(w, steps)
    ensures var after := Run(w, steps);
      && Dense(after.cloud.Log())
      && forall h :: h in after.handles ==>
           var n := after.handles[h].image.Next(); after.handles[h].state == Ids(n, UpTo(n), true)
  {
    hide Law, History, Run, StateAt, Inv, Allocator, Dense, Fits, RunsSoundly, OwnBatches;
    InitialInv(w);
    NothingDecided(w);
    OwnBatchesAreSound(w, steps);
    ReconciliationSound(Dense, w, steps);
    RunKeeps(w, steps);
    var after := Run(w, steps);
    HistoryFits(after);
    forall h | h in after.handles ensures var n := after.handles[h].image.Next(); after.handles[h].state == Ids(n, UpTo(n), true) {
      HandleStateIsReplay(after, h);
      DenseReplay(after.cloud.Log(), after.handles[h].image.Next());
    }
  }

  lemma NothingDecided(w: World<Ids>)
    requires Initial(w)
    ensures Decided(Dense, w.cloud) && Dense(w.cloud.Log())
  {
    hide Fits;
  }

  /** However often it is rebuilt, a batch still allocates as many ids as its caller asked for. */
  lemma {:induction false} AttemptsKeepCount(start: World<Ids>, w: World<Ids>, entries: seq<Bytes>, ids: seq<nat>, i: nat)
    requires w.app == Allocator() && Attempts(start, w, entries, ids) && i < |ids|
    ensures ids[i] < |w.cloud.requests| && |w.cloud.requests[ids[i]].batch| == |entries|
  {
    hide History, StateAt, LE;
    if i > 0 {
      AttemptsKeepCount(start, w, entries, ids, i - 1);
      assert DecidedOn(w, ids[i], w.cloud.requests[ids[i - 1]].batch);
    }
  }

  /** What an append submits, first or after any number of conflicts, is such a run of ids. */
  lemma AppendSubmitsOwnBatches(w: World<Ids>, h: nat, batch: seq<Bytes>, ids: seq<nat>, entries: seq<Bytes>)
    requires w.app == Allocator() && h in w.handles && Prepared(w, h, batch, ids, entries)
    requires ids == [] ==> batch == Allocations(w.handles[h].state.nextId, |batch|)
    ensures OwnBatch(w, OfHandle(h, SendPut(entries)))
  {
    hide LE;
  }
}
