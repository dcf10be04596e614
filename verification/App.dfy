/** The application half of the log: deterministic callbacks and the law that ties snapshots to replay. */
module App {
  import opened Primitives

  datatype Entry = Entry(lsn: nat, data: Bytes)

  datatype Reconcile = Retry | Replace(entry: Bytes) | Abort

  datatype ReconcileBatch = RetryBatch | ReplaceBatch(entries: seq<Bytes>) | AbortBatch

  datatype Stats = Stats(tip: Option<nat>, snapshotLsn: Option<nat>, liveEntries: nat, liveEntryBytes: nat, imageBytes: nat)

  /** The callbacks of one `WalApp`. Being functions, they are deterministic and free of effects. */
  datatype WalApp<!S> = WalApp(
    init: S,
    apply: (S, nat, Bytes) -> S,
    restore: Bytes -> Result<S, string>,
    compact: (Option<Bytes>, seq<Entry>) -> Result<Bytes, string>,
    shouldCompact: Stats -> bool,
    reconcileBatch: (S, seq<Bytes>) -> ReconcileBatch)

  function Replay<S>(app: WalApp<S>, state: S, lsn: nat, entries: seq<Bytes>): S
    decreases |entries|
  {
    if entries == [] then state
    else Replay(app, app.apply(state, lsn, entries[0]), lsn + 1, entries[1..])
  }

  /** The state a history builds from `init`. */
  function StateAt<S>(app: WalApp<S>, history: seq<Bytes>): S {
    Replay(app, app.init, 0, history)
  }

  lemma {:induction false} ReplayConcat<S>(app: WalApp<S>, state: S, lsn: nat, front: seq<Bytes>, back: seq<Bytes>)
    ensures Replay(app, state, lsn, front + back) == Replay(app, Replay(app, state, lsn, front), lsn + |front|, back)
    decreases |front|
  {
    if front == [] {
      assert front + back == back;
    } else {
      assert (front + back)[1..] == front[1..] + back;
      ReplayConcat(app, app.apply(state, lsn, front[0]), lsn + 1, front[1..], back);
    }
  }

  lemma StateAtConcat<S>(app: WalApp<S>, front: seq<Bytes>, back: seq<Bytes>)
    ensures StateAt(app, front + back) == Replay(app, StateAt(app, front), |front|, back)
  {
    ReplayConcat(app, app.init, 0, front, back);
  }

  /** Live entries paired with their LSNs, as handed to `compact`. */
  function Number(first: nat, entries: seq<Bytes>): seq<Entry> {
    seq(|entries|, i requires 0 <= i < |entries| => Entry(first + i, entries[i]))
  }

  /** `rep(b, h)`: the snapshot bytes `b` stand for the history prefix `h`. */
  type Represents = (Bytes, seq<Bytes>) -> bool

  /** The contract on `restore` and `compact`: some relation holds of every snapshot the
      compactor can build, and restoring a related snapshot equals replaying its prefix. */
  ghost predicate Law<S>(app: WalApp<S>, rep: Represents) {
    && (forall b, h :: rep(b, h) ==> app.restore(b) == Ok(StateAt(app, h)))
    && (forall entries, b :: entries != [] && app.compact(None, Number(0, entries)) == Ok(b) ==> rep(b, entries))
    && (forall base, h, entries, b ::
          rep(base, h) && entries != [] && app.compact(Some(base), Number(|h|, entries)) == Ok(b) ==> rep(b, h + entries))
  }

  /** Whenever compacting a restorable base restores to its replay, the law holds. */
  lemma LawFromRestoreEquation<S>(app: WalApp<S>)
    requires forall entries, b :: entries != [] && app.compact(None, Number(0, entries)) == Ok(b)
               ==> app.restore(b) == Ok(StateAt(app, entries))
    requires forall base, state, lsn, entries, b ::
               app.restore(base) == Ok(state) && entries != [] && app.compact(Some(base), Number(lsn, entries)) == Ok(b)
               ==> app.restore(b) == Ok(Replay(app, state, lsn, entries))
    ensures Law(app, (b, h) => app.restore(b) == Ok(StateAt(app, h)))
  {
    var rep: Represents := (b, h) => app.restore(b) == Ok(StateAt(app, h));
    forall base, h, entries, b
      | rep(base, h) && entries != [] && app.compact(Some(base), Number(|h|, entries)) == Ok(b)
      ensures rep(b, h + entries)
    {
      StateAtConcat(app, h, entries);
    }
  }

  // ----- the default adapter from one-entry to whole-batch reconciliation -----

  ghost predicate Rewritten(decide: Bytes -> Reconcile, pending: seq<Bytes>, batch: seq<Bytes>) {
    && |batch| == |pending|
    && forall i :: 0 <= i < |pending| ==>
         match decide(pending[i])
         case Retry => batch[i] == pending[i]
         case Replace(entry) => batch[i] == entry
         case Abort => false
  }

  /** Aborts when any entry aborts; otherwise every rewrite sticks and every other entry is kept. */
  method DefaultReconcileBatch(decide: Bytes -> Reconcile, pending: seq<Bytes>) returns (r: ReconcileBatch)
    ensures r.AbortBatch? <==> exists i :: 0 <= i < |pending| && decide(pending[i]).Abort?
    ensures r.RetryBatch? <==> forall i :: 0 <= i < |pending| ==> decide(pending[i]).Retry?
    ensures r.ReplaceBatch? ==> Rewritten(decide, pending, r.entries)
  {
    var replacement: Option<seq<Bytes>> := None;
    for index := 0 to |pending|
      invariant replacement.None? <==> forall i :: 0 <= i < index ==> decide(pending[i]).Retry?
      invariant forall i :: 0 <= i < index ==> !decide(pending[i]).Abort?
      invariant replacement.Some? ==>
                  && Rewritten(decide, pending[..index], replacement.value[..Min(index, |replacement.value|)])
                  && |replacement.value| == |pending| && replacement.value[index..] == pending[index..]
    {
      match decide(pending[index]) {
        case Retry =>
        case Replace(bytes) =>
          var entries := if replacement.Some? then replacement.value else pending;
          replacement := Some(entries[index := bytes]);
        case Abort => return AbortBatch;
      }
    }
    match replacement {
      case Some(entries) =>
        assert pending[..|pending|] == pending && entries[..|pending|] == entries;
        return ReplaceBatch(entries);
      case None => return RetryBatch;
    }
  }
}
