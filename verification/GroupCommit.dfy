/** Group commit: one writer drains a queue of requests into batches and answers each with its LSN. */
module GroupCommit {
  import opened Primitives
  import opened Image
  import opened App
  import opened Protocol
  import opened CloudInvariant
  import opened WorldInvariant
  import opened ProtocolTheorems
  import opened Environment
  import opened CoreModel
  import opened AppendSpec
  import opened WalTierModel

  /** A queued entry and the channel its producer waits on. */
  datatype Request = Request(entry: Bytes, receipt: nat)

  /** What was sent on which channel. */
  datatype Answer = Answer(receipt: nat, result: Result<nat, WriteError>)

  datatype Report = Report(acknowledged: nat, commits: nat, failed: nat)

  /** The counting application: every entry stands alone, so every conflict is simply retried. */
  function Count(): WalApp<nat> {
    WalApp(0, (state, _, _) => state + 1, _ => Err("restore is not implemented"), (_, _) => Err("compact is not implemented"),
           _ => false, (_, _) => RetryBatch)
  }

  /** Its law holds trivially, since it never makes a snapshot. */
  lemma CountIsLawful()
    ensures Law(Count(), (_, _) => false)
  {
  }

  function Entries(requests: seq<Request>): seq<Bytes> {
    seq(|requests|, i requires 0 <= i < |requests| => requests[i].entry)
  }

  /** Under retry-only reconciliation every attempt of a call carries the caller's entries. */
  lemma {:induction false} RetryKeeps(start: World<nat>, w: World<nat>, entries: seq<Bytes>, ids: seq<nat>, i: nat)
    requires Attempts(start, w, entries, ids) && i < |ids| && w.app == Count()
    ensures ids[i] < |w.cloud.requests| && w.cloud.requests[ids[i]].batch == entries
  {
    hide History, StateAt;
    if i > 0 {
      RetryKeeps(start, w, entries, ids, i - 1);
      assert DecidedOn(w, ids[i], w.cloud.requests[ids[i - 1]].batch);
    }
  }

  /** What one call reports, once reconciliation can only retry. */
  lemma RetryOutcome(start: World<nat>, w: World<nat>, h: nat, entries: seq<Bytes>, ids: seq<nat>, r: Result<(nat, nat), WriteError>)
    requires Attempts(start, w, entries, ids) && Outcome(w, h, entries, false, ids, r) && w.app == Count() && entries != []
    ensures r.Ok? ==> r.value.1 == r.value.0 + |entries| && Committed(w.cloud, r.value.0, entries)
    ensures r.Err? ==> r.error.entries == entries && !r.error.source.AppFailed? && (!r.error.unknown ==> AllDead(w.cloud, ids))
  {
    hide Attempts, Dead, Committed, AllDead, DecidedOn;
    if ids != [] {
      RetryKeeps(start, w, entries, ids, |ids| - 1);
    }
  }

  method CommitBatch(wal: WalTier<nat>, entries: seq<Bytes>) returns (r: Result<(nat, nat), WriteError>, ghost ids: seq<nat>)
    requires wal.Valid() && wal.World().app == Count() && entries != []
    modifies wal, wal.core, wal.core.cloud, wal.core.disk
    ensures wal.Valid() && Later(old(wal.World()), wal.World()) && wal.World().app == Count()
    ensures r.Ok? ==>
              && |old(wal.World()).cloud.Log()| <= r.value.0 && r.value.1 == r.value.0 + |entries|
              && Committed(wal.World().cloud, r.value.0, entries)
    ensures r.Err? ==> r.error.entries == entries && !r.error.source.AppFailed? && (!r.error.unknown ==> AllDead(wal.World().cloud, ids))
  {
    hide Inv, Extends, Recorded, Attempts, Outcome, History, AllDead, Committed;
    ghost var start := wal.World();
    r, ids := wal.Append(entries, false);
    RetryOutcome(start, wal.World(), wal.core.me, entries, ids, r);
  }

  // ----- receipts -----

  /** Requests are answered in queue order, once each, and a successful answer names the entry's place in the history. */
  ghost predicate Truthful(c: Protocol.Cloud, requests: seq<Request>, sent: seq<Answer>) {
    && |sent| <= |requests|
    && forall i :: 0 <= i < |sent| ==>
         && sent[i].receipt == requests[i].receipt
         && (sent[i].result.Ok? ==> sent[i].result.value < |c.Log()| && c.Log()[sent[i].result.value] == requests[i].entry)
  }

  ghost predicate Increasing(sent: seq<Answer>) {
    forall i, j :: 0 <= i < j < |sent| && sent[i].result.Ok? && sent[j].result.Ok? ==> sent[i].result.value < sent[j].result.value
  }

  /** The first `acknowledged` answers succeed and all others fail. */
  ghost predicate CutAt(sent: seq<Answer>, acknowledged: nat) {
    acknowledged <= |sent| && forall i :: 0 <= i < |sent| ==> (sent[i].result.Ok? <==> i < acknowledged)
  }

  /** The first `acknowledged` requests succeeded. If there is another one, it was the first of a batch that was
      handed to the log and failed there: the whole batch got that failure. From `submitted` on, where that batch
      ends, nothing was handed to the log any more. */
  ghost predicate Halted(sent: seq<Answer>, acknowledged: nat, submitted: nat, maxBatch: nat) {
    && CutAt(sent, acknowledged) && acknowledged <= submitted <= |sent| && submitted <= acknowledged + maxBatch
    && (acknowledged < |sent| ==> acknowledged < submitted)
    && (forall i :: acknowledged <= i < submitted ==>
          sent[i].result.Err? && !sent[i].result.error.source.AppFailed? && sent[i].result == sent[acknowledged].result)
    && forall i :: submitted <= i < |sent| ==>
         sent[i].result.Err? && sent[i].result.error.source.AppFailed? && !sent[i].result.error.unknown
  }

  lemma HaltedMore(sent: seq<Answer>, more: seq<Answer>, acknowledged: nat, submitted: nat, maxBatch: nat, error: WriteError)
    requires forall i :: 0 <= i < |more| ==> more[i].result == Err(error)
    requires CutAt(sent + more, acknowledged)
    ensures Halted(sent, acknowledged, submitted, maxBatch) && acknowledged < |sent| && error.source.AppFailed? && !error.unknown
            ==> Halted(sent + more, acknowledged, submitted, maxBatch)
    ensures acknowledged == |sent| && 0 < |more| <= maxBatch && !error.source.AppFailed?
            ==> Halted(sent + more, acknowledged, |sent + more|, maxBatch)
  {
    hide CutAt;
  }

  lemma TruthfulLater<S>(a: World<S>, b: World<S>, requests: seq<Request>, sent: seq<Answer>)
    requires Truthful(a.cloud, requests, sent) && Later(a, b)
    ensures Truthful(b.cloud, requests, sent)
  {
    hide History;
    HistoryMonotone(a.cloud.versions, b.cloud.versions);
  }

  method Succeed(receipts: seq<nat>, from: nat) returns (sent: seq<Answer>)
    ensures |sent| == |receipts| && forall i :: 0 <= i < |receipts| ==> sent[i] == Answer(receipts[i], Ok(from + i))
  {
    sent := [];
    for i := 0 to |receipts|
      invariant |sent| == i && forall k :: 0 <= k < i ==> sent[k] == Answer(receipts[k], Ok(from + k))
    {
      sent := sent + [Answer(receipts[i], Ok(from + i))];
    }
  }

  method Fail(receipts: seq<nat>, error: WriteError) returns (sent: seq<Answer>)
    ensures |sent| == |receipts| && forall i :: 0 <= i < |receipts| ==> sent[i] == Answer(receipts[i], Err(error))
  {
    sent := [];
    for i := 0 to |receipts|
      invariant |sent| == i && forall k :: 0 <= k < i ==> sent[k] == Answer(receipts[k], Err(error))
    {
      sent := sent + [Answer(receipts[i], Err(error))];
    }
  }

  /** One batch committed: its answers extend the answered prefix truthfully and in order. */
  lemma MoreAnswered(c: Protocol.Cloud, requests: seq<Request>, sent: seq<Answer>, more: seq<Answer>, from: nat, low: nat)
    requires Truthful(c, requests, sent) && Increasing(sent) && CutAt(sent, |sent|)
    requires |sent| + |more| <= |requests| && low <= from
    requires forall i :: 0 <= i < |sent| ==> sent[i].result.value < low
    requires forall i :: 0 <= i < |more| ==> more[i] == Answer(requests[|sent| + i].receipt, Ok(from + i))
    requires Committed(c, from, Entries(requests[|sent|..|sent| + |more|]))
    ensures Truthful(c, requests, sent + more) && Increasing(sent + more) && CutAt(sent + more, |sent| + |more|)
  {
    hide History;
    var entries := Entries(requests[|sent|..|sent| + |more|]);
    forall i | 0 <= i < |more|
      ensures more[i].result.value < |c.Log()| && c.Log()[more[i].result.value] == requests[|sent| + i].entry
    {
      assert c.Log()[from..from + |entries|][i] == entries[i];
    }
  }

  lemma MoreFailed(c: Protocol.Cloud, requests: seq<Request>, sent: seq<Answer>, more: seq<Answer>, k: nat)
    requires Truthful(c, requests, sent) && Increasing(sent) && CutAt(sent, k)
    requires |sent| + |more| <= |requests|
    requires forall i :: 0 <= i < |more| ==> more[i].receipt == requests[|sent| + i].receipt && more[i].result.Err?
    ensures Truthful(c, requests, sent + more) && Increasing(sent + more) && CutAt(sent + more, k)
  {
    hide History;
  }

  /** Takes the first waiting request and whatever else is ready, up to the batch limit. */
  method Drain(requests: seq<Request>, at: nat, ready: nat -> bool, maxBatch: nat) returns (entries: seq<Bytes>, receipts: seq<nat>, upto: nat)
    requires at < |requests| && maxBatch > 0
    ensures at < upto <= |requests| && upto - at <= maxBatch
    ensures forall k :: at < k < upto ==> ready(k)
    ensures upto == |requests| || upto - at == maxBatch || !ready(upto)
    ensures entries == Entries(requests[at..upto]) && |receipts| == upto - at
    ensures forall i :: 0 <= i < |receipts| ==> receipts[i] == requests[at + i].receipt
  {
    entries, receipts, upto := [requests[at].entry], [requests[at].receipt], at + 1;
    while |entries| < maxBatch && upto < |requests| && ready(upto)
      invariant at < upto <= |requests| && |entries| == upto - at <= maxBatch
      invariant entries == Entries(requests[at..upto]) && |receipts| == upto - at
      invariant forall i :: 0 <= i < |receipts| ==> receipts[i] == requests[at + i].receipt
      invariant forall k :: at < k < upto ==> ready(k)
      decreases |requests| - upto
    {
      entries := entries + [requests[upto].entry];
      receipts := receipts + [requests[upto].receipt];
      upto := upto + 1;
    }
  }

  /** Answers one batch: the LSNs of its range in order, or its failure to every request alike. */
  method AnswerBatch(receipts: seq<nat>, result: Result<(nat, nat), WriteError>, ghost c: Protocol.Cloud, ghost requests: seq<Request>,
                     sent: seq<Answer>, ghost low: nat, ghost acknowledged: nat, ghost submitted: nat, ghost maxBatch: nat)
    returns (now: seq<Answer>)
    requires Truthful(c, requests, sent) && Increasing(sent) && CutAt(sent, acknowledged)
    requires acknowledged <= |sent| && |sent| + |receipts| <= |requests| && 0 < |receipts| <= maxBatch
    requires forall i :: 0 <= i < |receipts| ==> receipts[i] == requests[|sent| + i].receipt
    requires result.Ok? ==>
               && acknowledged == |sent| && low <= result.value.0 && result.value.1 == result.value.0 + |receipts|
               && (forall i :: 0 <= i < |sent| ==> sent[i].result.Ok? && sent[i].result.value < low)
               && Committed(c, result.value.0, Entries(requests[|sent|..|sent| + |receipts|]))
    requires result.Err? ==>
               if acknowledged == |sent| then !result.error.source.AppFailed?
               else Halted(sent, acknowledged, submitted, maxBatch) && result.error.source.AppFailed? && !result.error.unknown
    ensures |now| == |sent| + |receipts| && Truthful(c, requests, now) && Increasing(now)
    ensures var reached := if result.Ok? then |now| else acknowledged;
      CutAt(now, reached) && Halted(now, reached, if acknowledged == |sent| then |now| else submitted, maxBatch)
  {
    hide History, Truthful, Increasing, CutAt, Committed, Halted;
    match result {
      case Ok((from, end)) =>
        assert end - from == |receipts|;
        var more := Succeed(receipts, from);
        MoreAnswered(c, requests, sent, more, from, low);
        AllSucceeded(sent + more, maxBatch);
        now := sent + more;
      case Err(error) =>
        var more := Fail(receipts, error);
        MoreFailed(c, requests, sent, more, acknowledged);
        HaltedMore(sent, more, acknowledged, submitted, maxBatch, error);
        now := sent + more;
    }
  }

  /** The writer thread. `requests` is everything the queue ever delivers, in order; `ready` decides what has
      already arrived when the writer looks, so any split into batches is possible. */
  method RunWriter(wal: WalTier<nat>, requests: seq<Request>, ready: nat -> bool, maxBatch: nat)
    returns (r: Result<Report, WalError>, sent: seq<Answer>, ghost acknowledged: nat, ghost batches: seq<nat>)
    requires wal.Valid() && wal.World().app == Count() && maxBatch > 0
    modifies wal, wal.core, wal.core.cloud, wal.core.disk
    ensures wal.Valid() && Later(old(wal.World()), wal.World())
    ensures |sent| == |requests| && Truthful(wal.World().cloud, requests, sent) && Increasing(sent)
    ensures Halted(sent, acknowledged, Sum(batches), maxBatch) && forall b :: b in batches ==> 0 < b <= maxBatch
    ensures r.Ok? ==> !wal.compaction.Running? && !wal.compaction.Ready? && !wal.compaction.Failed? && wal.garbage == []
    ensures r.Ok? ==> r.value.commits == |batches| && r.value.acknowledged == acknowledged && r.value.acknowledged + r.value.failed == |requests|
  {
    hide Inv, Extends, Recorded, History, Truthful, Increasing, CutAt, Committed, AllDead, Later, Halted, Count, Sum,
         WalTier<nat>.Valid, WalTier<nat>.FoldFailure, FoldsOnly, Blames;
    ghost var start := wal.World();
    LaterItself(start);
    var report := Report(0, 0, 0);
    var stopped := false;
    sent, batches := [], [];
    NothingAnswered(start.cloud, requests, maxBatch);
    SumNothing();
    while |sent| < |requests|
      invariant wal.Valid() && Later(start, wal.World()) && wal.World().app == Count() && |sent| <= |requests|
      invariant Truthful(wal.World().cloud, requests, sent) && Increasing(sent) && CutAt(sent, report.acknowledged)
      invariant report.acknowledged + report.failed == |sent| && (stopped <==> report.failed > 0)
      invariant Halted(sent, report.acknowledged, Sum(batches), maxBatch)
      invariant report.commits == |batches| && forall b :: b in batches ==> 0 < b <= maxBatch
      invariant !stopped ==> Sum(batches) == |sent|
      decreases |requests| - |sent|
    {
      var entries, receipts, upto := Drain(requests, |sent|, ready, maxBatch);
      var result: Result<(nat, nat), WriteError>;
      ghost var before := wal.World();
      if stopped {
        result := Err(WriteError(entries, AppFailed, false));
      } else {
        report := report.(commits := report.commits + 1);
        ghost var ids;
        result, ids := CommitBatch(wal, entries);
        SumSnoc(batches, |entries|);
        batches := batches + [|entries|];
        LaterTransitive(start, before, wal.World());
        AnsweredBelow(before.cloud, requests, sent);
        TruthfulLater(before, wal.World(), requests, sent);
      }
      sent := AnswerBatch(receipts, result, wal.World().cloud, requests, sent, |before.cloud.Log()|, report.acknowledged,
                          Sum(batches), maxBatch);
      if result.Ok? {
        report := report.(acknowledged := report.acknowledged + |receipts|);
      } else {
        stopped := true;
        report := report.(failed := report.failed + |receipts|);
      }
    }
    acknowledged := report.acknowledged;
    ghost var drained := wal.World();
    var closed;
    ghost var ids;
    closed, ids := wal.Flush();
    LaterTransitive(start, drained, wal.World());
    TruthfulLater(drained, wal.World(), requests, sent);
    if closed.Err? {
      return Err(closed.error), sent, acknowledged, batches;
    }
    return Ok(report), sent, acknowledged, batches;
  }

  lemma LaterItself<S>(w: World<S>)
    ensures Later(w, w)
  {
    ExtendsItself(w.cloud);
  }

  lemma NothingAnswered(c: Protocol.Cloud, requests: seq<Request>, maxBatch: nat)
    ensures Truthful(c, requests, []) && Increasing([]) && CutAt([], 0) && Halted([], 0, 0, maxBatch)
  {
  }

  lemma AllSucceeded(sent: seq<Answer>, maxBatch: nat)
    requires CutAt(sent, |sent|)
    ensures Halted(sent, |sent|, |sent|, maxBatch)
  {
    hide CutAt;
  }

  lemma AnsweredBelow(c: Protocol.Cloud, requests: seq<Request>, sent: seq<Answer>)
    requires Truthful(c, requests, sent) && CutAt(sent, |sent|)
    ensures forall i :: 0 <= i < |sent| ==> sent[i].result.Ok? && sent[i].result.value < |c.Log()|
  {
    hide History;
  }
}
