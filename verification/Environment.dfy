/** The object store as one caller sees it, with everybody else acting around each of its requests.

    The environment's choices are a fixed but arbitrary script, so what is proved of the code holds for
    every schedule, every fault and every choice of validators. */
module Environment {
  import opened Primitives
  import opened Image
  import opened App
  import opened Protocol
  import opened CloudInvariant
  import opened WorldInvariant
  import opened ProtocolTheorems

  datatype Reply = Honest | Lost(applied: bool)

  /** The environment's part in one request: what happens first, how the store answers, which names it draws. */
  datatype Turn = Turn(before: seq<Step>, reply: Reply, etag: Text, key: Text, job: nat)

  datatype Actor = Client(h: nat) | Compactor(j: nat)

  predicate Mine(me: Actor, s: Step) {
    match me
    case Client(h) =>
      (s.OfHandle? && s.h == h) || (s.Open? && s.h == h) || (s.Drop? && s.h == h) || (s.Spawn? && s.h == h)
    case Compactor(j) => (s.OfJob? && s.j == j) || (s.Spawn? && s.j == j)
  }

  /** What any passage of time preserves. */
  ghost predicate Later<S>(a: World<S>, b: World<S>) {
    && Extends(a.cloud, b.cloud) && JobsExtend(a.jobs, b.jobs) && a.app == b.app && a.rules == b.rules
  }

  /** What others cannot touch. */
  ghost predicate Untouched<S>(me: Actor, a: World<S>, b: World<S>) {
    match me
    case Client(h) => (h in a.handles <==> h in b.handles) && (h in a.handles ==> b.handles[h] == a.handles[h])
    case Compactor(j) => (j in a.jobs <==> j in b.jobs) && (j in a.jobs ==> b.jobs[j] == a.jobs[j])
  }

  lemma LaterTransitive<S>(a: World<S>, b: World<S>, c: World<S>)
    requires Later(a, b) && Later(b, c)
    ensures Later(a, c)
  {
    hide Extends;
    ExtendsTransitive(a.cloud, b.cloud, c.cloud);
  }

  lemma StepLater<S>(w: World<S>, s: Step)
    requires Inv(w) && Enabled(w, s)
    ensures Inv(After(w, s)) && Later(w, After(w, s))
  {
    hide Inv, Enabled, Extends;
    StepKeeps(w, s);
  }

  class Backend<S> {
    var world: World<S>
    const turns: nat -> Turn
    var clock: nat
    var faults: nat  // requests answered with an error so far

    ghost predicate Valid() reads this { Inv(world) }

    constructor (world: World<S>, turns: nat -> Turn)
      requires Inv(world)
      ensures Valid() && this.world == world && this.turns == turns && clock == 0 && faults == 0
    {
      this.world := world;
      this.turns := turns;
      clock := 0;
      faults := 0;
    }

    /** One protocol step, taken now. */
    method Do(s: Step)
      requires Valid() && Enabled(world, s)
      modifies this`world
      ensures Valid() && world == After(old(world), s) && Later(old(world), world)
    {
      hide Inv, Enabled;
      StepLater(world, s);
      world := After(world, s);
    }

    /** Everybody but `me`, and the network, do whatever the script says. */
    method Interfere(me: Actor) returns (turn: Turn)
      requires Valid()
      modifies this`world, this`clock
      ensures Valid() && Later(old(world), world) && Untouched(me, old(world), world)
      ensures turn == turns(old(clock)) && clock == old(clock) + 1
    {
      hide Inv, Enabled, Extends;
      turn := turns(clock);
      clock := clock + 1;
      ExtendsItself(world.cloud);
      for i := 0 to |turn.before|
        invariant Valid() && Later(old(world), world) && Untouched(me, old(world), world)
        invariant clock == old(clock) + 1
      {
        var s := turn.before[i];
        if !Mine(me, s) && Enabled(world, s) {
          ghost var was := world;
          OthersCannotTouch(me, world, s);
          Do(s);
          LaterTransitive(old(world), was, world);
        }
      }
    }

    // ----- reads -----

    /** `get_if_changed` on the WAL key. */
    method GetWal(h: nat, etag: Option<Text>) returns (r: Result<CondGet, StoreError>)
      requires Valid()
      modifies this
      ensures Valid() && clock == old(clock) + 1 && Later(old(world), world) && Untouched(Client(h), old(world), world)
      ensures faults == old(faults) + (if r.Err? then 1 else 0)
      ensures r.Ok? && r.value.Missing? ==> world.cloud.versions == []
      ensures r.Ok? && r.value.NotModified? ==> world.cloud.versions != [] && etag == Some(world.cloud.Last().etag)
      ensures r.Ok? && r.value.Changed? ==>
                && world.cloud.versions != [] && etag != Some(world.cloud.Last().etag)
                && r.value == Changed(world.cloud.Last().etag, Layout(world.cloud.Last().image))
    {
      var turn := Interfere(Client(h));
      if turn.reply.Lost? {
        faults := faults + 1;
        return Err(StoreError(true));
      }
      var c := world.cloud;
      if c.versions == [] {
        return Ok(Missing);
      }
      if etag == Some(c.Last().etag) {
        return Ok(NotModified);
      }
      return Ok(Changed(c.Last().etag, Layout(c.Last().image)));
    }

    /** `get` on a snapshot key. */
    method GetSnapshot(me: Actor, key: Text) returns (r: Result<Option<Bytes>, StoreError>)
      requires Valid()
      modifies this
      ensures Valid() && clock == old(clock) + 1 && Later(old(world), world) && Untouched(me, old(world), world)
      ensures faults == old(faults) + (if r.Err? then 1 else 0)
      ensures r.Ok? && r.value.Some? ==>
                SnapshotReadable(world.cloud, key, false) && key in world.cloud.tried && r.value.value == world.cloud.tried[key].bytes
      ensures r.Ok? && r.value.None? ==> !(SnapshotReadable(world.cloud, key, false) && key in world.cloud.tried)
    {
      var turn := Interfere(me);
      if turn.reply.Lost? {
        faults := faults + 1;
        return Err(StoreError(true));
      }
      if SnapshotReadable(world.cloud, key, false) && key in world.cloud.tried {
        return Ok(Some(world.cloud.tried[key].bytes));
      }
      return Ok(None);
    }

    // ----- conditional writes of the WAL object -----

    /** `put_if_match` on the WAL key: the whole request, from sending it to learning what is known of it. */
    method PutWal(h: nat, etag: Option<Text>, data: Bytes, batch: seq<Bytes>) returns (r: Result<CondPut, StoreError>)
      requires Valid() && h in world.handles && HandleEnabled(world, world.handles[h], SendPut(batch))
      requires etag == world.handles[h].etag
      requires data == Layout(Candidate(world.handles[h].image, Pending(world.handles[h].compaction), batch))
      modifies this
      ensures Valid() && clock == old(clock) + 1 && Later(old(world), world) && h in world.handles
      ensures Sent(old(world), world, h, batch)
      ensures faults == old(faults) + (if r.Err? then 1 else 0)
      ensures var id := |old(world).cloud.requests|; var was := old(world).handles[h];
        match r
        case Ok(Written(e)) =>
          && was.ver + 1 < |world.cloud.versions| && world.cloud.versions[was.ver + 1].put == id
          && e == world.cloud.versions[was.ver + 1].etag
          && (was.compaction.Ready? ==> Applies(was.compaction.fold, was.image))
          && world.handles[h] == Install(world.app, was, batch, world.cloud.versions[was.ver + 1], was.ver + 1)
        case Ok(PreconditionFailed) =>
          world.handles[h] == was.(phase := Reading(None)) && Dead(world.cloud, id) && was.ver + 1 < |world.cloud.versions|
        case Err(e) => world.handles[h] == was && (e.unknown || Dead(world.cloud, id))
    {
      hide Inv, HandleEnabled, Applies, Candidate, Extends, Install, Layout, Fits, Sent;
      ghost var start := world;
      var turn := Deliver(h, batch);
      ghost var settled := world;
      r := Answer(h, turn);
      faults := faults + (if r.Err? then 1 else 0);
      LaterTransitive(start, settled, world);
      SentStays(start, settled, world, h, batch);
      if r.Ok? && r.value.Written? {
        InstallIgnoresPhase(world.app, start.handles[h], settled.handles[h].phase, batch,
                            world.cloud.versions[start.handles[h].ver + 1], start.handles[h].ver + 1);
      }
    }

    /** The request leaves, everybody acts, and it may take effect; its caller has not heard yet. */
    method Deliver(h: nat, batch: seq<Bytes>) returns (turn: Turn)
      requires Valid() && h in world.handles && HandleEnabled(world, world.handles[h], SendPut(batch))
      modifies this`world, this`clock
      ensures Valid() && clock == old(clock) + 1 && Later(old(world), world) && h in world.handles
      ensures Sent(old(world), world, h, batch)
      ensures old(world).handles[h].phase.Calm?
      ensures world.handles[h] == old(world).handles[h].(phase := Waiting(|old(world).cloud.requests|, batch))
    {
      hide Inv, Enabled, After, HandleEnabled, EtagAllowed, CasMatches, Extends, Fits, Sent;
      ghost var start := world;
      SendPutShape(world, h, batch);
      Do(OfHandle(h, SendPut(batch)));
      ghost var sent := world;
      turn := Interfere(Client(h));
      LaterTransitive(start, sent, world);
      SentStays(start, sent, world, h, batch);
      if turn.reply.Honest? && CanLand(h) && EtagAllowed(world.cloud, turn.etag, world.cloud.requests[world.handles[h].phase.put].image) {
        ghost var before := world;
        LandShape(world, world.handles[h].phase.put, turn.etag);
        Do(OfNet(LandPut(world.handles[h].phase.put, turn.etag)));
        LaterTransitive(start, before, world);
        SentStays(start, before, world, h, batch);
      }
    }

    predicate CanLand(h: nat)
      reads this
      requires h in world.handles && world.handles[h].phase.Waiting?
    {
      var id := world.handles[h].phase.put;
      id in world.cloud.flight && id < |world.cloud.requests| && CasMatches(world.cloud.Etag(), world.cloud.requests[id].expected)
    }

    /** The caller of a pending PUT learns the outcome the script allows. */
    method Answer(h: nat, turn: Turn) returns (r: Result<CondPut, StoreError>)
      requires Valid() && h in world.handles && world.handles[h].phase.Waiting?
      modifies this`world
      ensures Valid() && Later(old(world), world) && h in world.handles
      ensures world.cloud.requests == old(world).cloud.requests
      ensures var was := old(world).handles[h]; var id := was.phase.put;
        match r
        case Ok(Written(e)) =>
          && was.ver + 1 < |world.cloud.versions| && world.cloud.versions[was.ver + 1].put == id
          && e == world.cloud.versions[was.ver + 1].etag
          && (was.compaction.Ready? ==> Applies(was.compaction.fold, was.image))
          && world.handles[h] == Install(world.app, was, was.phase.batch, world.cloud.versions[was.ver + 1], was.ver + 1)
        case Ok(PreconditionFailed) =>
          world.handles[h] == was.(phase := Reading(None)) && Dead(world.cloud, id) && was.ver + 1 < |world.cloud.versions|
        case Err(e) => world.handles[h] == was.(phase := Calm) && (e.unknown || Dead(world.cloud, id))
    {
      hide Inv, Extends, Install;
      var it := world.handles[h];
      var id := it.phase.put;
      WaitingShape(world, h);
      if turn.reply.Honest? && it.ver + 1 < |world.cloud.versions| && world.cloud.versions[it.ver + 1].put == id {
        var e := world.cloud.versions[it.ver + 1].etag;
        Do(OfHandle(h, Accepted));
        return Ok(Written(e));
      }
      if turn.reply.Honest? && id in world.cloud.flight && !CasMatches(world.cloud.Etag(), world.cloud.requests[id].expected) {
        RejectedBehind(world, h);
        Do(OfHandle(h, Rejected));
        return Ok(PreconditionFailed);
      }
      if turn.reply.Lost? && !turn.reply.applied && !world.cloud.Landed(id) {
        Do(OfHandle(h, NotApplied));
        return Err(StoreError(false));
      }
      Do(OfHandle(h, Unknown));
      return Err(StoreError(true));
    }

    /** The create-only PUT of the empty image. */
    method CreateWal(h: nat, data: Bytes) returns (r: Result<CondPut, StoreError>)
      requires Valid() && h in world.handles && HandleEnabled(world, world.handles[h], SendCreate)
      requires data == Layout(Empty)
      modifies this
      ensures Valid() && clock == old(clock) + 1 && Later(old(world), world) && h in world.handles
      ensures faults == old(faults) + (if r.Err? then 1 else 0)
      ensures match r
        case Ok(Written(e)) =>
          && world.cloud.versions != [] && e == world.cloud.versions[0].etag && world.cloud.versions[0].image == Empty
          && world.handles[h] == Adopt(old(world).handles[h], world.cloud.versions[0], 0, world.app.init)
        case Ok(PreconditionFailed) => world.handles[h] == old(world).handles[h]
        case Err(_) => true
    {
      hide Inv, Extends, Layout, Fits, Adopt;
      ghost var start := world;
      Do(OfHandle(h, SendCreate));
      ghost var sent := world;
      var turn := Interfere(Client(h));
      LaterTransitive(start, sent, world);
      CreatingShape(world, h);
      var id := world.handles[h].phase.put;
      if turn.reply.Honest? && NetEnabled(world.cloud, LandPut(id, turn.etag)) {
        ghost var before := world;
        LandShape(world, id, turn.etag);
        Do(OfNet(LandPut(id, turn.etag)));
        LaterTransitive(start, before, world);
        CreatingShape(world, h);
      }
      ghost var settled := world;
      r := AnswerCreate(h, turn);
      faults := faults + (if r.Err? then 1 else 0);
      LaterTransitive(start, settled, world);
      if r.Ok? && r.value.Written? {
        AdoptIgnoresPhase(start.handles[h], settled.handles[h].phase, world.cloud.versions[0], 0, world.app.init);
      }
    }

    method AnswerCreate(h: nat, turn: Turn) returns (r: Result<CondPut, StoreError>)
      requires Valid() && h in world.handles && world.handles[h].phase.Creating?
      modifies this`world
      ensures Valid() && Later(old(world), world) && h in world.handles
      ensures match r
        case Ok(Written(e)) =>
          && world.cloud.versions != [] && e == world.cloud.versions[0].etag && world.cloud.versions[0].image == Empty
          && world.handles[h] == Adopt(old(world).handles[h], world.cloud.versions[0], 0, world.app.init)
        case Ok(PreconditionFailed) => world.handles[h] == old(world).handles[h].(phase := Reading(old(world).handles[h].phase.missed))
        case Err(_) => true
    {
      hide Inv, Extends, Fits, Adopt;
      var id := world.handles[h].phase.put;
      CreatingShape(world, h);
      ExtendsItself(world.cloud);
      if turn.reply.Honest? && world.cloud.versions != [] && world.cloud.versions[0].put == id {
        Do(OfHandle(h, Created));
        FirstIsEmpty(world);
        return Ok(Written(world.cloud.versions[0].etag));
      }
      if turn.reply.Honest? && id in world.cloud.flight && !CasMatches(world.cloud.Etag(), world.cloud.requests[id].expected) {
        Do(OfHandle(h, CreateRejected));
        return Ok(PreconditionFailed);
      }
      return Err(StoreError(!turn.reply.Lost? || turn.reply.applied));
    }

    // ----- snapshots -----

    /** DELETE of the key at the front of the caller's queue. */
    method DeleteSnapshot(h: nat, key: Text) returns (r: Result<(), StoreError>)
      requires h in world.handles && world.handles[h].phase.Calm? && world.handles[h].garbage != [] && key == world.handles[h].garbage[0]
      requires Valid()
      modifies this
      ensures clock == old(clock) + 1 && h in world.handles
      ensures faults == old(faults) + (if r.Err? then 1 else 0)
      ensures r.Ok? ==> key in world.cloud.deleted
                        && world.handles[h] == old(world).handles[h].(garbage := old(world).handles[h].garbage[1..])
      ensures r.Err? ==> world.handles[h] == old(world).handles[h]
      ensures Valid() && Later(old(world), world)
    {
      hide Inv, Extends, Enabled, After;
      ghost var start := world;
      SendDeleteShape(world, h);
      Do(OfHandle(h, SendDelete));
      ghost var sent := world;
      var turn := Interfere(Client(h));
      LaterTransitive(start, sent, world);
      if turn.reply.Honest? && key in world.cloud.deletes {
        ghost var before := world;
        LandDeleteShape(world, key);
        Do(OfNet(LandDelete(key)));
        LaterTransitive(start, before, world);
      }
      ghost var settled := world;
      DeleteAnswerShape(world, h);
      if turn.reply.Honest? && key in world.cloud.deleted {
        Do(OfHandle(h, DeleteDone));
        LaterTransitive(start, settled, world);
        DeletedStays(settled, world, key);
        return Ok(());
      }
      Do(OfHandle(h, DeleteFailed));
      LaterTransitive(start, settled, world);
      faults := faults + 1;
      return Err(StoreError(true));
    }

    /** A compactor's create-only upload. */
    method UploadSnapshot(j: nat, key: Text, data: Bytes) returns (r: Result<CondPut, StoreError>)
      requires j in world.jobs && world.jobs[j].phase == Built(data) && key !in world.cloud.tried
      requires Valid()
      modifies this
      ensures clock == old(clock) + 1 && j in world.jobs
      ensures faults == old(faults) + (if r.Err? then 1 else 0)
      ensures match r
        case Ok(Written(_)) =>
          && world.jobs[j] == old(world).jobs[j].(phase := Done(key)) && key in world.cloud.published
          && key in world.cloud.tried && world.cloud.tried[key].bytes == data
        case Ok(PreconditionFailed) => world.jobs[j] == old(world).jobs[j] && key in world.cloud.foreign && key !in world.cloud.published
        case Err(_) => world.jobs[j] == old(world).jobs[j].(phase := Aborted)
      ensures Valid() && Later(old(world), world)
    {
      hide Inv, Extends, Enabled, After;
      ghost var start := world;
      UploadShape(world, j, key);
      Do(OfJob(j, Upload(key)));
      ghost var sent := world;
      var turn := Interfere(Compactor(j));
      LaterTransitive(start, sent, world);
      if turn.reply.Honest? && NetEnabled(world.cloud, LandUpload(key)) {
        ghost var before := world;
        LandUploadShape(world, key);
        Do(OfNet(LandUpload(key)));
        LaterTransitive(start, before, world);
        LaterTransitive(sent, before, world);
      }
      ghost var settled := world;
      UploadAnswerShape(world, j);
      TriedStays(sent.cloud, settled.cloud, key);
      if turn.reply.Honest? && key in world.cloud.published {
        Do(OfJob(j, UploadDone));
        LaterTransitive(start, settled, world);
        return Ok(Written(turn.etag));
      }
      if turn.reply.Honest? && key in world.cloud.foreign {
        ForeignUntouched(world);
        Do(OfJob(j, Collided));
        LaterTransitive(start, settled, world);
        return Ok(PreconditionFailed);
      }
      Do(OfJob(j, GiveUpJob));
      LaterTransitive(start, settled, world);
      faults := faults + 1;
      return Err(StoreError(true));
    }
  }

  /** The request `h` sent from world `a`, as any later world `b` remembers it. */
  ghost predicate Sent<S>(a: World<S>, b: World<S>, h: nat, batch: seq<Bytes>)
    requires h in a.handles
  {
    var id := |a.cloud.requests|;
    && id < |b.cloud.requests| && b.cloud.requests[id].batch == batch
    && b.cloud.requests[id].expected == a.handles[h].etag && b.cloud.requests[id].base == a.handles[h].ver
  }

  lemma SendDeleteShape<S>(w: World<S>, h: nat)
    requires h in w.handles && w.handles[h].phase.Calm? && w.handles[h].garbage != []
    ensures var s := OfHandle(h, SendDelete);
      Enabled(w, s) && h in After(w, s).handles && After(w, s).handles[h] == w.handles[h].(phase := Deleting)
  {
  }

  lemma LandDeleteShape<S>(w: World<S>, key: Text)
    requires key in w.cloud.deletes
    ensures Enabled(w, OfNet(LandDelete(key))) && After(w, OfNet(LandDelete(key))).handles == w.handles
  {
  }

  lemma DeleteAnswerShape<S>(w: World<S>, h: nat)
    requires h in w.handles && w.handles[h].phase.Deleting? && w.handles[h].garbage != []
    ensures var s := OfHandle(h, DeleteFailed);
      Enabled(w, s) && h in After(w, s).handles && After(w, s).handles[h] == w.handles[h].(phase := Calm)
    ensures w.handles[h].garbage[0] in w.cloud.deleted ==>
              var s := OfHandle(h, DeleteDone);
              && Enabled(w, s) && h in After(w, s).handles
              && After(w, s).handles[h] == w.handles[h].(garbage := w.handles[h].garbage[1..], phase := Calm)
  {
  }

  lemma DeletedStays<S>(a: World<S>, b: World<S>, key: Text)
    requires Later(a, b) && key in a.cloud.deleted
    ensures key in b.cloud.deleted
  {
  }

  lemma UploadShape<S>(w: World<S>, j: nat, key: Text)
    requires j in w.jobs && w.jobs[j].phase.Built? && key !in w.cloud.tried
    ensures var s := OfJob(j, Upload(key)); var bytes := w.jobs[j].phase.bytes;
      && Enabled(w, s) && j in After(w, s).jobs && After(w, s).jobs[j] == w.jobs[j].(phase := Uploading(key, bytes))
      && key in After(w, s).cloud.tried && After(w, s).cloud.tried[key].bytes == bytes
  {
  }

  lemma LandUploadShape<S>(w: World<S>, key: Text)
    requires NetEnabled(w.cloud, LandUpload(key))
    ensures Enabled(w, OfNet(LandUpload(key))) && After(w, OfNet(LandUpload(key))).jobs == w.jobs
  {
  }

  lemma UploadAnswerShape<S>(w: World<S>, j: nat)
    requires j in w.jobs && w.jobs[j].phase.Uploading?
    ensures var s := OfJob(j, GiveUpJob);
      Enabled(w, s) && j in After(w, s).jobs && After(w, s).jobs[j] == w.jobs[j].(phase := Aborted)
    ensures w.jobs[j].phase.key in w.cloud.published ==>
              var s := OfJob(j, UploadDone);
              && Enabled(w, s) && j in After(w, s).jobs && After(w, s).jobs[j] == w.jobs[j].(phase := Done(w.jobs[j].phase.key))
              && After(w, s).cloud.published == w.cloud.published && After(w, s).cloud.tried == w.cloud.tried
    ensures w.jobs[j].phase.key in w.cloud.foreign ==>
              var s := OfJob(j, Collided);
              && Enabled(w, s) && j in After(w, s).jobs && After(w, s).jobs[j] == w.jobs[j].(phase := Built(w.jobs[j].phase.bytes))
              && After(w, s).cloud.foreign == w.cloud.foreign && After(w, s).cloud.published == w.cloud.published
  {
  }

  lemma SendPutShape<S>(w: World<S>, h: nat, batch: seq<Bytes>)
    requires h in w.handles && HandleEnabled(w, w.handles[h], SendPut(batch))
    ensures Enabled(w, OfHandle(h, SendPut(batch)))
    ensures var after := After(w, OfHandle(h, SendPut(batch)));
      && h in after.handles && after.handles[h] == w.handles[h].(phase := Waiting(|w.cloud.requests|, batch))
      && Sent(w, after, h, batch)
    ensures w.handles[h].phase.Calm?
  {
    hide Fits;
  }

  lemma InstallIgnoresPhase<S>(app: WalApp<S>, h: Handle<S>, phase: Phase, batch: seq<Bytes>, v: Version, ver: nat)
    requires h.compaction.Ready? ==> Applies(h.compaction.fold, h.image)
    ensures Install(app, h.(phase := phase), batch, v, ver) == Install(app, h, batch, v, ver)
  {
    hide Replay, Candidate;
  }

  lemma AdoptIgnoresPhase<S>(h: Handle<S>, phase: Phase, v: Version, ver: nat, state: S)
    ensures Adopt(h.(phase := phase), v, ver, state) == Adopt(h, v, ver, state)
  {
  }

  lemma SentStays<S>(a: World<S>, b: World<S>, c: World<S>, h: nat, batch: seq<Bytes>)
    requires h in a.handles && Sent(a, b, h, batch) && Later(b, c)
    ensures Sent(a, c, h, batch)
  {
  }

  lemma WaitingShape<S>(w: World<S>, h: nat)
    requires Inv(w) && h in w.handles && w.handles[h].phase.Waiting?
    ensures var it := w.handles[h];
      && it.phase.put < |w.cloud.requests| && (it.compaction.Ready? ==> Applies(it.compaction.fold, it.image))
    ensures w.handles[h].phase.put in w.cloud.flight ==> !w.cloud.Landed(w.handles[h].phase.put)
  {
    hide Fits, Law, JobInv, CloudInv, Position, Maintenance, Candidate;
    assert HandleInv(w.app, w.cloud, w.jobs, w.handles[h]);
    if w.handles[h].phase.put in w.cloud.flight {
      FlightNotLanded(w.rules, w.cloud, w.handles[h].phase.put);
    }
  }

  /** A refused PUT means the stored version is a later one than its sender's. */
  lemma RejectedBehind<S>(w: World<S>, h: nat)
    requires h in w.handles && w.handles[h].phase.Waiting? && w.handles[h].phase.put < |w.cloud.requests|
    requires !CasMatches(w.cloud.Etag(), w.cloud.requests[w.handles[h].phase.put].expected)
    requires Inv(w)
    ensures w.handles[h].ver + 1 < |w.cloud.versions|
  {
    hide Fits, Law, JobInv, CloudInv, Maintenance, Candidate, StateAt, History;
    assert HandleInv(w.app, w.cloud, w.jobs, w.handles[h]);
  }

  lemma CreatingShape<S>(w: World<S>, h: nat)
    requires Inv(w) && h in w.handles && w.handles[h].phase.Creating?
    ensures w.handles[h].phase.put < |w.cloud.requests|
  {
    hide Fits, Law, JobInv, CloudInv, Position, Maintenance;
    assert HandleInv(w.app, w.cloud, w.jobs, w.handles[h]);
  }

  lemma LandShape<S>(w: World<S>, id: nat, etag: Text)
    requires id in w.cloud.flight && id < |w.cloud.requests| && CasMatches(w.cloud.Etag(), w.cloud.requests[id].expected)
    requires EtagAllowed(w.cloud, etag, w.cloud.requests[id].image)
    ensures Enabled(w, OfNet(LandPut(id, etag)))
    ensures After(w, OfNet(LandPut(id, etag))).handles == w.handles
  {
  }

  lemma TriedStays(c: Cloud, d: Cloud, key: Text)
    requires Extends(c, d) && key in c.tried
    ensures key in d.tried && d.tried[key] == c.tried[key]
  {
  }

  lemma FirstIsEmpty<S>(w: World<S>)
    requires Inv(w) && w.cloud.versions != []
    ensures w.cloud.versions[0].image == Empty
  {
    hide Fits, Law, JobInv, HandleInv, Uploads, RequestInv, Link;
  }

  lemma ForeignUntouched<S>(w: World<S>)
    requires Inv(w)
    ensures w.cloud.published !! w.cloud.foreign
  {
    hide Fits, Law, JobInv, HandleInv, RequestInv, Link, Chain, SnapInv;
  }

  lemma OthersCannotTouch<S>(me: Actor, w: World<S>, s: Step)
    requires Enabled(w, s) && !Mine(me, s)
    ensures Untouched(me, w, After(w, s))
  {
  }
}
