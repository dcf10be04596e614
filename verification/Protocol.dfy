/** Any number of writers, replicas and compactors over one conditional object store.

    Every action is one step: a request leaves, a request takes effect at the store, a reply reaches
    its caller. Requests whose caller gave up stay in flight and may still take effect much later. */
module Protocol {
  import opened Primitives
  import opened Image
  import opened App

  // ----- the store -----

  /** A snapshot upload: its bytes, and how many entries of the history it folds. */
  datatype Snap = Snap(bytes: Bytes, count: nat)

  /** A conditional PUT of the WAL object. `base`, `fold` and `batch` only explain where `image` comes from. */
  datatype Put = Put(expected: Option<Text>, base: nat, fold: Option<SnapshotRef>, batch: seq<Bytes>, image: WalImage)

  /** An accepted WAL object; `put` is the request that wrote it. */
  datatype Version = Version(etag: Text, image: WalImage, batch: seq<Bytes>, put: nat)

  datatype Cloud = Cloud(
    versions: seq<Version>,      // every accepted WAL object, oldest first; the last one is stored now
    requests: seq<Put>,          // every WAL PUT ever sent
    flight: set<nat>,            // the PUTs that may still take effect
    tried: map<Text, Snap>,      // every create-only snapshot PUT ever sent, by its key
    uploading: set<Text>,        // the uploads that may still take effect
    published: set<Text>,        // the uploads that took effect
    deleted: set<Text>,          // the snapshots removed since
    deletes: set<Text>,          // the DELETEs that may still take effect
    foreign: set<Text>)          // keys occupied by objects of others
  {
    function Etag(): Option<Text> {
      if versions == [] then None else Some(Last().etag)
    }

    function Last(): Version
      requires versions != []
    {
      versions[|versions| - 1]
    }

    /** The committed history: the batches of all accepted PUTs, in order. */
    function Log(): seq<Bytes> { History(versions) }

    predicate Landed(id: nat) { exists i :: 0 <= i < |versions| && versions[i].put == id }
  }

  function History(versions: seq<Version>): seq<Bytes> {
    if versions == [] then []
    else History(versions[..|versions| - 1]) + versions[|versions| - 1].batch
  }

  /** The compare-and-swap predicate: If-None-Match: * for `None`, If-Match otherwise (RFC 9110, section 13.1). */
  predicate CasMatches(current: Option<Text>, expected: Option<Text>) {
    match (current, expected)
    case (None, None) => true
    case (Some(c), Some(e)) => c == e
    case _ => false
  }

  /** A failed request; `unknown` is the backend's `MutationOutcome::Unknown`. */
  datatype StoreError = StoreError(unknown: bool)

  datatype CondGet = Changed(etag: Text, data: Bytes) | NotModified | Missing

  datatype CondPut = Written(etag: Text) | PreconditionFailed

  /** Equal validators imply identical objects; the store is otherwise free to choose, even to repeat. */
  predicate EtagAllowed(c: Cloud, etag: Text, image: WalImage) {
    forall i :: 0 <= i < |c.versions| && c.versions[i].etag == etag ==> c.versions[i].image == image
  }

  datatype NetStep =
    | LandPut(id: nat, etag: Text) | LosePut(id: nat)
    | LandUpload(key: Text) | LoseUpload(key: Text)
    | LandDelete(key: Text) | LoseDelete(key: Text)

  predicate NetEnabled(c: Cloud, s: NetStep) {
    match s
    case LandPut(id, etag) =>
      id in c.flight && id < |c.requests| && CasMatches(c.Etag(), c.requests[id].expected) && EtagAllowed(c, etag, c.requests[id].image)
    case LosePut(id) => id in c.flight
    case LandUpload(key) => key in c.uploading && key !in c.foreign && (key in c.published ==> key in c.deleted)
    case LoseUpload(key) => key in c.uploading
    case LandDelete(key) => key in c.deletes
    case LoseDelete(key) => key in c.deletes
  }

  function Net(c: Cloud, s: NetStep): Cloud
    requires NetEnabled(c, s)
  {
    match s
    case LandPut(id, etag) =>
      c.(versions := c.versions + [Version(etag, c.requests[id].image, c.requests[id].batch, id)], flight := c.flight - {id})
    case LosePut(id) => c.(flight := c.flight - {id})
    case LandUpload(key) => c.(published := c.published + {key}, uploading := c.uploading - {key})
    case LoseUpload(key) => c.(uploading := c.uploading - {key})
    case LandDelete(key) => c.(deleted := c.deleted + {key}, deletes := c.deletes - {key})
    case LoseDelete(key) => c.(deletes := c.deletes - {key})
  }

  function Send(c: Cloud, p: Put): Cloud {
    c.(requests := c.requests + [p], flight := c.flight + {|c.requests|})
  }

  // ----- handles -----

  datatype Compaction = Idle | Running(job: nat) | Ready(fold: SnapshotRef) | Installed | Superseded | Failed

  /** A snapshot that was missing when fetched, and the WAL version that named it. */
  datatype Missed = Missed(etag: Text, key: Text, ver: nat)

  datatype Phase =
    | Calm
    | Creating(put: nat, missed: Option<Missed>)
    | Waiting(put: nat, batch: seq<Bytes>)
    | Reading(missed: Option<Missed>)
    | Fetching(ver: nat, missed: Option<Missed>)
    | Deleting
    | Corrupted

  /** One open writer or replica. `ver` is the position of the held WAL version among all accepted ones. */
  datatype Handle<+S> = Handle(
    writer: bool,
    etag: Option<Text>,
    ver: nat,
    image: WalImage,
    state: S,
    compaction: Compaction,
    garbage: seq<Text>,
    overflowed: nat,
    cap: nat,
    phase: Phase)

  function Fresh<S>(app: WalApp<S>, writer: bool, cap: nat): Handle<S> {
    Handle(writer, None, 0, Empty, app.init, Idle, [], 0, cap, Reading(None))
  }

  /** `Fold::applies_to`: the fold covers a proper prefix of the live entries. */
  predicate Applies(fold: SnapshotRef, image: WalImage) {
    image.First() <= fold.lsn < image.Next()
  }

  function Skip(fold: Option<SnapshotRef>, image: WalImage): (n: nat)
    requires fold.Some? ==> Applies(fold.value, image)
    ensures n <= |image.entries|
  {
    if fold.None? then 0 else fold.value.lsn + 1 - image.First()
  }

  /** The image one CAS attempt publishes. */
  function Candidate(image: WalImage, fold: Option<SnapshotRef>, batch: seq<Bytes>): WalImage
    requires fold.Some? ==> Applies(fold.value, image)
  {
    View(image, fold, Skip(fold, image), batch)
  }

  function Pending(compaction: Compaction): Option<SnapshotRef> {
    if compaction.Ready? then Some(compaction.fold) else None
  }

  function QueueObsolete<S>(h: Handle<S>, key: Text): Handle<S> {
    if key in h.garbage then h
    else if |h.garbage| == h.cap then h.(overflowed := Min(h.overflowed + 1, U64_MAX))
    else h.(garbage := h.garbage + [key])
  }

  function QueueAll<S>(h: Handle<S>, superseded: Option<SnapshotRef>): Handle<S> {
    if superseded.Some? then QueueObsolete(h, superseded.value.key) else h
  }

  function Discard<S>(h: Handle<S>): Handle<S> {
    if !h.compaction.Ready? || Applies(h.compaction.fold, h.image) then h
    else if h.image.snapshot.Some? && h.image.snapshot.value.key == h.compaction.fold.key then h.(compaction := Installed)
    else QueueObsolete(h.(compaction := Superseded), h.compaction.fold.key)
  }

  /** The snapshot reference an image replacement abandons. */
  function Abandoned(held: WalImage, remote: WalImage): Option<SnapshotRef> {
    if held.snapshot.Some? && (remote.snapshot.Some? ==> remote.snapshot.value.key != held.snapshot.value.key)
    then held.snapshot else None
  }

  /** A handle that has adopted version `v`, at position `ver`, with its rebuilt `state`. */
  function Adopt<S>(h: Handle<S>, v: Version, ver: nat, state: S): Handle<S> {
    var core := h.(etag := Some(v.etag), ver := ver, image := v.image, state := state, phase := Calm);
    if h.writer then QueueAll(Discard(core), Abandoned(h.image, v.image)) else core
  }

  /** `install_pending_fold`: the folded entries leave the image, the fold's snapshot replaces the old one. */
  function FoldIn<S>(h: Handle<S>): Handle<S>
    requires h.compaction.Ready? ==> Applies(h.compaction.fold, h.image)
  {
    if h.compaction.Ready? then
      var done := h.(image := Candidate(h.image, Pending(h.compaction), []), compaction := Installed);
      if h.image.snapshot.Some? && h.image.snapshot.value.key != h.compaction.fold.key
      then QueueObsolete(done, h.image.snapshot.value.key) else done
    else h
  }

  /** A writer whose PUT was accepted as version `v`: the image is updated in place, not re-read. */
  function Install<S>(app: WalApp<S>, h: Handle<S>, batch: seq<Bytes>, v: Version, ver: nat): Handle<S>
    requires h.compaction.Ready? ==> Applies(h.compaction.fold, h.image)
  {
    var image := FoldIn(h).image;
    FoldIn(h).(etag := Some(v.etag), ver := ver, image := image.(entries := image.entries + batch),
               state := Replay(app, h.state, h.image.Next(), batch), phase := Calm)
  }

  /** `append` updates the state entry by entry from the entries it had not applied. */
  function Catchup<S>(app: WalApp<S>, h: Handle<S>, image: WalImage): S {
    Replay(app, h.state, h.image.Next(), image.EntriesFrom(h.image.Next()))
  }

  datatype HandleStep =
    | SendCreate | Created | CreateRejected
    | SendPut(batch: seq<Bytes>) | Accepted | Rejected | NotApplied | Unknown
    | StartRead | ReadWal | ReadSnapshot(cached: bool) | GiveUp
    | Finish | SpawnFailed | Acknowledge
    | SendDelete | DeleteDone | DeleteFailed

  // ----- compactors -----

  datatype JobPhase =
    | Started
    | Built(bytes: Bytes)
    | Uploading(key: Text, bytes: Bytes)
    | Done(key: Text)
    | Aborted

  /** A compactor thread: the base snapshot and the live entries it was started with. */
  datatype Job = Job(baseKey: Option<Text>, first: nat, entries: seq<Bytes>, phase: JobPhase) {
    function Count(): nat { first + |entries| }
  }

  datatype JobStep = Build(cached: bool) | Upload(key: Text) | Collided | UploadDone | GiveUpJob

  // ----- the world -----

  /** What all handles agree on: the snapshot law's relation and compatible limits. */
  datatype Rules = Rules(rep: Represents, limits: ImageLimits, maxSnapshot: nat)

  datatype World<!S> = World(
    app: WalApp<S>, rules: Rules, cloud: Cloud, handles: map<nat, Handle<S>>, jobs: map<nat, Job>)

  datatype Step =
    | OfNet(net: NetStep)
    | OfHandle(h: nat, act: HandleStep)
    | OfJob(j: nat, work: JobStep)
    | Open(h: nat, writer: bool, cap: nat)
    | Drop(h: nat)
    | Spawn(h: nat, j: nat)

  predicate SnapshotReadable(c: Cloud, key: Text, cached: bool) {
    key in c.published && (cached || key !in c.deleted)
  }

  predicate HandleEnabled<S>(w: World<S>, h: Handle<S>, s: HandleStep) {
    var c := w.cloud;
    match s
    case SendCreate => h.writer && h.etag.None? && h.phase.Reading?
    case Created => h.phase.Creating? && c.versions != [] && c.versions[0].put == h.phase.put
    case CreateRejected =>
      && h.phase.Creating? && h.phase.put in c.flight && h.phase.put < |c.requests|
      && !CasMatches(c.Etag(), c.requests[h.phase.put].expected)
    case SendPut(batch) =>
      && h.writer && h.etag.Some? && h.phase.Calm?
      && (batch != [] || h.compaction.Ready?)
      && (h.compaction.Ready? ==> Applies(h.compaction.fold, h.image))
      && Fits(Candidate(h.image, Pending(h.compaction), batch), w.rules.limits)
    case Accepted =>
      && h.phase.Waiting? && h.ver + 1 < |c.versions| && c.versions[h.ver + 1].put == h.phase.put
      && (h.compaction.Ready? ==> Applies(h.compaction.fold, h.image))
    case Rejected =>
      && h.phase.Waiting? && h.phase.put in c.flight && h.phase.put < |c.requests|
      && !CasMatches(c.Etag(), c.requests[h.phase.put].expected)
    case NotApplied => h.phase.Waiting? && !c.Landed(h.phase.put)
    case Unknown => h.phase.Waiting?
    case StartRead => h.phase.Calm?
    case ReadWal => h.phase.Reading?
    case ReadSnapshot(cached) =>
      && h.phase.Fetching? && h.phase.ver < |c.versions|
      && c.versions[h.phase.ver].image.snapshot.Some?
    case GiveUp => (h.phase.Reading? || h.phase.Fetching?) && (h.etag.Some? || !h.writer)
    case Finish => h.phase.Calm? && h.compaction.Running? && h.compaction.job in w.jobs
                   && (w.jobs[h.compaction.job].phase.Done? || w.jobs[h.compaction.job].phase.Aborted?)
    case SpawnFailed => h.writer && h.etag.Some? && h.phase.Calm? && !h.compaction.Running? && !h.compaction.Ready?
    case Acknowledge => h.phase.Calm? && h.compaction.Failed?
    case SendDelete => h.phase.Calm? && h.garbage != []
    case DeleteDone => h.phase.Deleting? && h.garbage != [] && h.garbage[0] in c.deleted
    case DeleteFailed => h.phase.Deleting?
  }

  function ReadOutcome<S>(w: World<S>, h: Handle<S>): Handle<S>
    requires h.phase.Reading?
  {
    var c := w.cloud;
    if c.versions == [] then h.(phase := if h.writer then h.phase else Calm)
    else if h.etag == Some(c.Last().etag) then h.(phase := Calm)
    else if c.Last().image.First() <= h.image.Next() then Adopt(h, c.Last(), |c.versions| - 1, Catchup(w.app, h, c.Last().image))
    else h.(phase := Fetching(|c.versions| - 1, h.phase.missed))
  }

  /** The state rebuilt from snapshot bytes and the entries above it. */
  function Rebuild<S>(app: WalApp<S>, bytes: Bytes, image: WalImage): Result<S, string> {
    var base :- app.restore(bytes);
    Ok(Replay(app, base, image.First(), image.entries))
  }

  function FetchOutcome<S>(w: World<S>, h: Handle<S>, cached: bool): Handle<S>
    requires HandleEnabled(w, h, ReadSnapshot(cached))
  {
    var c := w.cloud;
    var v := c.versions[h.phase.ver];
    var key := v.image.snapshot.value.key;
    if SnapshotReadable(c, key, cached) && key in c.tried then
      match Rebuild(w.app, c.tried[key].bytes, v.image)
      case Ok(state) => Adopt(h, v, h.phase.ver, state)
      case Err(_) => h.(phase := Corrupted)
    else if h.phase.missed.Some? && h.phase.missed.value.etag == v.etag && h.phase.missed.value.key == key then
      h.(phase := Corrupted)
    else
      h.(phase := Reading(Some(Missed(v.etag, key, h.phase.ver))))
  }

  function FinishOutcome<S>(h: Handle<S>, job: Job): Handle<S> {
    match job.phase
    case Done(key) =>
      if job.entries == [] then h else Discard(h.(compaction := Ready(SnapshotRef(key, job.Count() - 1))))
    case _ => h.(compaction := Failed)
  }

  function HandleCloud<S>(w: World<S>, h: Handle<S>, s: HandleStep): Cloud
    requires HandleEnabled(w, h, s)
  {
    var c := w.cloud;
    match s
    case SendCreate => Send(c, Put(None, 0, None, [], Empty))
    case SendPut(batch) =>
      Send(c, Put(h.etag, h.ver, Pending(h.compaction), batch, Candidate(h.image, Pending(h.compaction), batch)))
    case CreateRejected => c.(flight := c.flight - {h.phase.put})
    case Rejected => c.(flight := c.flight - {h.phase.put})
    case NotApplied => c.(flight := c.flight - {h.phase.put})
    case SendDelete => c.(deletes := c.deletes + {h.garbage[0]})
    case _ => c
  }

  function HandleAfter<S>(w: World<S>, h: Handle<S>, s: HandleStep): Handle<S>
    requires HandleEnabled(w, h, s)
  {
    var c := w.cloud;
    match s
    case SendCreate => h.(phase := Creating(|c.requests|, h.phase.missed))
    case Created => Adopt(h, c.versions[0], 0, w.app.init)
    case CreateRejected => h.(phase := Reading(h.phase.missed))
    case SendPut(batch) => h.(phase := Waiting(|c.requests|, batch))
    case Accepted => Install(w.app, h, h.phase.batch, c.versions[h.ver + 1], h.ver + 1)
    case Rejected => h.(phase := Reading(None))
    case NotApplied => h.(phase := Calm)
    case Unknown => h.(phase := Calm)
    case StartRead => h.(phase := Reading(None))
    case ReadWal => ReadOutcome(w, h)
    case ReadSnapshot(cached) => FetchOutcome(w, h, cached)
    case GiveUp => h.(phase := Calm)
    case Finish => FinishOutcome(h, w.jobs[h.compaction.job])
    case SpawnFailed => h.(compaction := Failed)
    case Acknowledge => h.(compaction := Idle)
    case SendDelete => h.(phase := Deleting)
    case DeleteDone => h.(garbage := h.garbage[1..], phase := Calm)
    case DeleteFailed => h.(phase := Calm)
  }

  predicate JobEnabled<S>(w: World<S>, job: Job, s: JobStep) {
    match s
    case Build(cached) => job.phase.Started?
    case Upload(key) => job.phase.Built? && key !in w.cloud.tried
    case Collided => job.phase.Uploading? && job.phase.key in w.cloud.foreign
    case UploadDone => job.phase.Uploading? && job.phase.key in w.cloud.published
    case GiveUpJob => !job.phase.Done?
  }

  /** `run_compaction` up to the upload: read the base, compact, check the size. */
  function BuildOutcome<S>(w: World<S>, job: Job, cached: bool): JobPhase {
    var c := w.cloud;
    if job.baseKey.Some? && !(SnapshotReadable(c, job.baseKey.value, cached) && job.baseKey.value in c.tried) then Aborted
    else
      var base := if job.baseKey.None? then None else Some(c.tried[job.baseKey.value].bytes);
      match w.app.compact(base, Number(job.first, job.entries))
      case Ok(bytes) => if |bytes| <= w.rules.maxSnapshot then Built(bytes) else Aborted
      case Err(_) => Aborted
  }

  function JobAfter<S>(w: World<S>, job: Job, s: JobStep): Job
    requires JobEnabled(w, job, s)
  {
    match s
    case Build(cached) => job.(phase := BuildOutcome(w, job, cached))
    case Upload(key) => job.(phase := Uploading(key, job.phase.bytes))
    case Collided => job.(phase := Built(job.phase.bytes))
    case UploadDone => job.(phase := Done(job.phase.key))
    case GiveUpJob => job.(phase := Aborted)
  }

  function JobCloud<S>(w: World<S>, job: Job, s: JobStep): Cloud
    requires JobEnabled(w, job, s)
  {
    var c := w.cloud;
    match s
    case Upload(key) => c.(tried := c.tried[key := Snap(job.phase.bytes, job.Count())], uploading := c.uploading + {key})
    case Collided => c.(uploading := c.uploading - {job.phase.key})
    case _ => c
  }

  function NewJob(image: WalImage): Job {
    Job(if image.snapshot.Some? then Some(image.snapshot.value.key) else None, image.First(), image.entries, Started)
  }

  predicate Enabled<S>(w: World<S>, s: Step) {
    match s
    case OfNet(net) => NetEnabled(w.cloud, net)
    case OfHandle(h, act) => h in w.handles && HandleEnabled(w, w.handles[h], act)
    case OfJob(j, work) => j in w.jobs && JobEnabled(w, w.jobs[j], work)
    case Open(h, writer, cap) => h !in w.handles
    case Drop(h) => h in w.handles
    case Spawn(h, j) =>
      && h in w.handles && j !in w.jobs && w.handles[h].writer && w.handles[h].phase.Calm? && w.handles[h].image.entries != []
      && !w.handles[h].compaction.Running? && !w.handles[h].compaction.Ready?
  }

  function After<S>(w: World<S>, s: Step): World<S>
    requires Enabled(w, s)
  {
    match s
    case OfNet(net) => w.(cloud := Net(w.cloud, net))
    case OfHandle(h, act) =>
      w.(cloud := HandleCloud(w, w.handles[h], act), handles := w.handles[h := HandleAfter(w, w.handles[h], act)])
    case OfJob(j, work) =>
      w.(cloud := JobCloud(w, w.jobs[j], work), jobs := w.jobs[j := JobAfter(w, w.jobs[j], work)])
    case Open(h, writer, cap) => w.(handles := w.handles[h := Fresh(w.app, writer, cap)])
    case Drop(h) => w.(handles := w.handles - {h})
    case Spawn(h, j) =>
      w.(jobs := w.jobs[j := NewJob(w.handles[h].image)], handles := w.handles[h := w.handles[h].(compaction := Running(j))])
  }

  /** An empty store: nothing sent, nothing stored, nobody connected. */
  predicate Initial<S>(w: World<S>) {
    && w.cloud == Cloud([], [], {}, map[], {}, {}, {}, {}, w.cloud.foreign)
    && w.handles == map[] && w.jobs == map[]
    && Fits(Empty, w.rules.limits)
  }
}
