/** What the store side of the protocol keeps: the chain of WAL versions, the requests in flight and the snapshots. */
module CloudInvariant {
  import opened Primitives
  import opened Image
  import opened App
  import opened Protocol

  // ----- the invariant -----

  ghost predicate Covers(c: Cloud, key: Text, count: nat) {
    key in c.published && key in c.tried && c.tried[key].count == count
  }

  ghost predicate VersionInv(r: Rules, c: Cloud, image: WalImage) {
    && Fits(image, r.limits)
    && image.Next() <= |c.Log()|
    && image.entries == c.Log()[image.First()..image.Next()]
    && (image.snapshot.Some? ==> Covers(c, image.snapshot.value.key, image.First()))
  }

  /** Every accepted update raises the next LSN or the snapshot LSN, and lowers neither. */
  ghost predicate Progress(a: WalImage, b: WalImage) {
    && a.First() <= b.First() && a.Next() <= b.Next()
    && (a.First() < b.First() || a.Next() < b.Next())
    && (a.First() == b.First() ==> a.snapshot == b.snapshot)
  }

  ghost predicate Chain(c: Cloud) {
    && (forall i, j :: 0 <= i < j < |c.versions| ==> Progress(c.versions[i].image, c.versions[j].image))
    && (forall i, j :: 0 <= i < j < |c.versions| ==> c.versions[i].etag != c.versions[j].etag)
    && (c.versions == [] ==> c.Log() == [])
    && (c.versions != [] ==> c.versions[0].image == Empty && c.Last().image.Next() == |c.Log()|)
  }

  /** Each version was written by one request, which has left the flight. */
  ghost predicate Link(c: Cloud) {
    forall i :: 0 <= i < |c.versions| ==> Wrote(c, c.versions[i], i)
  }

  ghost predicate Wrote(c: Cloud, v: Version, i: nat) {
    && v.put < |c.requests| && v.put !in c.flight
    && var p := c.requests[v.put];
       v.image == p.image && v.batch == p.batch && i == if p.expected.Some? then p.base + 1 else 0
  }

  ghost predicate RequestInv(r: Rules, c: Cloud, p: Put) {
    && Fits(p.image, r.limits)
    && if p.expected.None? then p.image == Empty && p.batch == []
       else
         && p.base < |c.versions| && p.expected == Some(c.versions[p.base].etag)
         && (p.fold.None? ==> p.batch != [])
         && (p.fold.Some? ==> Applies(p.fold.value, c.versions[p.base].image) && Covers(c, p.fold.value.key, p.fold.value.lsn + 1))
         && p.image == Candidate(c.versions[p.base].image, p.fold, p.batch)
  }

  ghost predicate SnapInv(r: Rules, c: Cloud, s: Snap) {
    1 <= s.count <= |c.Log()| && |s.bytes| <= r.maxSnapshot && r.rep(s.bytes, c.Log()[..s.count])
  }

  ghost predicate Uploads(r: Rules, c: Cloud) {
    && (forall k :: k in c.tried ==> SnapInv(r, c, c.tried[k]))
    && c.published <= c.tried.Keys && c.uploading <= c.tried.Keys
    && c.uploading !! c.published && c.published !! c.foreign
  }

  /** A snapshot the WAL has moved past: nothing that can still take effect names it. */
  ghost predicate Obsolete(c: Cloud, key: Text) {
    && key in c.published && key in c.tried
    && c.versions != [] && c.Last().image.snapshot.Some?
    && c.tried[key].count <= c.Last().image.First() && c.Last().image.snapshot.value.key != key
  }

  ghost predicate CloudInv(r: Rules, c: Cloud) {
    && Chain(c)
    && (forall i :: 0 <= i < |c.versions| ==> VersionInv(r, c, c.versions[i].image))
    && Link(c)
    && (forall i :: 0 <= i < |c.requests| ==> RequestInv(r, c, c.requests[i]))
    && (forall id :: id in c.flight ==> id < |c.requests|)
    && Uploads(r, c)
    && (forall k :: k in c.deleted || k in c.deletes ==> Obsolete(c, k))
  }

  // ----- what only grows -----

  ghost predicate Extends(c: Cloud, d: Cloud) {
    && c.versions <= d.versions && c.requests <= d.requests
    && (forall k :: k in c.tried ==> k in d.tried && d.tried[k] == c.tried[k])
    && c.published <= d.published && c.deleted <= d.deleted && c.foreign == d.foreign
    && (forall id :: 0 <= id < |c.requests| && id !in c.flight ==> id !in d.flight)
    && (forall i :: |c.versions| <= i < |d.versions| ==> d.versions[i].put in c.flight || d.versions[i].put >= |c.requests|)
  }

  lemma ExtendsTransitive(a: Cloud, b: Cloud, c: Cloud)
    requires Extends(a, b) && Extends(b, c)
    ensures Extends(a, c)
  {
    forall i | |a.versions| <= i < |c.versions|
      ensures c.versions[i].put in a.flight || c.versions[i].put >= |a.requests|
    {
      if i < |b.versions| {
        assert c.versions[i] == b.versions[i];
      }
    }
  }

  lemma HistoryAppend(versions: seq<Version>, v: Version)
    ensures History(versions + [v]) == History(versions) + v.batch
  {
    assert (versions + [v])[..|versions|] == versions;
  }

  lemma {:induction false} HistoryMonotone(a: seq<Version>, b: seq<Version>)
    requires a <= b
    ensures History(a) <= History(b)
    decreases |b|
  {
    if |a| < |b| {
      HistoryMonotone(a, b[..|b| - 1]);
    } else {
      assert a == b;
    }
  }

  lemma VersionStable(r: Rules, c: Cloud, d: Cloud, image: WalImage)
    requires VersionInv(r, c, image) && Extends(c, d)
    ensures VersionInv(r, d, image)
  {
    HistoryMonotone(c.versions, d.versions);
    assert image.entries == d.Log()[image.First()..image.Next()];
  }

  lemma RequestStable(r: Rules, c: Cloud, d: Cloud, p: Put)
    requires RequestInv(r, c, p) && Extends(c, d)
    ensures RequestInv(r, d, p)
  {
    hide Fits;
    if p.expected.Some? {
      assert c.versions[p.base] == d.versions[p.base];
    }
  }

  lemma SnapStable(r: Rules, c: Cloud, d: Cloud, s: Snap)
    requires SnapInv(r, c, s) && Extends(c, d)
    ensures SnapInv(r, d, s)
  {
    HistoryMonotone(c.versions, d.versions);
    assert c.Log()[..s.count] == d.Log()[..s.count];
  }

  /** Once obsolete, always obsolete: the snapshot LSN never falls, and a key names one LSN. */
  lemma ObsoleteStable(r: Rules, c: Cloud, d: Cloud, key: Text)
    requires Obsolete(c, key) && Extends(c, d) && CloudInv(r, d)
    ensures Obsolete(d, key)
  {
    hide Fits, History, Uploads, RequestInv, Link;
    var was, now := |c.versions| - 1, |d.versions| - 1;
    assert d.versions[was] == c.versions[was];
    assert VersionInv(r, d, d.versions[was].image) && VersionInv(r, d, d.versions[now].image);
    if was < now {
      assert Progress(d.versions[was].image, d.versions[now].image);
    }
  }

  // ----- steps that add no version -----

  /** Everything but the version chain may change freely as long as it only grows. */
  lemma QuietKeeps(r: Rules, c: Cloud, d: Cloud)
    requires CloudInv(r, c) && Extends(c, d) && d.versions == c.versions
    requires forall i :: |c.requests| <= i < |d.requests| ==> RequestInv(r, d, d.requests[i])
    requires forall id :: id in d.flight ==> id < |d.requests| && !d.Landed(id)
    requires Uploads(r, d)
    requires forall k :: k in d.deleted || k in d.deletes ==> Obsolete(d, k)
    ensures CloudInv(r, d)
  {
    hide Fits, History, Candidate, SnapInv, VersionInv, RequestInv, Uploads, Obsolete;
    forall i | 0 <= i < |d.versions| ensures VersionInv(r, d, d.versions[i].image) && Wrote(d, d.versions[i], i) {
      VersionStable(r, c, d, c.versions[i].image);
      assert Wrote(c, c.versions[i], i);
      assert d.Landed(d.versions[i].put);
    }
    forall i | 0 <= i < |c.requests| ensures RequestInv(r, d, d.requests[i]) {
      RequestStable(r, c, d, c.requests[i]);
    }
    assert c.Log() == d.Log();
  }

  lemma FlightNotLanded(r: Rules, c: Cloud, id: nat)
    requires CloudInv(r, c) && id in c.flight
    ensures !c.Landed(id)
  {
    hide Fits, History;
    forall i | 0 <= i < |c.versions| ensures c.versions[i].put != id {
      assert Wrote(c, c.versions[i], i);
    }
  }

  lemma ObsoleteQuiet(c: Cloud, d: Cloud, key: Text)
    requires Obsolete(c, key) && Extends(c, d) && d.versions == c.versions
    ensures Obsolete(d, key)
  {
  }

  lemma SettleFacts(r: Rules, c: Cloud)
    requires CloudInv(r, c)
    ensures c.uploading !! c.published
    ensures forall k :: k in c.deleted || k in c.deletes ==> Obsolete(c, k)
  {
    hide Fits, History, VersionInv, RequestInv, SnapInv, Obsolete, Chain, Link;
  }

  lemma SendKeeps(r: Rules, c: Cloud, p: Put)
    requires CloudInv(r, c) && RequestInv(r, c, p)
    ensures CloudInv(r, Send(c, p)) && Extends(c, Send(c, p))
  {
    hide Fits, History, Candidate, SnapInv, VersionInv, RequestInv, Uploads, Obsolete, Chain;
    var d := Send(c, p);
    assert Extends(c, d);
    RequestStable(r, c, d, p);
    forall id | id in d.flight ensures id < |d.requests| && !d.Landed(id) {
      if id in c.flight {
        FlightNotLanded(r, c, id);
      } else {
        assert forall i :: 0 <= i < |c.versions| ==> Wrote(c, c.versions[i], i);
      }
    }
    SettleFacts(r, c);
    UploadsQuiet(r, c, d);
    forall k | k in d.deleted || k in d.deletes ensures Obsolete(d, k) {
      ObsoleteQuiet(c, d, k);
    }
    QuietKeeps(r, c, d);
  }

  lemma UploadsQuiet(r: Rules, c: Cloud, d: Cloud)
    requires Uploads(r, c) && Extends(c, d)
    requires d.tried == c.tried && d.uploading <= c.uploading && d.published <= c.published + (c.uploading - c.foreign)
    requires d.uploading !! d.published
    ensures Uploads(r, d)
  {
    hide SnapInv;
    forall k | k in d.tried ensures SnapInv(r, d, d.tried[k]) {
      SnapStable(r, c, d, c.tried[k]);
    }
  }

  /** Losing requests, publishing an upload and removing or requesting the removal of obsolete keys. */
  lemma SettleKeeps(r: Rules, c: Cloud, d: Cloud)
    requires CloudInv(r, c) && Extends(c, d) && d.versions == c.versions && d.requests == c.requests
    requires d.flight <= c.flight
    requires d.tried == c.tried && d.uploading <= c.uploading && d.published <= c.published + (c.uploading - c.foreign)
    requires d.uploading !! d.published
    requires forall k :: k in d.deleted || k in d.deletes ==> Obsolete(c, k)
    ensures CloudInv(r, d)
  {
    hide Fits, History, Candidate, SnapInv, VersionInv, RequestInv, Uploads, Obsolete, Chain, Link;
    forall id | id in d.flight ensures id < |d.requests| && !d.Landed(id) {
      FlightNotLanded(r, c, id);
    }
    SettleFacts(r, c);
    UploadsQuiet(r, c, d);
    forall k | k in d.deleted || k in d.deletes ensures Obsolete(d, k) {
      ObsoleteQuiet(c, d, k);
    }
    QuietKeeps(r, c, d);
  }

  lemma TryKeeps(r: Rules, c: Cloud, key: Text, s: Snap)
    requires CloudInv(r, c) && key !in c.tried && SnapInv(r, c, s)
    ensures var d := c.(tried := c.tried[key := s], uploading := c.uploading + {key});
      CloudInv(r, d) && Extends(c, d)
  {
    hide Fits, History, Candidate, SnapInv, VersionInv, RequestInv, Obsolete, Chain, Link;
    var d := c.(tried := c.tried[key := s], uploading := c.uploading + {key});
    assert Extends(c, d);
    forall id | id in d.flight ensures id < |d.requests| && !d.Landed(id) {
      FlightNotLanded(r, c, id);
    }
    forall k | k in d.tried ensures SnapInv(r, d, d.tried[k]) {
      SnapStable(r, c, d, d.tried[k]);
    }
    forall k | k in d.deleted || k in d.deletes ensures Obsolete(d, k) {
      ObsoleteQuiet(c, d, k);
    }
    QuietKeeps(r, c, d);
  }

  // ----- a PUT takes effect -----

  /** Only a request built on the current version can match, because no validator ever returns. */
  lemma LandsOnCurrent(r: Rules, c: Cloud, p: Put)
    requires CloudInv(r, c) && RequestInv(r, c, p) && CasMatches(c.Etag(), p.expected)
    ensures p.expected.Some? ==> c.versions != [] && p.base == |c.versions| - 1
    ensures p.expected.None? ==> c.versions == []
  {
    hide Fits, History, Candidate;
    assert forall i :: 0 <= i < |c.versions| - 1 ==> c.versions[i].etag != c.versions[|c.versions| - 1].etag;
  }

  lemma ProgressTransitive(a: WalImage, b: WalImage, c: WalImage)
    requires Progress(a, b) && Progress(b, c)
    ensures Progress(a, c)
  {
  }

  lemma SuffixAppend<T>(log: seq<T>, first: nat, skip: nat, batch: seq<T>)
    requires first + skip <= |log|
    ensures log[first..|log|][skip..] + batch == (log + batch)[first + skip..|log| + |batch|]
  {
  }

  lemma CandidateShape(image: WalImage, fold: Option<SnapshotRef>, batch: seq<Bytes>)
    requires fold.Some? ==> Applies(fold.value, image)
    ensures var next := Candidate(image, fold, batch);
      && next.Next() == image.Next() + |batch|
      && next.First() == image.First() + Skip(fold, image)
      && next.entries == image.entries[Skip(fold, image)..] + batch
      && next.snapshot == (if fold.Some? then fold else image.snapshot)
      && (fold.Some? ==> next.First() == fold.value.lsn + 1 > image.First())
      && (fold.None? ==> next.First() == image.First())
  {
  }

  /** What a PUT publishes over the version it was built on. */
  lemma CandidateSound(r: Rules, c: Cloud, d: Cloud, p: Put)
    requires CloudInv(r, c) && Extends(c, d) && RequestInv(r, c, p) && p.expected.Some? && p.base == |c.versions| - 1
    requires d.Log() == c.Log() + p.batch
    ensures VersionInv(r, d, p.image) && p.image.Next() == |d.Log()|
    ensures Progress(c.Last().image, p.image)
  {
    hide Fits, History, Candidate, Skip, Link, RequestInv, Uploads, Obsolete;
    var held := c.Last().image;
    RequestShape(r, c, p);
    assert VersionInv(r, c, held);
    SuffixAppend(c.Log(), held.First(), Skip(p.fold, held), p.batch);
  }

  lemma RequestShape(r: Rules, c: Cloud, p: Put)
    requires RequestInv(r, c, p) && p.expected.Some? && p.base == |c.versions| - 1
    ensures Fits(p.image, r.limits)
    ensures p.fold.Some? ==> Applies(p.fold.value, c.Last().image) && Covers(c, p.fold.value.key, p.fold.value.lsn + 1)
    ensures p.fold.None? ==> p.batch != []
    ensures var held := c.Last().image;
      && p.image.Next() == held.Next() + |p.batch|
      && p.image.First() == held.First() + Skip(p.fold, held)
      && p.image.entries == held.entries[Skip(p.fold, held)..] + p.batch
      && p.image.snapshot == (if p.fold.Some? then p.fold else held.snapshot)
      && (p.fold.Some? ==> p.image.First() == p.fold.value.lsn + 1 > held.First())
      && (p.fold.None? ==> p.image.First() == held.First())
  {
    hide Fits;
    CandidateShape(c.Last().image, p.fold, p.batch);
  }

  lemma CreationSound(r: Rules, d: Cloud, p: Put, c: Cloud)
    requires CloudInv(r, c) && RequestInv(r, c, p) && p.expected.None? && c.versions == []
    requires d.Log() == c.Log() + p.batch
    ensures VersionInv(r, d, p.image) && p.image == Empty && d.Log() == []
  {
    hide Fits, History, Link, Uploads, Obsolete;
  }

  /** A validator the store may give to an image later than all others is one it has not given before. */
  lemma FreshValidator(c: Cloud, etag: Text, image: WalImage)
    requires EtagAllowed(c, etag, image) && forall i :: 0 <= i < |c.versions| ==> Progress(c.versions[i].image, image)
    ensures forall i :: 0 <= i < |c.versions| ==> c.versions[i].etag != etag
  {
  }

  lemma LandKeepsChain(r: Rules, c: Cloud, id: nat, etag: Text)
    requires CloudInv(r, c) && NetEnabled(c, LandPut(id, etag))
    ensures var d := Net(c, LandPut(id, etag));
      && Extends(c, d) && Chain(d) && VersionInv(r, d, d.Last().image)
      && d.Log() == c.Log() + c.requests[id].batch
  {
    hide Fits, History, VersionInv, RequestInv, Link, Uploads, Obsolete, EtagAllowed, Progress;
    var d := Net(c, LandPut(id, etag));
    var p := c.requests[id];
    HistoryAppend(c.versions, d.Last());
    LandsOnCurrent(r, c, p);
    var n := |c.versions|;
    if p.expected.Some? {
      CandidateSound(r, c, d, p);
      forall i | 0 <= i < n ensures Progress(d.versions[i].image, d.versions[n].image) {
        if i < n - 1 {
          ProgressTransitive(c.versions[i].image, c.versions[n - 1].image, p.image);
        }
      }
      FreshValidator(c, etag, p.image);
    } else {
      CreationSound(r, d, p, c);
    }
  }

  lemma LandKeeps(r: Rules, c: Cloud, id: nat, etag: Text)
    requires CloudInv(r, c) && NetEnabled(c, LandPut(id, etag))
    ensures var d := Net(c, LandPut(id, etag));
      CloudInv(r, d) && Extends(c, d) && d.Log() == c.Log() + c.requests[id].batch
  {
    hide Fits, History, Candidate, Applies, SnapInv, NetEnabled, CasMatches, VersionInv, RequestInv, Uploads, Obsolete;
    LandKeepsChain(r, c, id, etag);
    var d := Net(c, LandPut(id, etag));
    var n := |c.versions|;
    LandedPut(r, c, id, etag);
    forall i | 0 <= i < |d.versions| ensures VersionInv(r, d, d.versions[i].image) && Wrote(d, d.versions[i], i) {
      if i < n {
        VersionStable(r, c, d, c.versions[i].image);
        assert Wrote(c, c.versions[i], i);
      }
    }
    forall i | 0 <= i < |d.requests| ensures RequestInv(r, d, d.requests[i]) {
      RequestStable(r, c, d, c.requests[i]);
    }
    SettleFacts(r, c);
    UploadsQuiet(r, c, d);
    forall k | k in d.deleted || k in d.deletes ensures Obsolete(d, k) {
      ObsoleteLanded(r, c, d, k);
    }
  }

  lemma LandedPut(r: Rules, c: Cloud, id: nat, etag: Text)
    requires CloudInv(r, c) && NetEnabled(c, LandPut(id, etag))
    ensures var d := Net(c, LandPut(id, etag)); Wrote(d, d.Last(), |c.versions|)
  {
    hide Fits, History, Candidate, Applies, SnapInv;
    LandsOnCurrent(r, c, c.requests[id]);
  }

  lemma ObsoleteLanded(r: Rules, c: Cloud, d: Cloud, key: Text)
    requires CloudInv(r, c) && Obsolete(c, key) && Extends(c, d) && |d.versions| == |c.versions| + 1
    requires Chain(d) && VersionInv(r, d, d.Last().image)
    ensures Obsolete(d, key)
  {
    hide Fits, History;
    assert d.versions[|c.versions| - 1] == c.Last();
    assert Progress(c.Last().image, d.Last().image);
    assert VersionInv(r, c, c.Last().image);
  }

  // ----- every store step -----

  lemma NetKeeps(r: Rules, c: Cloud, s: NetStep)
    requires CloudInv(r, c) && NetEnabled(c, s)
    ensures CloudInv(r, Net(c, s)) && Extends(c, Net(c, s))
  {
    hide Fits, History, Candidate, Applies, SnapInv, CasMatches, EtagAllowed, CloudInv, Obsolete;
    SettleFacts(r, c);
    match s
    case LandPut(id, etag) => LandKeeps(r, c, id, etag);
    case LosePut(id) => SettleKeeps(r, c, Net(c, s));
    case LandUpload(key) => SettleKeeps(r, c, Net(c, s));
    case LoseUpload(key) => SettleKeeps(r, c, Net(c, s));
    case LandDelete(key) => SettleKeeps(r, c, Net(c, s));
    case LoseDelete(key) => SettleKeeps(r, c, Net(c, s));
  }
}
