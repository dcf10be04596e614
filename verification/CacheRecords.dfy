/** The local cache: checked frames, records that identify themselves, and the directory that holds them. */
module CacheRecords {
  import opened Primitives
  import opened Printing
  import opened Checksum

  const MAGIC: Bytes := [0x57, 0x54, 0x43, 0x32]  // "WTC2"
  const HEADER: nat := 20
  const U16_MAX: nat := 0xFFFF

  // ----- frames -----

  function Frame(payload: Bytes): Bytes
    requires |payload| <= U64_MAX
  {
    MAGIC + LE(Sum64(payload) as nat, 8) + LE(|payload|, 8) + payload
  }

  /** The payload of a cache file, or `None` when framing, length, budget or checksum disagree. */
  function ReadChecked(data: Bytes, maxPayload: nat): Option<Bytes> {
    var limit := CheckedAdd(maxPayload, HEADER);
    if limit.None? || |data| > limit.value || |data| < HEADER || data[..4] != MAGIC then None
    else
      var payload := data[HEADER..];
      if |payload| != FromLE(data[12..20]) || |payload| > U64_MAX || Sum64(payload) as nat != FromLE(data[4..12]) then None
      else Some(payload)
  }

  lemma FrameShape(payload: Bytes)
    requires |payload| <= U64_MAX
    ensures var f := Frame(payload);
      && |f| == HEADER + |payload| && f[..4] == MAGIC && f[HEADER..] == payload
      && FromLE(f[4..12]) == Sum64(payload) as nat && FromLE(f[12..20]) == |payload|
  {
    hide Sum64, LE, FromLE, Pow256;
    Widths();
    FromLEOfLE(Sum64(payload) as nat, 8);
    FromLEOfLE(|payload|, 8);
    assert Frame(payload)[4..12] == LE(Sum64(payload) as nat, 8);
    assert Frame(payload)[12..20] == LE(|payload|, 8);
  }

  /** A file is read as a payload exactly when it is that payload's frame, within budget. */
  lemma FrameExact(data: Bytes, maxPayload: nat, payload: Bytes)
    ensures ReadChecked(data, maxPayload) == Some(payload)
       <==> |payload| <= maxPayload && maxPayload + HEADER <= U64_MAX && data == Frame(payload)
  {
    hide Sum64, LE, FromLE, Pow256, Frame;
    if |payload| <= maxPayload && maxPayload + HEADER <= U64_MAX && data == Frame(payload) {
      FrameShape(payload);
    }
    if ReadChecked(data, maxPayload) == Some(payload) {
      LEOfFromLE(data[4..12]);
      LEOfFromLE(data[12..20]);
      SplitHeader(data, payload);
    }
  }

  lemma SplitHeader(data: Bytes, payload: Bytes)
    requires |data| >= HEADER && |payload| <= U64_MAX && data[HEADER..] == payload && data[..4] == MAGIC
    requires data[4..12] == LE(Sum64(payload) as nat, 8) && data[12..20] == LE(|payload|, 8)
    ensures data == Frame(payload)
  {
    hide Sum64, LE;
    assert data == data[..4] + data[4..12] + data[12..20] + data[20..];
  }

  /** Every proper prefix and every proper extension of a frame is a miss, whatever the budget. */
  lemma TornIsMiss(payload: Bytes, data: Bytes, maxPayload: nat)
    requires |payload| <= U64_MAX && (data < Frame(payload) || Frame(payload) < data)
    ensures ReadChecked(data, maxPayload) == None
  {
    hide Sum64, LE, FromLE, Frame;
    FrameShape(payload);
    if |data| >= HEADER {
      assert data[12..20] == Frame(payload)[12..20];
    }
  }

  // ----- identities -----

  const COLON: Byte := 58

  /** `{len}:{s}`. */
  function Tagged(s: Bytes): Bytes { Decimal(|s|) + [COLON] + s }

  function Identity(ns: Text, walKey: Text): Bytes { Tagged(ns) + Tagged(walKey) }

  /** A tagged string ends where its own length says, whatever follows. */
  lemma TaggedSplits(a: Bytes, b: Bytes, r: Bytes, s: Bytes)
    requires Tagged(a) + r == Tagged(b) + s
    ensures a == b && r == s
  {
    hide Decimal;
    var x, y := Tagged(a) + r, Tagged(b) + s;
    var m, n := |Decimal(|a|)|, |Decimal(|b|)|;
    assert x[..m] == Decimal(|a|) && y[..n] == Decimal(|b|);
    assert x[m] == COLON && y[n] == COLON;
    assert (forall i :: 0 <= i < m ==> x[i] != COLON) && (forall i :: 0 <= i < n ==> y[i] != COLON);
    assert m == n;
    DecimalInjective(|a|, |b|);
    assert x[m + 1..m + 1 + |a|] == a && y[m + 1..m + 1 + |a|] == b;
    assert x[m + 1 + |a|..] == r && y[m + 1 + |a|..] == s;
  }

  /** No identity is a prefix of another one, however the two are continued. */
  lemma IdentityPrefixFree(ns: Text, walKey: Text, ns1: Text, walKey1: Text, r: Bytes, s: Bytes)
    requires Identity(ns, walKey) + r == Identity(ns1, walKey1) + s
    ensures ns == ns1 && walKey == walKey1 && r == s
  {
    hide Tagged, Utf8;
    Assoc(Tagged(ns), Tagged(walKey), r);
    Assoc(Tagged(ns1), Tagged(walKey1), s);
    TaggedSplits(ns, ns1, Tagged(walKey) + r, Tagged(walKey1) + s);
    TaggedSplits(walKey, walKey1, r, s);
  }

  // ----- records -----

  function Payload(identity: Bytes, key: Bytes, data: Bytes): Bytes {
    identity + LE(|key|, 8) + key + data
  }

  /** What a record file holds for one identity and key, under a byte budget. */
  function LoadRecord(file: Option<Bytes>, identity: Bytes, key: Bytes, maxData: nat): Option<Bytes> {
    if file.None? || |identity| + 8 + |key| + maxData > U64_MAX then None
    else
      var data := ReadChecked(file.value, |identity| + 8 + |key| + maxData);
      if data.None? || !(identity <= data.value) then None
      else
        var rest := data.value[|identity|..];
        if |rest| < 8 || FromLE(rest[..8]) != |key| || !(key <= rest[8..]) then None
        else Some(rest[8 + |key|..])
  }

  /** A file loads as `data` exactly when it is the frame of the record of this identity and key holding
      `data`, and `data` is within budget. */
  lemma RecordExact(file: Bytes, identity: Bytes, key: Bytes, maxData: nat, data: Bytes)
    ensures LoadRecord(Some(file), identity, key, maxData) == Some(data)
       <==> && |data| <= maxData && |identity| + 8 + |key| + maxData + HEADER <= U64_MAX
            && file == Frame(Payload(identity, key, data))
  {
    hide LE, FromLE, Pow256, Frame, ReadChecked;
    var budget := |identity| + 8 + |key| + maxData;
    var record := Payload(identity, key, data);
    FrameExact(file, budget, record);
    if LoadRecord(Some(file), identity, key, maxData) == Some(data) {
      var payload := ReadChecked(file, budget).value;
      var rest := payload[|identity|..];
      LEOfFromLE(rest[..8]);
      assert rest[8..] == key + data;
      assert payload == identity + (rest[..8] + (key + data)) == record;
    }
    if |data| <= maxData && budget + HEADER <= U64_MAX && file == Frame(record) {
      Widths();
      FromLEOfLE(|key|, 8);
      assert record[|identity|..] == LE(|key|, 8) + key + data;
      assert (LE(|key|, 8) + key + data)[..8] == LE(|key|, 8) && (LE(|key|, 8) + key + data)[8..] == key + data;
    }
  }

  lemma FrameInjective(p: Bytes, q: Bytes)
    requires |p| <= U64_MAX && |q| <= U64_MAX && Frame(p) == Frame(q)
    ensures p == q
  {
    hide Frame;
    FrameShape(p);
    FrameShape(q);
  }

  /** A record some log saved is loaded by no other log and under no other key, and always unchanged. */
  lemma RecordsIdentifyThemselves(ns: Text, walKey: Text, key: Bytes, ns1: Text, walKey1: Text, key1: Bytes, saved: Bytes, maxData: nat)
    requires |Payload(Identity(ns1, walKey1), key1, saved)| + HEADER <= U64_MAX
    requires |Identity(ns, walKey)| + 8 + |key| + maxData + HEADER <= U64_MAX
    ensures var r := LoadRecord(Some(Frame(Payload(Identity(ns1, walKey1), key1, saved))), Identity(ns, walKey), key, maxData);
      && (r.Some? <==> ns == ns1 && walKey == walKey1 && key == key1 && |saved| <= maxData)
      && (r.Some? ==> r.value == saved)
  {
    hide LE, Frame, Identity, Utf8, LoadRecord;
    var id, id1 := Identity(ns, walKey), Identity(ns1, walKey1);
    var file := Frame(Payload(id1, key1, saved));
    var r := LoadRecord(Some(file), id, key, maxData);
    RecordExact(file, id, key, maxData, saved);
    if r.Some? {
      RecordExact(file, id, key, maxData, r.value);
      FrameInjective(Payload(id, key, r.value), Payload(id1, key1, saved));
      var t, t1 := LE(|key|, 8) + key + r.value, LE(|key1|, 8) + key1 + saved;
      assert Payload(id, key, r.value) == id + t && Payload(id1, key1, saved) == id1 + t1;
      IdentityPrefixFree(ns, walKey, ns1, walKey1, t, t1);
      Widths();
      FromLEOfLE(|key|, 8);
      FromLEOfLE(|key1|, 8);
      assert t[..8] == LE(|key|, 8) && t1[..8] == LE(|key1|, 8);
      assert t[8..] == key + r.value && t1[8..] == key1 + saved;
      assert (key + r.value)[..|key|] == key && (key1 + saved)[..|key|] == key1;
      assert (key + r.value)[|key|..] == r.value && (key1 + saved)[|key|..] == saved;
    }
  }

  // ----- the directory -----

  /** File names are lookup hints: two keys may share one. */
  datatype Path = WalPath | SnapPath(hash: bv64)

  function SnapFile(key: Text): Path
    requires |key| <= U64_MAX
  {
    SnapPath(Sum64(key))
  }

  const WAL_KEY: Bytes := [0x77, 0x61, 0x6c]  // "wal"

  function FileAt(files: map<Path, Bytes>, path: Path): Option<Bytes> {
    if path in files then Some(files[path]) else None
  }

  /** The etag and image inside a WAL record's data: a 16-bit length, the etag, the image. */
  function SplitWal(data: Bytes, maxBytes: nat): Option<(Text, Bytes)> {
    if |data| < 2 then None
    else
      var n := FromLE(data[..2]);
      if |data| < 2 + n || !Utf8(data[2..2 + n]) || |data[2 + n..]| > maxBytes then None
      else Some((data[2..2 + n], data[2 + n..]))
  }

  function LoadWalRecord(file: Option<Bytes>, identity: Bytes, maxBytes: nat): Option<(Text, Bytes)> {
    if maxBytes + 2 + U16_MAX > U64_MAX then None
    else
      match LoadRecord(file, identity, WAL_KEY, maxBytes + 2 + U16_MAX)
      case None => None
      case Some(data) => SplitWal(data, maxBytes)
  }

  function WalData(etag: Text, image: Bytes): Bytes { LE(|etag|, 2) + etag + image }

  /** A saved WAL record splits back into its etag and image, unless the image is over budget. */
  lemma SplitWalData(etag: Text, image: Bytes, maxBytes: nat)
    requires |etag| <= U16_MAX
    ensures SplitWal(WalData(etag, image), maxBytes) == if |image| <= maxBytes then Some((etag, image)) else None
  {
    hide LE, FromLE, Pow256, Utf8;
    Widths();
    FromLEOfLE(|etag|, 2);
    var data := WalData(etag, image);
    assert data[..2] == LE(|etag|, 2) && data[2..2 + |etag|] == etag && data[2 + |etag|..] == image;
  }

  /** A saved WAL record loads for its own log, and for no other, exactly when the image is within budget. */
  lemma WalRecordsIdentifyThemselves(ns: Text, walKey: Text, ns1: Text, walKey1: Text, etag: Text, image: Bytes, maxBytes: nat)
    requires |etag| <= U16_MAX && |Payload(Identity(ns1, walKey1), WAL_KEY, WalData(etag, image))| + HEADER <= U64_MAX
    requires |Identity(ns, walKey)| + 8 + |WAL_KEY| + maxBytes + 2 + U16_MAX + HEADER <= U64_MAX
    ensures LoadWalRecord(Some(Frame(Payload(Identity(ns1, walKey1), WAL_KEY, WalData(etag, image)))), Identity(ns, walKey), maxBytes)
         == if ns == ns1 && walKey == walKey1 && |image| <= maxBytes then Some((etag, image)) else None
  {
    hide LE, Frame, Identity, Utf8, LoadRecord, Payload, SplitWal;
    RecordsIdentifyThemselves(ns, walKey, WAL_KEY, ns1, walKey1, WAL_KEY, WalData(etag, image), maxBytes + 2 + U16_MAX);
    SplitWalData(etag, image, maxBytes);
  }

  class Cache {
    const identity: Option<Bytes>
    var files: map<Path, Bytes>

    /** Without a namespace, or without its directory, nothing on disk is ever looked at or changed. */
    constructor (namespace: Option<Text>, walKey: Text, dirReady: bool, files: map<Path, Bytes>)
      ensures identity == if namespace.Some? && dirReady then Some(Identity(namespace.value, walKey)) else None
      ensures this.files == files
    {
      hide Decimal;
      identity := if namespace.Some? && dirReady
                  then Some(Decimal(|namespace.value|) + [COLON] + namespace.value + Decimal(|walKey|) + [COLON] + walKey)
                  else None;
      this.files := files;
      new;
      if namespace.Some? && dirReady {
        Assoc(Tagged(namespace.value), Decimal(|walKey|) + [COLON], walKey);
        Assoc(Tagged(namespace.value), Decimal(|walKey|), [COLON]);
      }
    }

    predicate Enabled() { identity.Some? }

    method Load(path: Path, key: Bytes, maxData: nat) returns (r: Option<Bytes>)
      ensures r == if identity.None? then None else LoadRecord(FileAt(files, path), identity.value, key, maxData)
    {
      hide LE, FromLE, Frame, ReadChecked;
      if identity.None? || |identity.value| + 8 + |key| + maxData > U64_MAX || path !in files {
        return None;
      }
      var data := ReadChecked(files[path], |identity.value| + 8 + |key| + maxData);
      if data.None? || !(identity.value <= data.value) {
        return None;
      }
      var rest := data.value[|identity.value|..];
      if |rest| < 8 || FromLE(rest[..8]) != |key| {
        return None;
      }
      if !(key <= rest[8..]) {
        return None;
      }
      return Some(rest[8 + |key|..]);
    }

    /** Writes one record: header, identity, key, fields, then the body from its own buffer. `publish` says
        whether the atomic write succeeds; sizes that overflow are not written at all. */
    method Save(path: Path, key: Bytes, fields: seq<Bytes>, body: Bytes, publish: bool)
      modifies this`files
      ensures identity.None? || !publish ==> files == old(files)
      ensures identity.Some? && publish ==>
                var record := Payload(identity.value, key, Concat(fields) + body);
                files == if |record| + HEADER - |body| > U64_MAX || |record| > U64_MAX then old(files) else old(files)[path := Frame(record)]
    {
      hide LE, FromLE, Sum64, Digest;
      if identity.None? {
        return;
      }
      var prefixLen := HEADER + |identity.value| + 8 + |key|;
      for i := 0 to |fields|
        invariant files == old(files)
        invariant prefixLen == HEADER + |identity.value| + 8 + |key| + |Concat(fields[..i])|
      {
        ConcatTake(fields, i);
        prefixLen := prefixLen + |fields[i]|;
      }
      assert fields[..|fields|] == fields;
      var payloadLen := prefixLen - HEADER + |body|;
      if prefixLen > U64_MAX || payloadLen > U64_MAX {
        return;
      }
      var prefix := identity.value + LE(|key|, 8) + key;
      for i := 0 to |fields|
        invariant files == old(files)
        invariant prefix == identity.value + LE(|key|, 8) + key + Concat(fields[..i])
      {
        ConcatTake(fields, i);
        Assoc(identity.value + LE(|key|, 8) + key, Concat(fields[..i]), fields[i]);
        prefix := prefix + fields[i];
      }
      ghost var record := Payload(identity.value, key, Concat(fields) + body);
      Assoc(identity.value + LE(|key|, 8) + key, Concat(fields), body);
      var sum := ChecksumParts(payloadLen, [prefix, body]);
      TwoParts(prefix, body);
      assert prefix + body == record;
      if publish {
        files := files[path := MAGIC + LE(sum as nat, 8) + LE(payloadLen, 8) + prefix + body];
        Assoc(MAGIC + LE(sum as nat, 8) + LE(payloadLen, 8), prefix, body);
      }
    }

    method LoadWal(maxBytes: nat) returns (r: Option<(Text, Bytes)>)
      ensures r == if identity.None? then None else LoadWalRecord(FileAt(files, WalPath), identity.value, maxBytes)
    {
      hide LoadRecord, FromLE, Utf8;
      if identity.None? || maxBytes + 2 + U16_MAX > U64_MAX {
        return None;
      }
      var data := Load(WalPath, WAL_KEY, maxBytes + 2 + U16_MAX);
      if data.None? {
        return None;
      }
      return SplitWal(data.value, maxBytes);
    }

    method SaveWal(etag: Text, image: Bytes, publish: bool)
      modifies this`files
      ensures identity.None? || !publish || |etag| > U16_MAX ==> files == old(files)
      ensures identity.Some? && publish && |etag| <= U16_MAX && |Payload(identity.value, WAL_KEY, WalData(etag, image))| + HEADER <= U64_MAX ==>
                files == old(files)[WalPath := Frame(Payload(identity.value, WAL_KEY, WalData(etag, image)))]
    {
      hide LE, Frame;
      if identity.None? || |etag| > U16_MAX {
        return;
      }
      TwoParts(LE(|etag|, 2), etag);
      Save(WalPath, WAL_KEY, [LE(|etag|, 2), etag], image, publish);
    }

    method LoadSnapshot(key: Text, maxBytes: nat) returns (r: Option<Bytes>)
      requires |key| <= U64_MAX
      ensures r == if identity.None? then None else LoadRecord(FileAt(files, SnapFile(key)), identity.value, key, maxBytes)
    {
      r := Load(SnapFile(key), key, maxBytes);
    }

    method SaveSnapshot(key: Text, data: Bytes, publish: bool)
      requires |key| <= U64_MAX
      modifies this`files
      ensures identity.None? || !publish ==> files == old(files)
      ensures identity.Some? && publish && |Payload(identity.value, key, data)| + HEADER <= U64_MAX ==>
                files == old(files)[SnapFile(key) := Frame(Payload(identity.value, key, data))]
    {
      hide LE, Frame;
      assert Concat([]) + data == data;
      Save(SnapFile(key), key, [], data, publish);
    }

    method RemoveSnapshot(key: Text)
      requires |key| <= U64_MAX
      modifies this`files
      ensures files == if identity.None? then old(files) else old(files) - {SnapFile(key)}
    {
      if identity.Some? {
        files := files - {SnapFile(key)};
      }
    }

    /** Drops every snapshot file but the one `keep` hashes to; the WAL record stays. */
    method RetainSnapshot(keep: Option<Text>)
      requires keep.Some? ==> |keep.value| <= U64_MAX
      modifies this`files
      ensures identity.None? ==> files == old(files)
      ensures identity.Some? ==>
                files == map path | path in old(files) && (path.WalPath? || (keep.Some? && path == SnapFile(keep.value))) :: old(files)[path]
    {
      if identity.Some? {
        files := map path | path in files && (path.WalPath? || (keep.Some? && path == SnapFile(keep.value))) :: files[path];
      }
    }
  }

  lemma ConcatTake(parts: seq<Bytes>, i: nat)
    requires i < |parts|
    ensures Concat(parts[..i + 1]) == Concat(parts[..i]) + parts[i]
  {
    assert parts[..i + 1] == parts[..i] + [parts[i]];
    ConcatSnoc(parts[..i], parts[i]);
  }

  lemma TwoParts(a: Bytes, b: Bytes)
    ensures Concat([a, b]) == a + b
  {
    ConcatSnoc([a], b);
    ConcatSnoc([], a);
    assert [a] + [b] == [a, b] && [] + [a] == [a];
  }

  // ----- a shared directory over time -----

  /** One record handed to `save`, by whichever log uses the directory. */
  datatype Saved = Saved(ns: Text, walKey: Text, key: Bytes, data: Bytes) {
    predicate Writable() { |Payload(Identity(ns, walKey), key, data)| + HEADER <= U64_MAX }

    function File(): Bytes
      requires Writable()
    {
      Frame(Payload(Identity(ns, walKey), key, data))
    }
  }

  ghost predicate Unreadable(bytes: Bytes) {
    forall maxPayload :: ReadChecked(bytes, maxPayload).None?
  }

  /** The assumption on the disk: bytes that pass the frame check are some saved record. */
  ghost predicate Honest(bytes: Bytes, saved: set<Saved>) {
    Unreadable(bytes) || exists r :: r in saved && r.Writable() && bytes == r.File()
  }

  /** Saves, evictions and damage, by anyone sharing the directory. */
  datatype Event = Published(path: Path, record: Saved) | Removed(path: Path) | Damaged(path: Path, bytes: Bytes)

  ghost predicate Possible(saved: set<Saved>, e: Event) {
    match e
    case Published(_, record) => record.Writable()
    case Removed(_) => true
    case Damaged(_, bytes) => Honest(bytes, saved)
  }

  function Records(e: Event): set<Saved> {
    if e.Published? then {e.record} else {}
  }

  ghost predicate AllPossible(saved: set<Saved>, events: seq<Event>)
    decreases |events|
  {
    events == [] || (Possible(saved, events[0]) && AllPossible(saved + Records(events[0]), events[1..]))
  }

  function Happens(files: map<Path, Bytes>, e: Event): map<Path, Bytes>
    requires e.Published? ==> e.record.Writable()
  {
    match e
    case Published(path, record) => files[path := record.File()]
    case Removed(path) => files - {path}
    case Damaged(path, bytes) => files[path := bytes]
  }

  ghost function AfterAll(files: map<Path, Bytes>, saved: set<Saved>, events: seq<Event>): map<Path, Bytes>
    requires AllPossible(saved, events)
    decreases |events|
  {
    if events == [] then files
    else AfterAll(Happens(files, events[0]), saved + Records(events[0]), events[1..])
  }

  ghost function AllRecords(events: seq<Event>): set<Saved> {
    if events == [] then {} else Records(events[0]) + AllRecords(events[1..])
  }

  ghost predicate HonestDirectory(files: map<Path, Bytes>, saved: set<Saved>) {
    forall path :: path in files ==> Honest(files[path], saved)
  }

  /** A torn or overlong copy of a saved record is among the damage the disk may do. */
  lemma TornIsHonest(record: Saved, bytes: Bytes, saved: set<Saved>)
    requires record.Writable() && (bytes < record.File() || record.File() < bytes)
    ensures Honest(bytes, saved)
  {
    hide Frame, ReadChecked, Identity;
    forall maxPayload ensures ReadChecked(bytes, maxPayload).None? {
      TornIsMiss(Payload(Identity(record.ns, record.walKey), record.key, record.data), bytes, maxPayload);
    }
  }

  lemma {:induction false} DirectoryStaysHonest(files: map<Path, Bytes>, saved: set<Saved>, events: seq<Event>)
    requires HonestDirectory(files, saved) && AllPossible(saved, events)
    ensures HonestDirectory(AfterAll(files, saved, events), saved + AllRecords(events))
    decreases |events|
  {
    hide Frame, ReadChecked, Identity;
    if events == [] {
      assert saved + AllRecords(events) == saved;
    } else {
      var next := saved + Records(events[0]);
      assert HonestDirectory(Happens(files, events[0]), next);
      DirectoryStaysHonest(Happens(files, events[0]), next, events[1..]);
      assert next + AllRecords(events[1..]) == saved + AllRecords(events);
    }
  }

  /** After any mix of saves, evictions, truncations and foreign records, a load returns only what this very
      log saved under this very key: a hit can be trusted, and everything else is a miss. */
  lemma LoadsOnlyOwnRecords(events: seq<Event>, path: Path, ns: Text, walKey: Text, key: Bytes, maxData: nat)
    requires AllPossible({}, events)
    ensures var r := LoadRecord(FileAt(AfterAll(map[], {}, events), path), Identity(ns, walKey), key, maxData);
      r.Some? ==> Saved(ns, walKey, key, r.value) in AllRecords(events)
  {
    hide Frame, ReadChecked, Identity, LoadRecord, AfterAll, AllRecords, AllPossible, Utf8;
    DirectoryStaysHonest(map[], {}, events);
    var files := AfterAll(map[], {}, events);
    var r := LoadRecord(FileAt(files, path), Identity(ns, walKey), key, maxData);
    if r.Some? {
      LoadedIsReadable(files, path, Identity(ns, walKey), key, maxData);
      var record :| record in {} + AllRecords(events) && record.Writable() && files[path] == record.File();
      RecordExact(files[path], Identity(ns, walKey), key, maxData, r.value);
      RecordsIdentifyThemselves(ns, walKey, key, record.ns, record.walKey, record.key, record.data, maxData);
      assert record == Saved(ns, walKey, key, r.value);
    }
  }

  lemma LoadedIsReadable(files: map<Path, Bytes>, path: Path, identity: Bytes, key: Bytes, maxData: nat)
    requires LoadRecord(FileAt(files, path), identity, key, maxData).Some?
    ensures path in files && !Unreadable(files[path])
  {
    hide ReadChecked;
    assert ReadChecked(files[path], |identity| + 8 + |key| + maxData).Some?;
  }
}
