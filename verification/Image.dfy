/** The WTL1 image: the one compare-and-swapped object holding a snapshot reference and the live entries. */
module Image {
  import opened Primitives

  /** A 64-bit `usize`. */
  type Usize = x: nat | x <= U64_MAX

  const MAGIC: Bytes := [0x57, 0x54, 0x4C, 0x31]  // "WTL1"

  datatype ImageLimits = ImageLimits(bytes: Usize, entries: Usize)

  datatype Resource = LiveEntries | SnapshotKeyBytes | EntryBytes | ImageBytes

  datatype Corruption =
    | Truncated | BadMagic | BadUtf8 | BadSnapshotFlag | LsnOverflow | CountExceedsBody | TrailingBytes

  datatype ImageError =
    | LimitExceeded(resource: Resource, limit: nat, actual: nat)
    | LsnExhausted
    | Corrupt(why: Corruption)

  datatype SnapshotRef = SnapshotRef(key: Text, lsn: nat)

  datatype WalImage = WalImage(snapshot: Option<SnapshotRef>, entries: seq<Bytes>) {

    function First(): (lsn: nat) {
      match snapshot
      case None => 0
      case Some(s) => s.lsn + 1
    }

    /** The LSN the next appended entry receives. */
    function Next(): nat { First() + |entries| }

    /** `entries_from`: the live entries whose LSN is at least `lsn`. */
    function EntriesFrom(lsn: nat): (suffix: seq<Bytes>)
      ensures First() <= lsn <= Next() ==> suffix == entries[lsn - First()..]
      ensures lsn <= First() ==> suffix == entries
      ensures lsn >= Next() ==> suffix == []
    {
      var skip := if lsn < First() then 0 else lsn - First();
      entries[Min(skip, |entries|)..]
    }
  }

  const Empty := WalImage(None, [])

  /** The image a PUT publishes: `image` with a fold applied and a batch appended. */
  function View(image: WalImage, fold: Option<SnapshotRef>, skip: nat, extra: seq<Bytes>): WalImage
    requires skip <= |image.entries|
  {
    WalImage(if fold.Some? then fold else image.snapshot, image.entries[skip..] + extra)
  }

  // ----- byte layout -----

  function SnapshotPart(snapshot: Option<SnapshotRef>): Bytes {
    match snapshot
    case None => [0]
    case Some(s) => [1] + LE(s.lsn, 8) + LE(|s.key|, 4) + s.key
  }

  function EntryPart(entry: Bytes): Bytes { LE(|entry|, 4) + entry }

  function EntriesPart(entries: seq<Bytes>): Bytes {
    if entries == [] then [] else EntryPart(entries[0]) + EntriesPart(entries[1..])
  }

  function Layout(image: WalImage): Bytes {
    MAGIC + SnapshotPart(image.snapshot) + LE(|image.entries|, 4) + EntriesPart(image.entries)
  }

  /** The images one set of limits admits. The last conjunct bounds the encoded size. */
  predicate Fits(image: WalImage, limits: ImageLimits) {
    && |image.entries| <= Min(limits.entries, U32_MAX)
    && image.Next() <= U64_MAX
    && (image.snapshot.Some? ==> |image.snapshot.value.key| <= U32_MAX)
    && (forall i :: 0 <= i < |image.entries| ==> |image.entries[i]| <= U32_MAX)
    && |Layout(image)| <= limits.bytes
  }

  // ----- parsing, as a function of the bytes that remain -----

  function Take(b: Bytes, n: nat): Result<(Bytes, Bytes), ImageError> {
    if |b| < n then Err(Corrupt(Truncated)) else Ok((b[..n], b[n..]))
  }

  function TakeInt(b: Bytes, width: nat): Result<(nat, Bytes), ImageError> {
    var (digits, rest) :- Take(b, width);
    Ok((FromLE(digits), rest))
  }

  function ParseSnapshot(b: Bytes): Result<(Option<SnapshotRef>, Bytes), ImageError> {
    var (flag, b1) :- TakeInt(b, 1);
    if flag == 0 then Ok((None, b1))
    else if flag == 1 then
      var (lsn, b2) :- TakeInt(b1, 8);
      var (n, b3) :- TakeInt(b2, 4);
      var (key, b4) :- Take(b3, n);
      if Utf8(key) then Ok((Some(SnapshotRef(key, lsn)), b4)) else Err(Corrupt(BadUtf8))
    else Err(Corrupt(BadSnapshotFlag))
  }

  function ParseEntries(b: Bytes, count: nat): Result<(seq<Bytes>, Bytes), ImageError> {
    if count == 0 then Ok(([], b))
    else
      var (n, b1) :- TakeInt(b, 4);
      var (entry, b2) :- Take(b1, n);
      var (entries, rest) :- ParseEntries(b2, count - 1);
      Ok(([entry] + entries, rest))
  }

  /** `check_lsn`: the next LSN, unless an intermediate sum leaves 64 bits. */
  function CheckLsn(snapshot: Option<SnapshotRef>, count: nat): (next: Option<nat>)
    ensures next.Some? <==> WalImage(snapshot, []).First() + count <= U64_MAX
    ensures next.Some? ==> next.value == WalImage(snapshot, []).First() + count
  {
    var first := match snapshot case None => Some(0) case Some(s) => if s.lsn + 1 <= U64_MAX then Some(s.lsn + 1) else None;
    if first.None? then None
    else if first.value + count <= U64_MAX then Some(first.value + count) else None
  }

  /** One image at the front of `b`, and what follows it. */
  function ParseImage(b: Bytes, limits: ImageLimits): Result<(WalImage, Bytes), ImageError> {
    var (magic, b1) :- Take(b, 4);
    if magic != MAGIC then Err(Corrupt(BadMagic))
    else
      var (snapshot, b2) :- ParseSnapshot(b1);
      var (count, b3) :- TakeInt(b2, 4);
      if CheckLsn(snapshot, count).None? then Err(Corrupt(LsnOverflow))
      else if count > |b3| / 4 then Err(Corrupt(CountExceedsBody))
      else if count > limits.entries then Err(LimitExceeded(LiveEntries, limits.entries, count))
      else
        var (entries, rest) :- ParseEntries(b3, count);
        Ok((WalImage(snapshot, entries), rest))
  }

  function Parse(b: Bytes, limits: ImageLimits): Result<WalImage, ImageError> {
    if |b| > limits.bytes then Err(LimitExceeded(ImageBytes, limits.bytes, |b|))
    else
      var (image, rest) :- ParseImage(b, limits);
      if rest == [] then Ok(image) else Err(Corrupt(TrailingBytes))
  }

  // ----- what printing guarantees to the parser -----

  lemma TakeIntOfLE(n: nat, width: nat, rest: Bytes)
    requires n < Pow256(width)
    ensures TakeInt(LE(n, width) + rest, width) == Ok((n, rest))
  {
    hide LE, FromLE, Pow256;
    var b := LE(n, width) + rest;
    assert b[..width] == LE(n, width) && b[width..] == rest;
    FromLEOfLE(n, width);
  }

  lemma TakeOfPrefix(front: Bytes, rest: Bytes)
    ensures Take(front + rest, |front|) == Ok((front, rest))
  {
    assert (front + rest)[..|front|] == front && (front + rest)[|front|..] == rest;
  }

  lemma {:induction false} ParseEntriesOfLayout(entries: seq<Bytes>, rest: Bytes)
    requires forall i :: 0 <= i < |entries| ==> |entries[i]| <= U32_MAX
    ensures ParseEntries(EntriesPart(entries) + rest, |entries|) == Ok((entries, rest))
    ensures |EntriesPart(entries)| >= 4 * |entries|
  {
    hide LE, FromLE, Pow256, Take;
    if entries == [] {
      assert EntriesPart(entries) + rest == rest;
    } else {
      var tail := EntriesPart(entries[1..]) + rest;
      ParseEntriesOfLayout(entries[1..], rest);
      Widths();
      Assoc(EntryPart(entries[0]), EntriesPart(entries[1..]), rest);
      Assoc(LE(|entries[0]|, 4), entries[0], tail);
      TakeIntOfLE(|entries[0]|, 4, entries[0] + tail);
      TakeOfPrefix(entries[0], tail);
      assert entries == [entries[0]] + entries[1..];
    }
  }

  lemma ParseSnapshotOfLayout(snapshot: Option<SnapshotRef>, rest: Bytes)
    requires snapshot.Some? ==> |snapshot.value.key| <= U32_MAX && snapshot.value.lsn <= U64_MAX
    ensures ParseSnapshot(SnapshotPart(snapshot) + rest) == Ok((snapshot, rest))
  {
    hide LE, FromLE, Pow256;
    Widths();
    OneByte(0);
    OneByte(1);
    match snapshot
    case None =>
      TakeIntOfLE(0, 1, rest);
    case Some(s) =>
      var b3 := s.key + rest;
      var b2 := LE(|s.key|, 4) + b3;
      var b1 := LE(s.lsn, 8) + b2;
      assert SnapshotPart(snapshot) + rest == LE(1, 1) + b1;
      TakeIntOfLE(1, 1, b1);
      TakeIntOfLE(s.lsn, 8, b2);
      TakeIntOfLE(|s.key|, 4, b3);
      TakeOfPrefix(s.key, rest);
  }

  lemma ParseImageOfLayout(image: WalImage, limits: ImageLimits, rest: Bytes)
    requires Fits(image, limits)
    ensures ParseImage(Layout(image) + rest, limits) == Ok((image, rest))
  {
    hide LE, FromLE, Pow256, ParseEntries, ParseSnapshot, EntriesPart, SnapshotPart;
    var b3 := EntriesPart(image.entries) + rest;
    var b2 := LE(|image.entries|, 4) + b3;
    var b1 := SnapshotPart(image.snapshot) + b2;
    assert Layout(image) + rest == MAGIC + b1;
    TakeOfPrefix(MAGIC, b1);
    ParseSnapshotOfLayout(image.snapshot, b2);
    Widths();
    TakeIntOfLE(|image.entries|, 4, b3);
    ParseEntriesOfLayout(image.entries, rest);
    assert image.Next() == WalImage(image.snapshot, []).First() + |image.entries|;
  }

  // ----- what parsing guarantees about the bytes -----

  lemma TakeInverts(b: Bytes, n: nat)
    requires Take(b, n).Ok?
    ensures var (front, rest) := Take(b, n).value; b == front + rest && |front| == n
  {
    assert b == b[..n] + b[n..];
  }

  lemma TakeIntInverts(b: Bytes, width: nat)
    requires TakeInt(b, width).Ok?
    ensures var (n, rest) := TakeInt(b, width).value; b == LE(n, width) + rest && n < Pow256(width)
  {
    hide LE, FromLE, Pow256;
    LEOfFromLE(b[..width]);
    assert b == b[..width] + b[width..];
  }

  lemma {:induction false} ParseEntriesInverts(b: Bytes, count: nat)
    requires ParseEntries(b, count).Ok?
    ensures var (entries, rest) := ParseEntries(b, count).value;
      && |entries| == count && b == EntriesPart(entries) + rest
      && forall i :: 0 <= i < |entries| ==> |entries[i]| <= U32_MAX
    decreases count
  {
    hide LE, FromLE, Pow256, Take;
    if count > 0 {
      TakeIntInverts(b, 4);
      Widths();
      var (n, b1) := TakeInt(b, 4).value;
      TakeInverts(b1, n);
      var (entry, b2) := Take(b1, n).value;
      ParseEntriesInverts(b2, count - 1);
      var (entries, rest) := ParseEntries(b2, count - 1).value;
      var all := [entry] + entries;
      assert all[1..] == entries;
      Assoc(entry, EntriesPart(entries), rest);
      Assoc(LE(n, 4), entry, EntriesPart(entries) + rest);
      Assoc(EntryPart(entry), EntriesPart(entries), rest);
    }
  }

  lemma ParseSnapshotInverts(b: Bytes)
    requires ParseSnapshot(b).Ok?
    ensures var (snapshot, rest) := ParseSnapshot(b).value;
      && b == SnapshotPart(snapshot) + rest
      && (snapshot.Some? ==> |snapshot.value.key| <= U32_MAX)
  {
    hide LE, FromLE, Pow256;
    Widths();
    TakeIntInverts(b, 1);
    var (flag, b1) := TakeInt(b, 1).value;
    OneByte(0);
    OneByte(1);
    if flag == 1 {
      TakeIntInverts(b1, 8);
      var (lsn, b2) := TakeInt(b1, 8).value;
      TakeIntInverts(b2, 4);
      var (n, b3) := TakeInt(b2, 4).value;
      assert b3 == b3[..n] + b3[n..];
    }
  }

  lemma ParseImageInverts(b: Bytes, limits: ImageLimits)
    requires ParseImage(b, limits).Ok?
    ensures var (image, rest) := ParseImage(b, limits).value;
      && b == Layout(image) + rest
      && (|Layout(image)| <= limits.bytes ==> Fits(image, limits))
  {
    hide LE, FromLE, Pow256, ParseEntries, ParseSnapshot, EntriesPart, SnapshotPart;
    Widths();
    var (magic, b1) := Take(b, 4).value;
    ParseSnapshotInverts(b1);
    var (snapshot, b2) := ParseSnapshot(b1).value;
    TakeIntInverts(b2, 4);
    var (count, b3) := TakeInt(b2, 4).value;
    ParseEntriesInverts(b3, count);
    assert b == magic + b1;
    var image := ParseImage(b, limits).value.0;
    assert image.Next() == WalImage(snapshot, []).First() + count;
  }

  lemma {:induction false} EntriesPartSplit(entries: seq<Bytes>, i: nat)
    requires i <= |entries|
    ensures EntriesPart(entries) == EntriesPart(entries[..i]) + EntriesPart(entries[i..])
  {
    hide EntryPart;
    if i == 0 {
      assert entries[..0] == [] && entries[0..] == entries;
    } else {
      EntriesPartSplit(entries[1..], i - 1);
      assert entries[..i][1..] == entries[1..][..i - 1] && entries[1..][i - 1..] == entries[i..];
      Assoc(EntryPart(entries[0]), EntriesPart(entries[1..][..i - 1]), EntriesPart(entries[i..]));
    }
  }

  lemma EntriesPartStep(entries: seq<Bytes>, i: nat)
    requires i < |entries|
    ensures EntriesPart(entries[..i + 1]) == EntriesPart(entries[..i]) + EntryPart(entries[i])
    ensures |EntriesPart(entries[..i + 1])| <= |EntriesPart(entries)|
  {
    hide EntryPart;
    EntriesPartSplit(entries, i + 1);
    EntriesPartSplit(entries[..i + 1], i);
    assert entries[..i + 1][..i] == entries[..i] && entries[..i + 1][i..] == [entries[i]];
    assert [entries[i]][1..] == [];
    assert EntryPart(entries[i]) + [] == EntryPart(entries[i]);
  }

  // ----- the main results -----

  /** Decoding and printing are mutually inverse between accepted byte strings and fitting images. */
  lemma ParseExact(b: Bytes, limits: ImageLimits, image: WalImage)
    ensures Parse(b, limits) == Ok(image) <==> Fits(image, limits) && b == Layout(image)
  {
    hide LE, FromLE, Pow256;
    if Fits(image, limits) && b == Layout(image) {
      ParseImageOfLayout(image, limits, []);
      assert b + [] == b;
    }
    if Parse(b, limits) == Ok(image) {
      ParseImageInverts(b, limits);
      assert Layout(image) + [] == Layout(image);
    }
  }

  /** No accepted image is a proper prefix of another, so truncations and extensions are all rejected. */
  lemma PrefixFree(a: WalImage, b: WalImage, limits: ImageLimits)
    requires Fits(a, limits) && Fits(b, limits)
    requires Layout(a) <= Layout(b)
    ensures a == b
  {
    var rest := Layout(b)[|Layout(a)|..];
    assert Layout(b) == Layout(a) + rest && Layout(b) + [] == Layout(b);
    ParseImageOfLayout(a, limits, rest);
    ParseImageOfLayout(b, limits, []);
  }

  /** Every cut and every extension of an accepted image is refused by the decoder. */
  lemma MangledLengthsRejected(image: WalImage, limits: ImageLimits, b: Bytes)
    requires Fits(image, limits)
    requires b < Layout(image) || Layout(image) < b
    ensures Parse(b, limits).Err?
  {
    if Parse(b, limits).Ok? {
      var other := Parse(b, limits).value;
      ParseExact(b, limits, other);
      if b < Layout(image) { PrefixFree(other, image, limits); } else { PrefixFree(image, other, limits); }
    }
  }

  /** An accepted image keeps every LSN sum inside 64 bits, and no entry has the largest LSN. */
  lemma LsnArithmeticInRange(b: Bytes, limits: ImageLimits, image: WalImage)
    requires Parse(b, limits) == Ok(image)
    ensures image.First() <= image.Next() <= U64_MAX
    ensures image.entries != [] ==> image.Next() - 1 <= U64_MAX - 1
    ensures image.snapshot.Some? ==> image.snapshot.value.lsn <= U64_MAX - 1
  {
    ParseExact(b, limits, image);
  }

  // ----- the encoder -----

  /** Accumulates the encoded size, refusing before anything is allocated. */
  method EncodedSize(view: WalImage) returns (r: Result<nat, ImageError>)
    ensures r.Ok? ==> r.value == |Layout(view)| <= U64_MAX
    ensures r.Ok? ==> view.snapshot.Some? ==> |view.snapshot.value.key| <= U32_MAX
    ensures r.Ok? ==> forall i :: 0 <= i < |view.entries| ==> |view.entries[i]| <= U32_MAX
    ensures r.Err? && r.error.LimitExceeded? ==>
              && r.error.limit == U32_MAX < r.error.actual
              && if r.error.resource == SnapshotKeyBytes
                 then view.snapshot.Some? && r.error.actual == |view.snapshot.value.key|
                 else r.error.resource == EntryBytes && exists i :: 0 <= i < |view.entries| && r.error.actual == |view.entries[i]|
    ensures r.Err? && !r.error.LimitExceeded? ==> r.error == LsnExhausted && |Layout(view)| > U64_MAX
  {
    var size := 9;
    match view.snapshot {
      case None =>
      case Some(s) =>
        if |s.key| > U32_MAX {
          return Err(LimitExceeded(SnapshotKeyBytes, U32_MAX, |s.key|));
        }
        size := size + 12 + |s.key|;
        if size > U64_MAX {
          return Err(LsnExhausted);
        }
    }
    assert size == |MAGIC + SnapshotPart(view.snapshot) + LE(|view.entries|, 4)|;
    ghost var head := size;
    for i := 0 to |view.entries|
      invariant size == head + |EntriesPart(view.entries[..i])| <= U64_MAX
      invariant forall j :: 0 <= j < i ==> |view.entries[j]| <= U32_MAX
    {
      EntriesPartStep(view.entries, i);
      var e := view.entries[i];
      if |e| > U32_MAX {
        return Err(LimitExceeded(EntryBytes, U32_MAX, |e|));
      }
      var next := CheckedAdd(size, 4 + |e|);
      if next.None? {
        return Err(LsnExhausted);
      }
      size := next.value;
    }
    assert view.entries[..|view.entries|] == view.entries;
    return Ok(size);
  }

  /** Validates the whole candidate, then writes it. Succeeds exactly on the views that fit. */
  method EncodeView(image: WalImage, fold: Option<SnapshotRef>, skip: nat, extra: seq<Bytes>, limits: ImageLimits)
    returns (r: Result<Bytes, ImageError>)
    ensures r.Ok? <==> skip <= |image.entries| && Fits(View(image, fold, skip, extra), limits)
    ensures r.Ok? ==> r.value == Layout(View(image, fold, skip, extra))
    ensures r.Err? ==> !r.error.Corrupt?
    ensures r.Err? && r.error.LimitExceeded? ==> r.error.limit < r.error.actual
  {
    if skip > |image.entries| {
      return Err(LsnExhausted);
    }
    var view := View(image, fold, skip, extra);
    var count := |view.entries|;
    if count > Min(limits.entries, U32_MAX) {
      return Err(LimitExceeded(LiveEntries, Min(limits.entries, U32_MAX), count));
    }
    if CheckLsn(view.snapshot, count).None? {
      return Err(LsnExhausted);
    }
    var size :- EncodedSize(view);
    if size > limits.bytes {
      return Err(LimitExceeded(ImageBytes, limits.bytes, size));
    }
    var out := MAGIC;
    match view.snapshot {
      case None => out := out + [0];
      case Some(s) => out := out + [1] + LE(s.lsn, 8) + LE(|s.key|, 4) + s.key;
    }
    assert out == MAGIC + SnapshotPart(view.snapshot);
    out := out + LE(count, 4);
    out := WriteEntries(out, view.entries);
    return Ok(out);
  }

  method WriteEntries(head: Bytes, entries: seq<Bytes>) returns (out: Bytes)
    ensures out == head + EntriesPart(entries)
  {
    hide LE;
    out := head;
    assert entries[..0] == [] && head + [] == head;
    for i := 0 to |entries|
      invariant out == head + EntriesPart(entries[..i])
    {
      EntriesPartStep(entries, i);
      Assoc(head, EntriesPart(entries[..i]), EntryPart(entries[i]));
      Assoc(out, LE(|entries[i]|, 4), entries[i]);
      out := out + LE(|entries[i]|, 4) + entries[i];
    }
    assert entries[..|entries|] == entries;
  }

  // ----- the decoder -----

  /** A cursor over the image bytes. */
  class Reader {
    const data: Bytes
    var pos: nat

    ghost predicate Valid() reads this { pos <= |data| }

    ghost function Rest(): Bytes reads this requires Valid() { data[pos..] }

    constructor (data: Bytes)
      ensures Valid() && Rest() == data
    {
      this.data := data;
      pos := 0;
    }

    method Remaining() returns (n: nat)
      requires Valid()
      ensures n == |Rest()|
    {
      n := |data| - pos;
    }

    method TakeBytes(n: nat) returns (r: Result<Bytes, ImageError>)
      requires Valid()
      modifies this
      ensures Valid()
      ensures match Take(old(Rest()), n)
              case Ok((front, rest)) => r == Ok(front) && Rest() == rest
              case Err(e) => r == Err(e) && Rest() == old(Rest())
    {
      if |data| - pos < n {
        return Err(Corrupt(Truncated));
      }
      assert data[pos..][..n] == data[pos..pos + n] && data[pos..][n..] == data[pos + n..];
      r := Ok(data[pos..pos + n]);
      pos := pos + n;
    }

    /** `u8`, `u32` and `u64` at `width` 1, 4 and 8. */
    method TakeNumber(width: nat) returns (r: Result<nat, ImageError>)
      requires Valid()
      modifies this
      ensures Valid()
      ensures match TakeInt(old(Rest()), width)
              case Ok((n, rest)) => r == Ok(n) && Rest() == rest
              case Err(e) => r == Err(e)
    {
      var digits :- TakeBytes(width);
      r := Ok(FromLE(digits));
    }

    method TakeSnapshot() returns (r: Result<Option<SnapshotRef>, ImageError>)
      requires Valid()
      modifies this
      ensures Valid()
      ensures match ParseSnapshot(old(Rest()))
              case Ok((s, rest)) => r == Ok(s) && Rest() == rest
              case Err(e) => r == Err(e)
    {
      hide FromLE, Utf8;
      var flag :- TakeNumber(1);
      if flag == 0 {
        return Ok(None);
      }
      if flag != 1 {
        return Err(Corrupt(BadSnapshotFlag));
      }
      var lsn :- TakeNumber(8);
      var n :- TakeNumber(4);
      var key :- TakeBytes(n);
      if !Utf8(key) {
        return Err(Corrupt(BadUtf8));
      }
      return Ok(Some(SnapshotRef(key, lsn)));
    }

    method TakeEntries(count: nat) returns (r: Result<seq<Bytes>, ImageError>)
      requires Valid()
      modifies this
      ensures Valid()
      ensures match ParseEntries(old(Rest()), count)
              case Ok((entries, rest)) => r == Ok(entries) && Rest() == rest
              case Err(e) => r == Err(e)
    {
      hide FromLE;
      var entries: seq<Bytes> := [];
      PrependNothing(ParseEntries(Rest(), count));
      for i := 0 to count
        invariant Valid()
        invariant ParseEntries(old(Rest()), count) == Prepend(entries, ParseEntries(Rest(), count - i))
      {
        var len :- TakeNumber(4);
        var entry :- TakeBytes(len);
        PrependOne(entries, entry, ParseEntries(Rest(), count - i - 1));
        entries := entries + [entry];
      }
      assert entries + [] == entries;
      return Ok(entries);
    }
  }

  ghost function Prepend(front: seq<Bytes>, r: Result<(seq<Bytes>, Bytes), ImageError>): Result<(seq<Bytes>, Bytes), ImageError> {
    match r
    case Ok((entries, rest)) => Ok((front + entries, rest))
    case Err(e) => Err(e)
  }

  lemma PrependNothing(r: Result<(seq<Bytes>, Bytes), ImageError>)
    ensures Prepend([], r) == r
  {
    assert r.Ok? ==> [] + r.value.0 == r.value.0;
  }

  lemma PrependOne(front: seq<Bytes>, entry: Bytes, r: Result<(seq<Bytes>, Bytes), ImageError>)
    ensures Prepend(front, Prepend([entry], r)) == Prepend(front + [entry], r)
  {
    if r.Ok? {
      Assoc(front, [entry], r.value.0);
    }
  }

  /** Succeeds exactly on the layouts of fitting images, and returns that image. */
  method Decode(data: Bytes, limits: ImageLimits) returns (r: Result<WalImage, ImageError>)
    ensures r == Parse(data, limits)
    ensures r.Ok? ==> Fits(r.value, limits) && data == Layout(r.value)
    ensures r.Err? ==> forall image :: Fits(image, limits) ==> Layout(image) != data
  {
    hide FromLE, LE, Pow256, Layout, ParseSnapshot, ParseEntries;
    forall image ensures Parse(data, limits) == Ok(image) <==> Fits(image, limits) && data == Layout(image) {
      ParseExact(data, limits, image);
    }
    if |data| > limits.bytes {
      return Err(LimitExceeded(ImageBytes, limits.bytes, |data|));
    }
    var reader := new Reader(data);
    var magic :- reader.TakeBytes(4);
    if magic != MAGIC {
      return Err(Corrupt(BadMagic));
    }
    var snapshot :- reader.TakeSnapshot();
    var count :- reader.TakeNumber(4);
    if CheckLsn(snapshot, count).None? {
      return Err(Corrupt(LsnOverflow));
    }
    var remaining := reader.Remaining();
    if count > remaining / 4 {
      return Err(Corrupt(CountExceedsBody));
    }
    if count > limits.entries {
      return Err(LimitExceeded(LiveEntries, limits.entries, count));
    }
    var entries :- reader.TakeEntries(count);
    remaining := reader.Remaining();
    if remaining != 0 {
      return Err(Corrupt(TrailingBytes));
    }
    return Ok(WalImage(snapshot, entries));
  }
}
