/** The two local object stores, and the one key-to-object map both of them are. */
module Store {
  import opened Primitives
  import opened Printing
  import opened Protocol

  datatype Stored = Stored(data: Bytes, etag: Text)

  type Objects = map<Text, Stored>

  function EtagOf(objects: Objects, key: Text): Option<Text> {
    if key in objects then Some(objects[key].etag) else None
  }

  /** What a conditional PUT of `offer` does to the map, and what it answers. */
  function PutIf(objects: Objects, key: Text, expected: Option<Text>, offer: Stored): (Objects, CondPut) {
    if CasMatches(EtagOf(objects, key), expected) then (objects[key := offer], Written(offer.etag))
    else (objects, PreconditionFailed)
  }

  /** The default conditional read: `get`, then compare validators. */
  method GetIfChanged(current: Option<Stored>, etag: Option<Text>) returns (r: CondGet)
    ensures r.Missing? <==> current.None?
    ensures r.NotModified? <==> current.Some? && etag == Some(current.value.etag)
    ensures r.Changed? ==> r == Changed(current.value.etag, current.value.data) && etag != Some(current.value.etag)
  {
    match (current, etag) {
      case (None, _) => r := Missing;
      case (Some(s), Some(e)) => r := if s.etag == e then NotModified else Changed(s.etag, s.data);
      case (Some(s), None) => r := Changed(s.etag, s.data);
    }
  }

  /** A conditional PUT creates exactly when nothing is there, and replaces exactly what a conditional read with
      the same validator would call not modified. It then stores the offered bytes under the validator it answers,
      and otherwise stores nothing; no other key's object is touched either way. */
  lemma ReadThenWrite(objects: Objects, key: Text, expected: Option<Text>, offer: Stored)
    ensures var (after, answer) := PutIf(objects, key, expected, offer);
      && (expected.None? ==> (answer.Written? <==> key !in objects))
      && (expected.Some? ==> (answer.Written? <==> key in objects && objects[key].etag == expected.value))
      && (answer.Written? ==> key in after && after[key].data == offer.data && after[key].etag == offer.etag == answer.etag)
      && (answer.PreconditionFailed? ==> after == objects)
      && (forall k :: k != key ==> (k in after <==> k in objects) && (k in objects ==> after[k] == objects[k]))
  {
  }

  // ----- MemoryStore -----

  const QUOTE: Byte := 34

  /** The `n`-th validator: the 64-bit counter in quotes. */
  function CounterEtag(n: nat): Text {
    var e := [QUOTE] + Decimal(n % (U64_MAX + 1)) + [QUOTE];
    AsciiIsUtf8(e);
    e
  }

  /** Counter validators repeat exactly when the counter has wrapped. */
  lemma CounterRepeats(m: nat, n: nat)
    ensures CounterEtag(m) == CounterEtag(n) <==> m % (U64_MAX + 1) == n % (U64_MAX + 1)
  {
    hide Decimal, Utf8;
    var a, b := Decimal(m % (U64_MAX + 1)), Decimal(n % (U64_MAX + 1));
    assert CounterEtag(m)[1..|a| + 1] == a && CounterEtag(n)[1..|b| + 1] == b;
    if CounterEtag(m) == CounterEtag(n) {
      assert |a| == |b| && a == b;
      DecimalInjective(m % (U64_MAX + 1), n % (U64_MAX + 1));
    }
  }

  class MemoryStore {
    var objects: Objects
    var nextEtag: nat
    ghost var issued: seq<Bytes>  // the bytes stored under each validator, in the order they were drawn

    ghost predicate Valid()
      reads this
    {
      nextEtag == |issued| && forall k :: k in objects ==> WasIssued(issued, objects[k])
    }

    constructor ()
      ensures Valid() && objects == map[] && issued == []
    {
      objects := map[];
      nextEtag := 0;
      issued := [];
    }

    method Get(key: Text) returns (r: Option<Stored>)
      requires Valid()
      ensures r == if key in objects then Some(objects[key]) else None
      ensures r.Some? ==> WasIssued(issued, r.value)
    {
      hide WasIssued;
      r := if key in objects then Some(objects[key]) else None;
    }

    method FreshEtag(ghost data: Bytes) returns (e: Text)
      requires Valid()
      modifies this`nextEtag, this`issued
      ensures Valid() && issued == old(issued) + [data] && e == CounterEtag(|old(issued)|)
    {
      hide CounterEtag;
      e := CounterEtag(nextEtag);
      nextEtag := nextEtag + 1;
      issued := issued + [data];
    }

    method PutIfMatch(key: Text, expected: Option<Text>, data: Bytes) returns (r: CondPut)
      requires Valid()
      modifies this
      ensures Valid() && old(issued) <= issued
      ensures (objects, r) == PutIf(old(objects), key, expected, Stored(data, CounterEtag(|old(issued)|)))
      ensures r.Written? ==> key in objects && objects[key] == Stored(data, r.etag)
      ensures forall k :: k != key ==> EtagOf(objects, k) == EtagOf(old(objects), k)
      ensures r.Written? ==> issued == old(issued) + [data]
    {
      hide CounterEtag;
      var current := if key in objects then Some(objects[key].etag) else None;
      if !CasMatches(current, expected) {
        return PreconditionFailed;
      }
      var e := FreshEtag(data);
      objects := objects[key := Stored(data, e)];
      return Written(e);
    }

    method Put(key: Text, data: Bytes) returns (e: Text)
      requires Valid()
      modifies this
      ensures Valid() && issued == old(issued) + [data] && e == CounterEtag(|old(issued)|)
      ensures objects == old(objects)[key := Stored(data, e)]
    {
      hide CounterEtag;
      e := FreshEtag(data);
      objects := objects[key := Stored(data, e)];
    }

    method Delete(key: Text)
      requires Valid()
      modifies this`objects
      ensures Valid() && objects == old(objects) - {key}
    {
      hide WasIssued;
      objects := objects - {key};
    }
  }

  /** An object some operation stored: the `n`-th validator with the bytes it was drawn for. */
  ghost predicate WasIssued(issued: seq<Bytes>, o: Stored) {
    exists n :: 0 <= n < |issued| && o == Stored(issued[n], CounterEtag(n))
  }

  /** Equal validators imply identical bytes, among objects read at any two moments, until the counter wraps. */
  lemma ValidatorsNameBytes(issued: seq<Bytes>, later: seq<Bytes>, a: Stored, b: Stored)
    requires WasIssued(issued, a) && issued <= later && WasIssued(later, b) && a.etag == b.etag
    requires |later| <= U64_MAX + 1
    ensures a.data == b.data
  {
    hide CounterEtag;
    var m :| 0 <= m < |issued| && a == Stored(issued[m], CounterEtag(m));
    var n :| 0 <= n < |later| && b == Stored(later[n], CounterEtag(n));
    CounterRepeats(m, n);
  }

  /** The bound is exact: one draw more, and two different objects may carry one validator. */
  lemma WrappedValidatorsClash(issued: seq<Bytes>, n: nat)
    requires n + U64_MAX + 1 < |issued| && issued[n] != issued[n + U64_MAX + 1]
    ensures exists a, b :: WasIssued(issued, a) && WasIssued(issued, b) && a.etag == b.etag && a.data != b.data
  {
    hide CounterEtag;
    var far := n + U64_MAX + 1;
    CounterRepeats(n, far);
    var a, b := Stored(issued[n], CounterEtag(n)), Stored(issued[far], CounterEtag(far));
    assert WasIssued(issued, a) && WasIssued(issued, b);
  }

  // ----- FsStore: paths -----

  const OBJECTS: Bytes := [111, 98, 106, 101, 99, 116, 115]  // "objects"
  const OBJECT: Bytes := [111, 98, 106, 101, 99, 116]        // "object"

  function HexChunks(key: Bytes): seq<Bytes> {
    if key == [] then [] else [Hex(key[..Min(64, |key|)])] + HexChunks(key[Min(64, |key|)..])
  }

  /** An object's path below the root, one component each. */
  function PathOf(key: Bytes): seq<Bytes> { [OBJECTS] + HexChunks(key) + [OBJECT] }

  method PathFor(key: Bytes) returns (path: seq<Bytes>)
    ensures path == PathOf(key)
  {
    path := [OBJECTS];
    var at := 0;
    assert key[0..] == key;
    while at < |key|
      invariant at <= |key| && PathOf(key) == path + HexChunks(key[at..]) + [OBJECT]
    {
      var end: nat := Min(at + 64, |key|);
      assert key[at..][..Min(64, |key| - at)] == key[at..end] && key[at..][Min(64, |key| - at)..] == key[end..];
      Assoc(path, [Hex(key[at..end])], HexChunks(key[end..]));
      path := path + [Hex(key[at..end])];
      at := end;
    }
    assert path + [] == path && key[at..] == [];
    path := path + [OBJECT];
  }

  lemma {:induction false} ChunkShape(key: Bytes, i: nat)
    requires i < |HexChunks(key)|
    ensures HexChunks(key)[i] != OBJECT && 0 < |HexChunks(key)[i]| <= 128
  {
    var chunk := key[..Min(64, |key|)];
    if i == 0 {
      assert HexChunks(key)[0] == Hex(chunk) && HexDigit(Hex(chunk)[0]) && !HexDigit(OBJECT[0]);
    } else {
      ChunkShape(key[Min(64, |key|)..], i - 1);
    }
  }

  lemma {:induction false} ChunksInjective(a: Bytes, b: Bytes)
    requires HexChunks(a) == HexChunks(b)
    ensures a == b
    decreases |a|
  {
    if a != [] && b != [] {
      var m, n := Min(64, |a|), Min(64, |b|);
      assert HexChunks(a)[0] == HexChunks(b)[0];
      HexInjective(a[..m], b[..n]);
      assert HexChunks(a)[1..] == HexChunks(a[m..]) && HexChunks(b)[1..] == HexChunks(b[n..]);
      ChunksInjective(a[m..], b[n..]);
      assert a == a[..m] + a[m..] && b == b[..n] + b[n..];
    }
  }

  /** Distinct keys have distinct paths, and no object lies below another one: a path that begins another
      object's path is that object's path. */
  lemma PathsNeverInterfere(a: Bytes, b: Bytes)
    requires PathOf(a) <= PathOf(b)
    ensures a == b
  {
    hide HexChunks;
    var m, n := |HexChunks(a)|, |HexChunks(b)|;
    assert PathOf(a)[m + 1] == OBJECT && PathOf(b)[m + 1] == OBJECT;
    assert forall i :: 0 <= i < n ==> PathOf(b)[i + 1] == HexChunks(b)[i];
    if m < n {
      ChunkShape(b, m);
      assert false;
    }
    assert HexChunks(a) == PathOf(a)[1..m + 1] && HexChunks(b) == PathOf(b)[1..n + 1];
    ChunksInjective(a, b);
  }

  /** No path component is longer than a file name may be. */
  lemma ComponentsAreShort(key: Bytes, i: nat)
    requires i < |PathOf(key)|
    ensures 0 < |PathOf(key)[i]| <= 128
  {
    if 0 < i <= |HexChunks(key)| {
      ChunkShape(key, i - 1);
      assert PathOf(key)[i] == HexChunks(key)[i - 1];
    }
  }

  // ----- FsStore: object files -----

  const OBJECT_MAGIC: Bytes := [0x57, 0x46, 0x53, 0x32]  // "WFS2"

  function ObjectFile(o: Stored): Bytes {
    OBJECT_MAGIC + o.etag + LE(|o.data|, 8) + o.data
  }

  datatype FsError = InvalidObject | InvalidValidator | NoId | WriteFailed

  function ReadObject(bytes: Bytes): Result<Stored, FsError> {
    if |bytes| < 44 || bytes[..4] != OBJECT_MAGIC || FromLE(bytes[36..44]) != |bytes| - 44 then Err(InvalidObject)
    else if !Utf8(bytes[4..36]) then Err(InvalidValidator)
    else Ok(Stored(bytes[44..], bytes[4..36]))
  }

  /** A file reads as an object exactly when it is that object's file. */
  lemma ObjectFileExact(bytes: Bytes, o: Stored)
    requires |o.data| <= U64_MAX
    ensures ReadObject(bytes) == Ok(o) <==> |o.etag| == 32 && bytes == ObjectFile(o)
  {
    hide LE, FromLE, Pow256, Utf8;
    Widths();
    FromLEOfLE(|o.data|, 8);
    var file := ObjectFile(o);
    if |o.etag| == 32 {
      assert file[..4] == OBJECT_MAGIC && file[4..36] == o.etag && file[36..44] == LE(|o.data|, 8) && file[44..] == o.data;
    }
    if ReadObject(bytes) == Ok(o) {
      LEOfFromLE(bytes[36..44]);
      assert bytes == bytes[..4] + bytes[4..36] + bytes[36..44] + bytes[44..];
    }
  }

  /** The directory-backed store. `contents` is the map it stands for. */
  class FsStore {
    var files: map<seq<Bytes>, Bytes>
    ghost var contents: Objects

    /** Each object is one file at its own path; any other file at an object's path is damaged. */
    ghost predicate Valid()
      reads this
    {
      && (forall k :: k in contents ==> PathOf(k) in files && ReadObject(files[PathOf(k)]) == Ok(contents[k]))
      && (forall k: Text :: PathOf(k) in files && k !in contents ==> ReadObject(files[PathOf(k)]).Err?)
    }

    ghost predicate Damaged(key: Text)
      reads this
    {
      PathOf(key) in files && ReadObject(files[PathOf(key)]).Err?
    }

    constructor ()
      ensures Valid() && contents == map[]
    {
      files := map[];
      contents := map[];
    }

    method Get(key: Text) returns (r: Result<Option<Stored>, FsError>)
      requires Valid()
      ensures r.Err? <==> Damaged(key)
      ensures r.Ok? ==> r.value == if key in contents then Some(contents[key]) else None
    {
      hide ReadObject, PathOf, Utf8;
      var path := PathFor(key);
      if path !in files {
        return Ok(None);
      }
      var stored :- ReadObject(files[path]);
      return Ok(Some(stored));
    }

    /** Writes one framed file atomically. `id` is the fresh validator, if the generator produced one. */
    method WriteObject(key: Text, data: Bytes, id: Option<Text>, publish: bool) returns (r: Result<Text, FsError>)
      requires Valid() && |data| <= U64_MAX && (id.Some? ==> |id.value| == 32)
      modifies this
      ensures Valid()
      ensures r.Ok? <==> id.Some? && publish
      ensures r.Ok? ==> r.value == id.value && contents == old(contents)[key := Stored(data, id.value)]
      ensures r.Err? ==> contents == old(contents) && files == old(files)
    {
      hide ReadObject, PathOf, Utf8, LE;
      if id.None? {
        return Err(NoId);
      }
      var path := PathFor(key);
      if !publish {
        return Err(WriteFailed);
      }
      var stored := Stored(data, id.value);
      ObjectFileExact(ObjectFile(stored), stored);
      OwnPath(key);
      files := files[path := OBJECT_MAGIC + id.value + LE(|data|, 8) + data];
      contents := contents[key := stored];
      return Ok(id.value);
    }

    method PutIfMatch(key: Text, expected: Option<Text>, data: Bytes, id: Option<Text>, publish: bool) returns (r: Result<CondPut, FsError>)
      requires Valid() && |data| <= U64_MAX && (id.Some? ==> |id.value| == 32)
      modifies this
      ensures Valid()
      ensures r.Ok? && id.Some? ==> (contents, r.value) == PutIf(old(contents), key, expected, Stored(data, id.value))
      ensures r.Ok? && r.value.Written? ==> key in contents && contents[key] == Stored(data, r.value.etag)
      ensures r.Ok? && id.None? ==> r.value.PreconditionFailed? && contents == old(contents)
      ensures r.Err? ==> contents == old(contents)
      ensures r.Err? ==> old(Damaged(key)) || (CasMatches(EtagOf(contents, key), expected) && (id.None? || !publish))
    {
      hide ReadObject, PathOf, Utf8;
      var current :- Get(key);
      if !CasMatches(if current.Some? then Some(current.value.etag) else None, expected) {
        return Ok(PreconditionFailed);
      }
      var e :- WriteObject(key, data, id, publish);
      return Ok(Written(e));
    }

    method Put(key: Text, data: Bytes, id: Option<Text>, publish: bool) returns (r: Result<Text, FsError>)
      requires Valid() && |data| <= U64_MAX && (id.Some? ==> |id.value| == 32)
      modifies this
      ensures Valid()
      ensures r.Ok? ==> id == Some(r.value) && contents == old(contents)[key := Stored(data, r.value)]
      ensures r.Err? ==> contents == old(contents)
    {
      r := WriteObject(key, data, id, publish);
    }

    method Delete(key: Text)
      requires Valid()
      modifies this
      ensures Valid() && contents == old(contents) - {key}
    {
      hide ReadObject, PathOf, Utf8;
      var path := PathFor(key);
      OwnPath(key);
      files := files - {path};
      contents := contents - {key};
    }
  }

  lemma OwnPath(key: Text)
    ensures forall k: Text :: PathOf(k) == PathOf(key) ==> k == key
  {
    hide PathOf, Utf8;
    forall k: Text | PathOf(k) == PathOf(key) ensures k == key {
      PathsNeverInterfere(k, key);
    }
  }
}
