/** The cache-file checksum: 64-bit words mixed one after another, leftover bytes mixed singly. */
module Checksum {
  import opened Primitives

  const PRIME: bv64 := 0x0000_0100_0000_01B3
  const OFFSET: bv64 := 0xcbf2_9ce4_8422_2325

  function Word(b: Bytes): bv64
    requires |b| == 8
  {
    Widths();
    FromLE(b) as bv64
  }

  function MixWord(h: bv64, b: Bytes): bv64
    requires |b| == 8
  {
    var x := (h ^ Word(b)) * PRIME;
    x ^ (x >> 29)
  }

  function MixByte(h: bv64, b: Byte): bv64 {
    (h ^ (b as bv64)) * PRIME
  }

  function Seed(total: nat): bv64
    requires total <= U64_MAX
  {
    OFFSET ^ (total as bv64)
  }

  function MixBytes(h: bv64, data: Bytes): bv64
    decreases |data|
  {
    if data == [] then h else MixBytes(MixByte(h, data[0]), data[1..])
  }

  /** What remains of the checksum when `data` is still to be mixed into `h`. */
  function Digest(h: bv64, data: Bytes): bv64
    decreases |data|
  {
    if |data| < 8 then MixBytes(h, data) else Digest(MixWord(h, data[..8]), data[8..])
  }

  /** The one-shot checksum of a payload. */
  function Sum64(data: Bytes): bv64
    requires |data| <= U64_MAX
  {
    Digest(Seed(|data|), data)
  }

  // ----- streaming -----

  method CopyInto(buffer: array<Byte>, at: nat, src: Bytes)
    requires at + |src| <= buffer.Length
    modifies buffer
    ensures buffer[..at] == old(buffer[..at])
    ensures buffer[..at + |src|] == old(buffer[..at]) + src
  {
    for i := 0 to |src|
      invariant buffer[..at] == old(buffer[..at]) && buffer[at..at + i] == src[..i]
    {
      buffer[at + i] := src[i];
    }
  }

  lemma DigestWord(h: bv64, word: Bytes, rest: Bytes)
    requires |word| == 8
    ensures Digest(h, word + rest) == Digest(MixWord(h, word), rest)
  {
    hide MixWord, MixBytes;
    assert (word + rest)[..8] == word && (word + rest)[8..] == rest;
  }

  /** Mixes the whole words of `data`, leaving `rest`. */
  method MixWords(h0: bv64, data: Bytes, ghost rest: Bytes) returns (h: bv64, remainder: Bytes)
    ensures |remainder| == |data| % 8 && remainder == data[|data| - |remainder|..]
    ensures Digest(h0, data + rest) == Digest(h, remainder + rest)
    ensures |data| < 8 ==> h == h0
  {
    hide MixWord, Digest;
    h := h0;
    var chunks := |data| / 8;
    assert data[0..] == data;
    for c := 0 to chunks
      invariant Digest(h0, data + rest) == Digest(h, data[8 * c..] + rest)
      invariant c == 0 ==> h == h0
    {
      var word := data[8 * c..8 * c + 8];
      assert data[8 * c..] + rest == word + (data[8 * (c + 1)..] + rest);
      DigestWord(h, word, data[8 * (c + 1)..] + rest);
      h := MixWord(h, word);
    }
    remainder := data[8 * chunks..];
  }

  /** `checksum_parts`: at most seven bytes are carried from one slice to the next. However the bytes are
      cut into parts, the result is the checksum of their concatenation. */
  method ChecksumParts(total: nat, parts: seq<Bytes>) returns (h: bv64)
    requires total <= U64_MAX
    ensures h == Digest(Seed(total), Concat(parts))
    ensures total == |Concat(parts)| ==> h == Sum64(Concat(parts))
  {
    hide MixWord, Digest, Concat, Seed;
    h := Seed(total);
    var tail := new Byte[8](_ => 0);
    var used: nat := 0;
    assert parts[0..] == parts && tail[..0] + Concat(parts) == Concat(parts);
    for p := 0 to |parts|
      invariant fresh(tail) && tail.Length == 8 && used <= 7
      invariant Digest(Seed(total), Concat(parts)) == Digest(h, tail[..used] + Concat(parts[p..]))
    {
      ghost var after := Concat(parts[p + 1..]);
      ConcatStep(parts, p);
      var remaining := parts[p];
      assert tail[..used] + Concat(parts[p..]) == tail[..used] + remaining + after;
      if used > 0 {
        var take := Min(8 - used, |remaining|);
        ghost var carried := tail[..used];
        CopyInto(tail, used, remaining[..take]);
        used := used + take;
        assert carried + remaining + after == tail[..used] + remaining[take..] + after;
        remaining := remaining[take..];
        if used == 8 {
          assert tail[..used] + remaining + after == tail[..] + (remaining + after);
          DigestWord(h, tail[..], remaining + after);
          h := MixWord(h, tail[..]);
          used := 0;
          assert tail[..used] + remaining + after == remaining + after;
        }
      }
      assert used == 0 || remaining == [];
      ghost var carried := tail[..used];
      var mixed, remainder := MixWords(h, remaining, after);
      assert used == 0 ==> carried + remaining + after == remaining + after && carried + remainder == remainder;
      assert used > 0 ==> remainder == remaining == [] && mixed == h;
      h := mixed;
      CopyInto(tail, used, remainder);
      used := used + |remainder|;
    }
    assert tail[..used] + Concat(parts[|parts|..]) == tail[..used] by {
      ConcatNothing(parts[|parts|..]);
    }
    h := MixRest(h, tail, used);
  }

  method MixRest(h0: bv64, tail: array<Byte>, used: nat) returns (h: bv64)
    requires used <= 7 && tail.Length == 8
    ensures h == Digest(h0, tail[..used])
  {
    hide MixByte;
    h := h0;
    for i := 0 to used
      invariant MixBytes(h0, tail[..used]) == MixBytes(h, tail[i..used])
    {
      assert tail[i..used][1..] == tail[i + 1..used];
      h := MixByte(h, tail[i]);
    }
  }

  lemma ConcatStep(parts: seq<Bytes>, p: nat)
    requires p < |parts|
    ensures Concat(parts[p..]) == parts[p] + Concat(parts[p + 1..])
  {
    assert parts[p..][1..] == parts[p + 1..];
  }

  lemma ConcatNothing(parts: seq<Bytes>)
    requires parts == []
    ensures Concat(parts) == []
  {
  }
}
