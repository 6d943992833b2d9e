/** Binary data as groups of hexadecimal text, at most 127 bytes to a group. */
module HexChunks {
  import opened Words
  import opened Text

  const BYTES_PER_CHUNK: nat := 127

  /** The digit at place i of a byte's two: the high one first. */
  function ByteDigit(x: u8, low: bool): char {
    Digit(if low then x % 16 else x / 16)
  }

  function PairValue(high: char, low: char): u8 {
    16 * DigitValue(high) + DigitValue(low)
  }

  lemma ByteRoundTrip(x: u8)
    ensures PairValue(ByteDigit(x, false), ByteDigit(x, true)) == x
  {
    DigitRoundTrip(x / 16);
    DigitRoundTrip(x % 16);
  }

  function HexOf(b: seq<u8>): (s: string)
    ensures |s| == 2 * |b|
  {
    seq(2 * |b|, i requires 0 <= i < 2 * |b| => ByteDigit(b[i / 2], i % 2 == 1))
  }

  function BytesOf(s: string): (b: seq<u8>)
    ensures |b| == |s| / 2
  {
    seq<u8>(|s| / 2, i requires 0 <= i < |s| / 2 => PairValue(s[2 * i], s[2 * i + 1]))
  }

  lemma HexDigitsOf(b: seq<u8>, i: nat)
    requires i < |b|
    ensures HexOf(b)[2 * i] == ByteDigit(b[i], false) && HexOf(b)[2 * i + 1] == ByteDigit(b[i], true)
  {
    assert (2 * i) / 2 == i && (2 * i) % 2 == 0;
    assert (2 * i + 1) / 2 == i && (2 * i + 1) % 2 == 1;
  }

  lemma ByteOfHex(b: seq<u8>, i: nat)
    requires i < |b|
    ensures BytesOf(HexOf(b))[i] == b[i]
  {
    HexDigitsOf(b, i);
    ByteRoundTrip(b[i]);
    assert BytesOf(HexOf(b))[i] == PairValue(HexOf(b)[2 * i], HexOf(b)[2 * i + 1]);
  }

  lemma BytesOfHex(b: seq<u8>)
    ensures BytesOf(HexOf(b)) == b
  {
    forall i | 0 <= i < |b| ensures BytesOf(HexOf(b))[i] == b[i] {
      ByteOfHex(b, i);
    }
  }

  lemma HexOfNext(b: seq<u8>, x: u8)
    ensures HexOf(b + [x]) == HexOf(b) + [ByteDigit(x, false), ByteDigit(x, true)]
  {
    forall i | 0 <= i < 2 * |b| + 2
      ensures HexOf(b + [x])[i] == (HexOf(b) + [ByteDigit(x, false), ByteDigit(x, true)])[i]
    {
      assert i < 2 * |b| ==> (b + [x])[i / 2] == b[i / 2];
    }
  }

  /** The chunks, in order; only the last may be shorter. */
  function Chunks(b: seq<u8>): seq<string>
    decreases |b|
  {
    if b == [] then []
    else if |b| <= BYTES_PER_CHUNK then [HexOf(b)]
    else [HexOf(b[..BYTES_PER_CHUNK])] + Chunks(b[BYTES_PER_CHUNK..])
  }

  /** The bytes of chunks read one after the other. */
  function Joined(chunks: seq<string>): seq<u8> {
    if chunks == [] then [] else BytesOf(chunks[0]) + Joined(chunks[1..])
  }

  lemma {:induction false} JoinedConcat(a: seq<string>, b: seq<string>)
    ensures Joined(a + b) == Joined(a) + Joined(b)
  {
    if a == [] {
      assert a + b == b;
    } else {
      assert (a + b)[1..] == a[1..] + b;
      JoinedConcat(a[1..], b);
    }
  }

  /** Decoding the chunks gives the bytes back. */
  lemma {:induction false} ChunksDecode(b: seq<u8>)
    ensures Joined(Chunks(b)) == b
    decreases |b|
  {
    if b == [] {
    } else {
      if |b| <= BYTES_PER_CHUNK {
        BytesOfHex(b);
        assert Chunks(b)[1..] == [];
      } else {
        BytesOfHex(b[..BYTES_PER_CHUNK]);
        ChunksDecode(b[BYTES_PER_CHUNK..]);
        assert b == b[..BYTES_PER_CHUNK] + b[BYTES_PER_CHUNK..];
      }
    }
  }

  /** No chunk is empty or holds more than 127 bytes, and all but the last are full. */
  lemma {:induction false} ChunksFit(b: seq<u8>, k: nat)
    requires k < |Chunks(b)|
    ensures 0 < |Chunks(b)[k]| <= 2 * BYTES_PER_CHUNK
    ensures k < |Chunks(b)| - 1 ==> |Chunks(b)[k]| == 2 * BYTES_PER_CHUNK
    decreases |b|
  {
    if |b| > BYTES_PER_CHUNK && k > 0 {
      ChunksFit(b[BYTES_PER_CHUNK..], k - 1);
    }
  }

  lemma NextChunk(b: seq<u8>, count: nat)
    requires b != [] && count == if |b| < BYTES_PER_CHUNK then |b| else BYTES_PER_CHUNK
    ensures Chunks(b) == [HexOf(b[..count])] + Chunks(b[count..])
  {
    if |b| <= BYTES_PER_CHUNK {
      assert b[..count] == b && b[count..] == [];
    }
  }

  /** The chunk loop. */
  method MakeChunks(b: seq<u8>) returns (chunks: seq<string>)
    ensures chunks == Chunks(b)
  {
    chunks := [];
    var offset := 0;
    while offset < |b|
      invariant 0 <= offset <= |b| && Chunks(b) == chunks + Chunks(b[offset..])
    {
      var count := if |b| - offset < BYTES_PER_CHUNK then |b| - offset else BYTES_PER_CHUNK;
      var chunk := MakeChunk(b, offset, count);
      NextChunk(b[offset..], count);
      assert b[offset..][..count] == b[offset..offset + count] && b[offset..][count..] == b[offset + count..];
      ConcatAssociates(chunks, [chunk], Chunks(b[offset + count..]));
      chunks := chunks + [chunk];
      offset := offset + count;
    }
  }

  method MakeChunk(b: seq<u8>, offset: nat, count: nat) returns (chunk: string)
    requires offset + count <= |b|
    ensures chunk == HexOf(b[offset..offset + count])
  {
    chunk := "";
    for index := 0 to count
      invariant chunk == HexOf(b[offset..offset + index])
    {
      var byte := b[offset + index];
      HexOfNext(b[offset..offset + index], byte);
      assert b[offset..offset + index] + [byte] == b[offset..offset + index + 1];
      chunk := chunk + [ByteDigit(byte, false), ByteDigit(byte, true)];
    }
  }
}
