/** Finding an ACIS stream at any bit position of a modeler payload, and shifting it back to bytes. */
module AcisSignature {
  import opened Words

  function Bytes(text: string): (b: seq<u8>)
    ensures |b| == |text|
  {
    seq(|text|, i requires 0 <= i < |text| => text[i] as int % 0x100)
  }

  const SIGNATURES: seq<string> := ["ACIS BinaryFile", "ASM BinaryFile4"]

  // ---------------------------------------------------------------------------------------------
  // Bits, most significant first

  /** x >> k. */
  function ShiftRight(x: nat, k: nat): nat {
    if k == 0 then x else ShiftRight(x, k - 1) / 2
  }

  /** x << k. */
  function ShiftLeft(x: nat, k: nat): nat {
    if k == 0 then x else 2 * ShiftLeft(x, k - 1)
  }

  /** Bit j of a byte, counted from its top. */
  function Bit(x: u8, j: nat): nat
    requires j < 8
  {
    ShiftRight(x, 7 - j) % 2
  }

  /** Bit k of a byte string, and zero behind its end. */
  function StreamBit(data: seq<u8>, k: nat): nat {
    if k < 8 * |data| then Bit(data[k / 8], k % 8) else 0
  }

  lemma {:induction false} ShiftsCompose(x: nat, a: nat, b: nat)
    ensures ShiftRight(ShiftRight(x, a), b) == ShiftRight(x, a + b)
  {
    if b == 0 {
    } else {
      ShiftsCompose(x, a, b - 1);
    }
  }

  lemma LeftShifts(x: nat)
    ensures ShiftLeft(x, 1) == 2 * x && ShiftLeft(x, 2) == 4 * x && ShiftLeft(x, 3) == 8 * x
    ensures ShiftLeft(x, 4) == 16 * x && ShiftLeft(x, 5) == 32 * x && ShiftLeft(x, 6) == 64 * x
    ensures ShiftLeft(x, 7) == 128 * x && ShiftLeft(x, 8) == 0x100 * x
  {
    assert ShiftLeft(x, 1) == 2 * x;
    assert ShiftLeft(x, 2) == 4 * x;
    assert ShiftLeft(x, 3) == 8 * x;
    assert ShiftLeft(x, 4) == 16 * x;
    assert ShiftLeft(x, 5) == 32 * x;
    assert ShiftLeft(x, 6) == 64 * x;
    assert ShiftLeft(x, 7) == 128 * x;
  }

  lemma {:induction false} ShiftBound(x: u8, k: nat)
    requires k <= 8
    ensures ShiftRight(x, k) < ShiftLeft(1, 8 - k)
  {
    if k == 0 {
      LeftShifts(1);
    } else {
      ShiftBound(x, k - 1);
    }
  }

  lemma ByteShiftsOut(x: u8)
    ensures ShiftRight(x, 8) == 0
  {
    ShiftBound(x, 8);
  }

  /** Shifting a two-byte window right: hi moves towards the bytes below, lo moves out. */
  lemma {:induction false} ShiftWindow(hi: nat, lo: nat, k: nat)
    requires k <= 8
    ensures ShiftRight(0x100 * hi + lo, k) == ShiftLeft(hi, 8 - k) + ShiftRight(lo, k)
  {
    if k == 0 {
      LeftShifts(hi);
    } else {
      ShiftWindow(hi, lo, k - 1);
    }
  }

  /** The low eight bits of a number are those of its remainder. */
  lemma LowBits(w: nat, k: nat)
    requires k < 8
    ensures ShiftRight(w % 0x100, k) % 2 == ShiftRight(w, k) % 2
  {
    ShiftWindow(w / 0x100, w % 0x100, k);
  }

  lemma {:induction false} TopBitsDetermine(x: u8, y: u8, n: nat)
    requires n <= 8 && forall j :: 0 <= j < n ==> Bit(x, j) == Bit(y, j)
    ensures ShiftRight(x, 8 - n) == ShiftRight(y, 8 - n)
  {
    if n == 0 {
      ByteShiftsOut(x);
      ByteShiftsOut(y);
    } else {
      TopBitsDetermine(x, y, n - 1);
      assert Bit(x, n - 1) == Bit(y, n - 1);
    }
  }

  lemma BitsDetermineByte(x: u8, y: u8)
    requires forall j :: 0 <= j < 8 ==> Bit(x, j) == Bit(y, j)
    ensures x == y
  {
    TopBitsDetermine(x, y, 8);
  }

  // ---------------------------------------------------------------------------------------------
  // The byte at a bit position

  /** hi shifted left by bit and cut to a byte, with the freed low bits filled from the top of lo; the two
      parts have no bit in common, so that their union is their sum. */
  function Funnel(hi: u8, lo: u8, bit: nat): (x: u8)
    requires bit < 8
  {
    FunnelBound(hi, lo, bit);
    ShiftLeft(hi, bit) % 0x100 + ShiftRight(lo, 8 - bit)
  }

  lemma FunnelBound(hi: u8, lo: u8, bit: nat)
    requires bit < 8
    ensures ShiftLeft(hi, bit) % 0x100 + ShiftRight(lo, 8 - bit) < 0x100
  {
    LeftShifts(hi);
    LeftShifts(1);
    ShiftBound(lo, 8 - bit);
    var low := ShiftRight(lo, 8 - bit);
    if bit == 1 {
      CutKeepsRoom(hi / 128, 2 * (hi % 128), low);
    } else if bit == 2 {
      CutKeepsRoom(hi / 64, 4 * (hi % 64), low);
    } else if bit == 3 {
      CutKeepsRoom(hi / 32, 8 * (hi % 32), low);
    } else if bit == 4 {
      CutKeepsRoom(hi / 16, 16 * (hi % 16), low);
    } else if bit == 5 {
      CutKeepsRoom(hi / 8, 32 * (hi % 8), low);
    } else if bit == 6 {
      CutKeepsRoom(hi / 4, 64 * (hi % 4), low);
    } else if bit == 7 {
      CutKeepsRoom(hi / 2, 128 * (hi % 2), low);
    }
  }

  lemma CutKeepsRoom(q: nat, rest: nat, low: nat)
    requires rest + low < 0x100
    ensures (0x100 * q + rest) % 0x100 + low < 0x100
  {
  }

  function PeekByte(data: seq<u8>, index: nat, bit: nat): u8
    requires bit < 8
  {
    if index >= |data| then 0
    else if bit == 0 then data[index]
    else Funnel(data[index], if index + 1 < |data| then data[index + 1] else 0, bit)
  }

  lemma FunnelIsWindow(hi: u8, lo: u8, bit: nat)
    requires bit < 8
    ensures Funnel(hi, lo, bit) == ShiftRight(0x100 * hi + lo, 8 - bit) % 0x100
  {
    ShiftWindow(hi, lo, 8 - bit);
    FunnelBound(hi, lo, bit);
  }

  /** Bit j of the funnel is a bit of the window. */
  lemma FunnelWindowBit(hi: u8, lo: u8, bit: nat, j: nat)
    requires bit < 8 && j < 8
    ensures Bit(Funnel(hi, lo, bit), j) == ShiftRight(0x100 * hi + lo, 15 - bit - j) % 2
  {
    FunnelIsWindow(hi, lo, bit);
    LowBits(ShiftRight(0x100 * hi + lo, 8 - bit), 7 - j);
    ShiftsCompose(0x100 * hi + lo, 8 - bit, 7 - j);
  }

  lemma FunnelBit(hi: u8, lo: u8, bit: nat, j: nat)
    requires bit < 8 && j < 8
    ensures Bit(Funnel(hi, lo, bit), j) == if bit + j < 8 then Bit(hi, bit + j) else Bit(lo, bit + j - 8)
  {
    FunnelWindowBit(hi, lo, bit, j);
    if bit + j < 8 {
      ShiftWindow(hi, lo, 8);
      ByteShiftsOut(lo);
      ShiftsCompose(0x100 * hi + lo, 8, 7 - bit - j);
    } else {
      ShiftWindow(hi, lo, 15 - bit - j);
    }
  }

  /** The byte at a bit position holds exactly the eight bits from there on. */
  lemma PeekedBit(data: seq<u8>, index: nat, bit: nat, j: nat)
    requires bit < 8 && j < 8
    ensures Bit(PeekByte(data, index, bit), j) == StreamBit(data, 8 * index + bit + j)
  {
    var k := 8 * index + bit + j;
    if index < |data| {
      var lo: u8 := if index + 1 < |data| then data[index + 1] else 0;
      if bit == 0 {
        assert k / 8 == index && k % 8 == j;
      } else {
        FunnelBit(data[index], lo, bit, j);
        if bit + j < 8 {
          assert k / 8 == index && k % 8 == bit + j;
        } else {
          assert k / 8 == index + 1 && k % 8 == bit + j - 8;
          ZeroShifts(15 - bit - j);
        }
      }
    } else {
      ZeroShifts(7 - j);
    }
  }

  lemma {:induction false} ZeroShifts(k: nat)
    ensures ShiftRight(0, k) == 0
  {
    if k == 0 {
    } else {
      ZeroShifts(k - 1);
    }
  }

  // ---------------------------------------------------------------------------------------------
  // Embedded byte strings

  /** The bits of s appear in data from bit position at on; bits behind data count as zero. */
  ghost predicate Embedded(data: seq<u8>, at: nat, s: seq<u8>) {
    forall k :: 0 <= k < 8 * |s| ==> StreamBit(data, at + k) == StreamBit(s, k)
  }

  /** Bytes peeked at successive places are the string embedded there, and only that one. */
  lemma PeekedIffEmbedded(data: seq<u8>, offset: nat, bit: nat, s: seq<u8>)
    requires bit < 8
    ensures (forall i :: 0 <= i < |s| ==> PeekByte(data, offset + i, bit) == s[i])
            <==> Embedded(data, 8 * offset + bit, s)
  {
    if forall i :: 0 <= i < |s| ==> PeekByte(data, offset + i, bit) == s[i] {
      forall k | 0 <= k < 8 * |s| ensures StreamBit(data, 8 * offset + bit + k) == StreamBit(s, k) {
        assert PeekByte(data, offset + k / 8, bit) == s[k / 8];
        PeekedBit(data, offset + k / 8, bit, k % 8);
      }
    }
    if Embedded(data, 8 * offset + bit, s) {
      forall i | 0 <= i < |s| ensures PeekByte(data, offset + i, bit) == s[i] {
        forall j | 0 <= j < 8 ensures Bit(PeekByte(data, offset + i, bit), j) == Bit(s[i], j) {
          PeekedBit(data, offset + i, bit, j);
          assert StreamBit(data, 8 * offset + bit + (8 * i + j)) == StreamBit(s, 8 * i + j);
          assert (8 * i + j) / 8 == i && (8 * i + j) % 8 == j;
        }
        BitsDetermineByte(PeekByte(data, offset + i, bit), s[i]);
      }
    }
  }

  // ---------------------------------------------------------------------------------------------
  // The search

  ghost predicate SignatureAt(data: seq<u8>, offset: nat, bit: nat, signature: seq<u8>)
    requires bit < 8
  {
    && offset <= |data| && |signature| <= |data| - offset
    && forall i :: 0 <= i < |signature| ==> PeekByte(data, offset + i, bit) == signature[i]
  }

  /** A signature matches where its bits are embedded and its whole bytes start early enough. The check
      counts bytes only, so at a shifted position the last bits may be the zeros behind the data. */
  lemma SignatureMatchesIffEmbedded(data: seq<u8>, offset: nat, bit: nat, signature: seq<u8>)
    requires bit < 8
    ensures SignatureAt(data, offset, bit, signature)
            <==> offset + |signature| <= |data| && Embedded(data, 8 * offset + bit, signature)
  {
    PeekedIffEmbedded(data, offset, bit, signature);
  }

  method MatchSignature(data: Buffer, offset: nat, bit: nat, signature: seq<u8>) returns (found: bool)
    requires bit < 8
    ensures found == SignatureAt(data, offset, bit, signature)
  {
    if offset > |data| || |signature| > |data| - offset {
      return false;
    }
    for i := 0 to |signature|
      invariant forall j :: 0 <= j < i ==> PeekByte(data, offset + j, bit) == signature[j]
    {
      if PeekByte(data, offset + i, bit) != signature[i] {
        return false;
      }
    }
    return true;
  }

  ghost predicate MatchesAt(data: seq<u8>, which: nat, bit: nat, offset: nat) {
    which < |SIGNATURES| && bit < 8 && offset < |data| && SignatureAt(data, offset, bit, Bytes(SIGNATURES[which]))
  }

  predicate Precedes(which: nat, bit: nat, offset: nat, which': nat, bit': nat, offset': nat) {
    which < which' || (which == which' && (bit < bit' || (bit == bit' && offset < offset')))
  }

  /** No match comes before this one in the order of the search. */
  ghost predicate NoMatchBefore(data: seq<u8>, which: nat, bit: nat, offset: nat) {
    forall w, b, o {:trigger MatchesAt(data, w, b, o)} ::
      Precedes(w, b, o, which, bit, offset) ==> !MatchesAt(data, w, b, o)
  }

  /** The least match by signature, then bit, then offset; no match only if there is none. */
  method FindSignature(data: Buffer) returns (found: bool, which: nat, bit: nat, offset: nat)
    ensures found ==> MatchesAt(data, which, bit, offset) && NoMatchBefore(data, which, bit, offset)
    ensures !found ==> forall w, b, o :: !MatchesAt(data, w, b, o)
  {
    which := 0;
    while which < |SIGNATURES|
      invariant which <= |SIGNATURES| && NoMatchBefore(data, which, 0, 0)
    {
      bit := 0;
      while bit < 8
        invariant bit <= 8 && NoMatchBefore(data, which, bit, 0)
      {
        offset := 0;
        while offset < |data|
          invariant offset <= |data| && NoMatchBefore(data, which, bit, offset)
        {
          found := MatchSignature(data, offset, bit, Bytes(SIGNATURES[which]));
          if found {
            return;
          }
          offset := offset + 1;
        }
        bit := bit + 1;
      }
      which := which + 1;
    }
    return false, 0, 0, 0;
  }

  // ---------------------------------------------------------------------------------------------
  // Realignment

  /** The whole bytes from a bit position on. */
  ghost function Realigned(data: seq<u8>, offset: nat, bit: nat): (aligned: seq<u8>)
    requires bit < 8 && offset < |data|
    ensures |aligned| == |data| - offset - (if bit == 0 then 0 else 1)
  {
    seq<u8>(|data| - offset - (if bit == 0 then 0 else 1), i requires 0 <= i => PeekByte(data, offset + i, bit))
  }

  method RealignSignature(data: Buffer, offset: nat, bit: nat) returns (aligned: seq<u8>)
    requires bit < 8
    ensures aligned == if offset < |data| then Realigned(data, offset, bit) else []
  {
    aligned := [];
    if offset >= |data| {
      return;
    }
    if bit == 0 {
      aligned := data[offset..];
      forall i | 0 <= i < |aligned| ensures aligned[i] == Realigned(data, offset, bit)[i] {
        assert aligned[i] == PeekByte(data, offset + i, bit);
      }
      return;
    }
    ghost var whole := Realigned(data, offset, bit);
    for i := 0 to |data| - offset - 1
      invariant aligned == whole[..i]
    {
      TakeNext(whole, i);
      aligned := aligned + [PeekByte(data, offset + i, bit)];
    }
    assert whole[..|whole|] == whole;
  }

  /** Realigning gives the bits of the data, moved to byte boundaries. */
  lemma RealignedIsEmbedded(data: seq<u8>, offset: nat, bit: nat)
    requires bit < 8 && offset < |data|
    ensures Embedded(data, 8 * offset + bit, Realigned(data, offset, bit))
  {
    PeekedIffEmbedded(data, offset, bit, Realigned(data, offset, bit));
  }

  /** Realigning at the position of an embedded byte string returns that string, and exactly it when it
      ends with the data's last whole byte. */
  lemma RealignmentRecovers(data: seq<u8>, offset: nat, bit: nat, s: seq<u8>)
    requires bit < 8 && offset < |data| && |s| <= |Realigned(data, offset, bit)|
    requires Embedded(data, 8 * offset + bit, s)
    ensures s <= Realigned(data, offset, bit)
    ensures |s| == |Realigned(data, offset, bit)| ==> s == Realigned(data, offset, bit)
  {
    PeekedIffEmbedded(data, offset, bit, s);
    assert forall i :: 0 <= i < |s| ==> Realigned(data, offset, bit)[i] == PeekByte(data, offset + i, bit);
  }
}
