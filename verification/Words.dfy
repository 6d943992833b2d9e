/** Fixed-width machine words, little-endian byte strings, and the Option type. */
module Words {

  datatype Option<+T> = None | Some(value: T)

  const U32_MAX: int := 0xFFFF_FFFF
  const U64_MAX: int := 0xFFFF_FFFF_FFFF_FFFF

  type u8 = x: int | 0 <= x < 0x100
  type u16 = x: int | 0 <= x < 0x1_0000
  type u32 = x: int | 0 <= x <= U32_MAX
  type u64 = x: int | 0 <= x <= U64_MAX
  type i32 = x: int | -0x8000_0000 <= x < 0x8000_0000

  /** A C++ byte buffer: its length is a size_t. */
  type Buffer = s: seq<u8> | |s| <= U64_MAX

  /** What comes before the first end marker, as in a C string. */
  function UpTo<T(==)>(s: seq<T>, end: T): (t: seq<T>)
    ensures t <= s && end !in t
    ensures |t| < |s| ==> s[|t|] == end
    ensures end !in s ==> t == s
  {
    if s == [] || s[0] == end then [] else [s[0]] + UpTo(s[1..], end)
  }

  /** static_cast<std::int32_t> of an unsigned word. */
  function ToI32(x: u32): (r: i32)
    ensures (r - x) % 0x1_0000_0000 == 0
  {
    if x < 0x8000_0000 then x else x - 0x1_0000_0000
  }

  /** 256 to the power n: the number of values n bytes hold. */
  function Limit(n: nat): (p: nat)
    ensures p > 0
  {
    if n == 0 then 1 else 0x100 * Limit(n - 1)
  }

  lemma LimitValues()
    ensures Limit(2) == 0x1_0000 && Limit(4) == 0x1_0000_0000 && Limit(8) == 0x1_0000_0000_0000_0000
  {
    assert Limit(4) == 0x1_0000_0000;
  }

  /** The little-endian value of a byte string. */
  function Le(b: seq<u8>): nat {
    if b == [] then 0 else b[0] as int + 0x100 * Le(b[1..])
  }

  lemma {:induction false} LeBound(b: seq<u8>)
    ensures Le(b) < Limit(|b|)
  {
    if b == [] {
    } else {
      LeBound(b[1..]);
    }
  }

  /** The n low bytes of x, least significant first. */
  function LeBytes(x: nat, n: nat): (b: seq<u8>)
    ensures |b| == n
    decreases n
  {
    if n == 0 then [] else [x % 0x100] + LeBytes(x / 0x100, n - 1)
  }

  lemma {:induction false} LeOfBytes(x: nat, n: nat)
    requires x < Limit(n)
    ensures Le(LeBytes(x, n)) == x
    decreases n
  {
    if n == 0 {
    } else {
      LeOfBytes(x / 0x100, n - 1);
      assert LeBytes(x, n)[1..] == LeBytes(x / 0x100, n - 1);
    }
  }

  lemma {:induction false} BytesOfLe(b: seq<u8>)
    ensures LeBytes(Le(b), |b|) == b
    decreases |b|
  {
    if b == [] {
    } else {
      BytesOfLe(b[1..]);
      assert Le(b) % 0x100 == b[0] && Le(b) / 0x100 == Le(b[1..]);
    }
  }

  function Le16(b: seq<u8>): u16
    requires |b| == 2
  {
    LimitValues();
    LeBound(b);
    Le(b)
  }

  function Le32(b: seq<u8>): u32
    requires |b| == 4
  {
    LimitValues();
    LeBound(b);
    Le(b)
  }

  function Le64(b: seq<u8>): u64
    requires |b| == 8
  {
    LimitValues();
    LeBound(b);
    Le(b)
  }

  lemma TakeNext<T>(s: seq<T>, n: nat)
    requires n < |s|
    ensures s[..n + 1] == s[..n] + [s[n]]
  {
  }

  lemma ConcatAssociates<T>(a: seq<T>, b: seq<T>, c: seq<T>)
    ensures (a + b) + c == a + (b + c)
  {
  }
}
