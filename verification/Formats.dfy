/** Byte formats as inverse pairs: writers prepend to what follows, parsers take from the front. */
module Formats {
  import opened Words

  datatype Taken<+T> = Short | Took(value: T, rest: seq<u8>)

  function Take(b: seq<u8>, n: nat): Taken<seq<u8>> {
    if n <= |b| then Took(b[..n], b[n..]) else Short
  }

  function Put(x: nat, n: nat, rest: seq<u8>): seq<u8> {
    LeBytes(x, n) + rest
  }

  function TakeWord(b: seq<u8>, n: nat): Taken<nat> {
    if n <= |b| then Took(Le(b[..n]), b[n..]) else Short
  }

  lemma TakeOfPut(x: nat, n: nat, rest: seq<u8>)
    requires x < Limit(n)
    ensures TakeWord(Put(x, n, rest), n) == Took(x, rest)
  {
    LeOfBytes(x, n);
    assert Put(x, n, rest)[..n] == LeBytes(x, n) && Put(x, n, rest)[n..] == rest;
  }

  lemma PutOfTake(b: seq<u8>, n: nat)
    requires n <= |b|
    ensures Put(TakeWord(b, n).value, n, b[n..]) == b
    ensures TakeWord(b, n).value < Limit(n)
  {
    BytesOfLe(b[..n]);
    LeBound(b[..n]);
    assert b == b[..n] + b[n..];
  }

  // ---------------------------------------------------------------------------------------------
  // Counted lists of any element

  type Parser<!T(!new)> = seq<u8> -> Taken<T>
  type Writer<!T(!new)> = (T, seq<u8>) -> seq<u8>

  /** Parser and writer are inverse to each other on the elements that are ok. */
  ghost predicate Inverse<T(!new)>(take: Parser<T>, put: Writer<T>, ok: T -> bool) {
    && (forall x, rest :: ok(x) ==> take(put(x, rest)) == Took(x, rest))
    && (forall b :: take(b).Took? ==> ok(take(b).value) && put(take(b).value, take(b).rest) == b)
  }

  function PutMany<T(!new)>(put: Writer<T>, xs: seq<T>, rest: seq<u8>): seq<u8> {
    if xs == [] then rest else put(xs[0], PutMany(put, xs[1..], rest))
  }

  function TakeMany<T(!new)>(take: Parser<T>, b: seq<u8>, count: nat): Taken<seq<T>>
    decreases count
  {
    if count == 0 then Took([], b)
    else
      match take(b)
      case Short => Short
      case Took(x, rest) =>
        match TakeMany(take, rest, count - 1)
        case Short => Short
        case Took(xs, rest') => Took([x] + xs, rest')
  }

  lemma {:induction false} TakeOfPutMany<T(!new)>(take: Parser<T>, put: Writer<T>, ok: T -> bool,
                                                  xs: seq<T>, rest: seq<u8>)
    requires Inverse(take, put, ok) && forall x :: x in xs ==> ok(x)
    ensures TakeMany(take, PutMany(put, xs, rest), |xs|) == Took(xs, rest)
  {
    if xs == [] {
    } else {
      TakeOfPutMany(take, put, ok, xs[1..], rest);
      assert [xs[0]] + xs[1..] == xs;
    }
  }

  lemma {:induction false} PutOfTakeMany<T(!new)>(take: Parser<T>, put: Writer<T>, ok: T -> bool,
                                                  b: seq<u8>, count: nat)
    requires Inverse(take, put, ok) && TakeMany(take, b, count).Took?
    ensures var t := TakeMany(take, b, count);
            |t.value| == count && (forall x :: x in t.value ==> ok(x)) && PutMany(put, t.value, t.rest) == b
    decreases count
  {
    if count == 0 {
    } else {
      PutOfTakeMany(take, put, ok, take(b).rest, count - 1);
    }
  }

  function Prepend<T>(xs: seq<T>, t: Taken<seq<T>>): (all: Taken<seq<T>>)
    ensures xs == [] ==> all == t
    ensures t.Took? && t.value == [] ==> all == Took(xs, t.rest)
  {
    match t
    case Short => Short
    case Took(ys, rest) =>
      assert [] + ys == ys && xs + [] == xs;
      Took(xs + ys, rest)
  }

  lemma PrependNext<T(!new)>(take: Parser<T>, b: seq<u8>, count: nat, xs: seq<T>)
    requires count > 0
    ensures take(b).Took? ==>
              Prepend(xs, TakeMany(take, b, count))
              == Prepend(xs + [take(b).value], TakeMany(take, take(b).rest, count - 1))
    ensures take(b).Short? ==> Prepend(xs, TakeMany(take, b, count)).Short?
  {
    if take(b).Took? && TakeMany(take, take(b).rest, count - 1).Took? {
      var x, ys := take(b).value, TakeMany(take, take(b).rest, count - 1).value;
      assert xs + ([x] + ys) == (xs + [x]) + ys;
    }
  }
}
