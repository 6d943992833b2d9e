/** The allocator of object handles for a DXF or DWG write. */
module HandleAllocators {
  import opened Words

  const FIRST_USER_HANDLE: u32 := 0x30

  /** The allocator's state as a value: what was reserved by callers, what was minted, the next candidate. */
  datatype State = State(reserved: set<u32>, minted: set<u32>, next: u32)

  datatype Op = Reserve(h: u32) | Next | ResetGenerated

  /** What one call yields: nothing, a handle, or the overflow exception. */
  datatype Outcome = Done | Minted(h: u32) | Exhausted

  /** n is the least candidate at or above the first user handle and above every member of s. */
  ghost predicate IsHighWater(s: set<u32>, n: u32) {
    && FIRST_USER_HANDLE <= n
    && (forall h :: h in s ==> h < n)
    && (n == FIRST_USER_HANDLE || (n - 1) in s)
  }

  ghost predicate Consistent(s: State) {
    IsHighWater(s.reserved + s.minted, s.next)
  }

  const EMPTY: State := State({}, {}, FIRST_USER_HANDLE)

  /** The effect of one call, in terms of the high-water mark alone. */
  ghost function Step(s: State, op: Op): (State, Outcome) {
    match op
    case Reserve(h) =>
      if h == U32_MAX then (s, Exhausted)
      else (State(s.reserved + {h}, s.minted, if h >= s.next then h + 1 else s.next), Done)
    case Next =>
      if s.next == U32_MAX then (s, Exhausted)
      else (State(s.reserved, s.minted + {s.next}, s.next + 1), Minted(s.next))
    case ResetGenerated =>
      (State(s.reserved, {}, HighWater(s.reserved)), Done)
  }

  /** The high-water mark of a set of handles; stuck at the last handle if that one is in it. */
  ghost function HighWater(s: set<u32>): (n: u32)
    ensures U32_MAX !in s ==> IsHighWater(s, n)
  {
    if U32_MAX in s then U32_MAX
    else
      HighWaterExists(s);
      var n: u32 :| IsHighWater(s, n);
      n
  }

  lemma {:induction false} HighWaterExists(s: set<u32>)
    requires U32_MAX !in s
    ensures exists n: u32 :: IsHighWater(s, n)
    decreases |s|
  {
    if s == {} {
      assert IsHighWater(s, FIRST_USER_HANDLE);
    } else {
      var h :| h in s;
      HighWaterExists(s - {h});
      var n: u32 :| IsHighWater(s - {h}, n);
      assert s == (s - {h}) + {h};
      assert IsHighWater(s, if h >= n then h + 1 else n);
    }
  }

  lemma HighWaterUnique(s: set<u32>, m: u32, n: u32)
    requires IsHighWater(s, m) && IsHighWater(s, n)
    ensures m == n
  {
  }

  ghost function Run(s: State, ops: seq<Op>): (State, seq<Outcome>)
    decreases |ops|
  {
    if ops == [] then (s, [])
    else
      var (s1, o) := Step(s, ops[0]);
      var (s2, os) := Run(s1, ops[1..]);
      (s2, [o] + os)
  }

  lemma StepKeepsConsistent(s: State, op: Op)
    requires Consistent(s) && U32_MAX !in s.reserved
    ensures Consistent(Step(s, op).0) && U32_MAX !in Step(s, op).0.reserved
  {
  }

  /** Over every run the candidate is max(0x30, 1 + largest reserved or minted handle). */
  lemma {:induction false} RunKeepsHighWater(s: State, ops: seq<Op>)
    requires Consistent(s) && U32_MAX !in s.reserved
    ensures Consistent(Run(s, ops).0) && U32_MAX !in Run(s, ops).0.reserved
    decreases |ops|
  {
    if ops == [] {
    } else {
      StepKeepsConsistent(s, ops[0]);
      RunKeepsHighWater(Step(s, ops[0]).0, ops[1..]);
    }
  }

  /** Between resets every minted handle is at least the starting candidate, so it was neither
      reserved nor minted before, and later ones are strictly larger. */
  lemma {:induction false} MintedHandlesAreFreshAndIncreasing(s: State, ops: seq<Op>)
    requires Consistent(s) && U32_MAX !in s.reserved
    requires ResetGenerated !in ops
    ensures |Run(s, ops).1| == |ops| && s.next <= Run(s, ops).0.next
    ensures forall i :: 0 <= i < |ops| && Run(s, ops).1[i].Minted? ==>
              && s.next <= Run(s, ops).1[i].h < Run(s, ops).0.next
              && Run(s, ops).1[i].h !in s.reserved + s.minted
    ensures forall i, j :: 0 <= i < j < |ops| && Run(s, ops).1[i].Minted? && Run(s, ops).1[j].Minted? ==>
              Run(s, ops).1[i].h < Run(s, ops).1[j].h
    decreases |ops|
  {
    if ops == [] {
    } else {
      StepKeepsConsistent(s, ops[0]);
      MintedHandlesAreFreshAndIncreasing(Step(s, ops[0]).0, ops[1..]);
    }
  }

  ghost function Reservations(order: seq<u32>): seq<Op> {
    if order == [] then [] else [Reserve(order[0])] + Reservations(order[1..])
  }

  lemma {:induction false} RunOfReservations(s: State, order: seq<u32>)
    requires Consistent(s) && U32_MAX !in s.reserved && U32_MAX !in order
    ensures Run(s, Reservations(order)).0.reserved == s.reserved + (set h | h in order)
    ensures Run(s, Reservations(order)).0.minted == s.minted
    decreases |order|
  {
    if order == [] {
    } else {
      StepKeepsConsistent(s, Reserve(order[0]));
      RunOfReservations(Step(s, Reserve(order[0])).0, order[1..]);
    }
  }

  /** Resetting equals a new allocator given the same reservations, in whatever order. */
  lemma ResetEqualsFreshAllocator(s: State, order: seq<u32>)
    requires Consistent(s) && U32_MAX !in s.reserved
    requires s.reserved == set h | h in order
    ensures Step(s, ResetGenerated).0 == Run(EMPTY, Reservations(order)).0
  {
    RunOfReservations(EMPTY, order);
    RunKeepsHighWater(EMPTY, Reservations(order));
    var renewed := Run(EMPTY, Reservations(order)).0;
    assert renewed.reserved + renewed.minted == s.reserved == s.reserved + {};
    HighWaterUnique(s.reserved, renewed.next, HighWater(s.reserved));
  }

  class HandleAllocator {
    var next: u32
    var reserved: set<u32>
    var minted: set<u32>

    ghost function Model(): State
      reads this
    {
      State(reserved, minted, next)
    }

    ghost predicate Valid()
      reads this
    {
      Consistent(Model()) && U32_MAX !in reserved
    }

    constructor ()
      ensures Valid() && Model() == EMPTY
    {
      next, reserved, minted := FIRST_USER_HANDLE, {}, {};
    }

    predicate IsReserved(h: u32)
      reads this
    {
      h in reserved || h in minted
    }

    method Reserve(h: u32) returns (ok: bool)
      requires Valid()
      modifies this
      ensures Valid()
      ensures Model() == Step(old(Model()), Op.Reserve(h)).0
      ensures ok <==> Step(old(Model()), Op.Reserve(h)).1 == Done
    {
      if h >= next && h == U32_MAX {
        return false;
      }
      reserved := reserved + {h};
      if h >= next {
        next := h + 1;
      }
      return true;
    }

    /** The guard of the source's skip loop is never true, so the loop never takes a step. */
    method Next() returns (out: Outcome)
      requires Valid()
      modifies this
      ensures Valid()
      ensures (Model(), out) == Step(old(Model()), Op.Next)
    {
      if IsReserved(next) {
        assert false;
      }
      if next == U32_MAX {
        return Exhausted;
      }
      var h := next;
      next := next + 1;
      minted := minted + {h};
      return Minted(h);
    }

    method ResetGenerated()
      requires Valid()
      modifies this
      ensures Valid()
      ensures Model() == Step(old(Model()), Op.ResetGenerated).0
    {
      minted := {};
      next := FIRST_USER_HANDLE;
      if reserved != {} {
        var highest := Greatest(reserved);
        if highest == U32_MAX {
          assert false;
        } else if highest >= next {
          next := highest + 1;
        }
      }
      assert reserved + minted == reserved;
      HighWaterUnique(reserved, next, HighWater(reserved));
    }
  }

  /** The last element of the ordered set. */
  method Greatest(s: set<u32>) returns (m: u32)
    requires s != {}
    ensures m in s && forall h :: h in s ==> h <= m
  {
    m :| m in s;
    var rest := s - {m};
    while rest != {}
      invariant rest <= s && m in s
      invariant forall h :: h in s - rest ==> h <= m
      decreases |rest|
    {
      var h :| h in rest;
      assert s - (rest - {h}) == (s - rest) + {h};
      if h > m {
        m := h;
      }
      rest := rest - {h};
    }
    assert s - rest == s;
  }
}
