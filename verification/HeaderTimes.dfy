/** Header time variables: a julian date as a day and milliseconds since midnight, over the reals. */
module HeaderTimes {

  const MSEC_PER_DAY: int := 86_400_000

  /** std::lround of a number that is not negative: to the nearest, halves away from zero. */
  function Round(x: real): int {
    (x + 0.5).Floor
  }

  /** The day and the milliseconds of a stored date; a full day of milliseconds is carried. */
  function Split(stored: real): (r: (int, int))
    ensures 0 <= r.1 < MSEC_PER_DAY
  {
    var day := stored.Floor;
    var msec := Round((stored - day as real) * MSEC_PER_DAY as real);
    if msec >= MSEC_PER_DAY then (day + 1, 0) else (day, msec)
  }

  function Join(day: int, msec: int): real {
    day as real + msec as real / MSEC_PER_DAY as real
  }

  /** Splitting a rejoined pair gives the pair back, exactly. */
  lemma SplitOfJoin(day: int, msec: int)
    requires 0 <= msec < MSEC_PER_DAY
    ensures Split(Join(day, msec)) == (day, msec)
  {
    var fraction := msec as real / MSEC_PER_DAY as real;
    assert 0.0 <= fraction < 1.0;
    assert Join(day, msec).Floor == day;
    assert fraction * MSEC_PER_DAY as real == msec as real;
    assert Round(msec as real) == msec;
  }

  /** Rejoining a split date moves it by at most half a millisecond. */
  lemma JoinOfSplit(stored: real)
    ensures var moved := (Join(Split(stored).0, Split(stored).1) - stored) * MSEC_PER_DAY as real;
            -0.5 <= moved <= 0.5
  {
    var day := stored.Floor;
    var exact := (stored - day as real) * MSEC_PER_DAY as real;
    var msec := Round(exact);
    assert exact - 0.5 <= msec as real <= exact + 0.5;
    if msec >= MSEC_PER_DAY {
      assert exact < MSEC_PER_DAY as real;
      assert msec == MSEC_PER_DAY;
    }
    assert Join(day, msec) * MSEC_PER_DAY as real == day as real * MSEC_PER_DAY as real + msec as real;
  }
}
