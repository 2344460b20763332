/** The simulation clock: a tick counter that starts at 0 and moves forward
    by one per simulated second. */
module Clock {
  class SimClock {
    var tick: int

    constructor ()
      ensures tick == 0
    {
      tick := 0;
    }

    /** `advance`. */
    method Advance()
      modifies this
      ensures tick == old(tick) + 1
    {
      tick := tick + 1;
    }

    /** `current`: reads the tick and changes nothing. */
    method Current() returns (t: int)
      ensures t == tick
    {
      t := tick;
    }
  }

  /** The driver's use of the clock: a fresh clock advanced once per tick of
      the run reads, before each advance, the number of ticks already run. */
  method RunTicks(n: nat) returns (readings: seq<int>, final: int)
    ensures |readings| == n && forall k :: 0 <= k < n ==> readings[k] == k
    ensures final == n
  {
    var clock := new SimClock();
    readings := [];
    var k := 0;
    while k < n
      invariant 0 <= k <= n && clock.tick == k
      invariant |readings| == k && forall j :: 0 <= j < k ==> readings[j] == j
    {
      var t := clock.Current();
      readings := readings + [t];
      clock.Advance();
      k := k + 1;
    }
    final := clock.Current();
  }
}
