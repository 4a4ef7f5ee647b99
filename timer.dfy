/**
 * Timer: accumulates the time between successive Tick calls while it is
 * running. The high-resolution clock is an input: every method that reads
 * it takes the reading (in clock ticks) as a parameter, one per read.
 */
module Timer {

  /** The sum of the gaps between consecutive clock readings, starting from `start`. */
  function Elapsed(start: int, readings: seq<int>): int
    decreases |readings|
  {
    if readings == [] then 0
    else Elapsed(start, readings[..|readings| - 1]) + (readings[|readings| - 1] - Last(start, readings[..|readings| - 1]))
  }

  /** The latest reading, or `start` before any. */
  function Last(start: int, readings: seq<int>): int
  {
    if readings == [] then start else readings[|readings| - 1]
  }

  predicate NonDecreasing(start: int, readings: seq<int>)
  {
    && (forall i | 0 < i < |readings| :: readings[i - 1] <= readings[i])
    && (readings != [] ==> start <= readings[0])
  }

  /** The gaps telescope: together they span from `start` to the latest reading. */
  lemma {:induction false} ElapsedTelescopes(start: int, readings: seq<int>)
    ensures Elapsed(start, readings) == Last(start, readings) - start
    decreases |readings|
  {
    if readings != [] {
      ElapsedTelescopes(start, readings[..|readings| - 1]);
    }
  }

  /** Under a clock that never goes back, the elapsed time is never negative and grows with each reading. */
  lemma {:induction false} ElapsedMonotone(start: int, readings: seq<int>)
    requires NonDecreasing(start, readings)
    ensures Elapsed(start, readings) >= 0
    ensures forall k | 0 <= k <= |readings| :: Elapsed(start, readings[..k]) <= Elapsed(start, readings)
  {
    ElapsedTelescopes(start, readings);
    forall k | 0 <= k <= |readings|
      ensures Elapsed(start, readings[..k]) <= Elapsed(start, readings)
    {
      ElapsedTelescopes(start, readings[..k]);
      if k == |readings| {
        assert readings[..k] == readings;
      } else if k > 0 {
        NonDecreasingLast(start, readings, k - 1);
      } else {
        NonDecreasingLast(start, readings, 0);
      }
    }
    if readings != [] {
      NonDecreasingLast(start, readings, 0);
    }
  }

  /** In a non-decreasing run every reading is at least the ones before it, the last one included. */
  lemma {:induction false} NonDecreasingLast(start: int, readings: seq<int>, i: nat)
    requires NonDecreasing(start, readings)
    requires i < |readings|
    ensures start <= readings[i] <= readings[|readings| - 1]
    decreases |readings| - i
  {
    if i + 1 < |readings| {
      NonDecreasingLast(start, readings, i + 1);
    }
    if i > 0 {
      NonDecreasingStart(start, readings, i);
    }
  }

  lemma {:induction false} NonDecreasingStart(start: int, readings: seq<int>, i: nat)
    requires NonDecreasing(start, readings)
    requires i < |readings|
    ensures start <= readings[i]
    decreases i
  {
    if i > 0 {
      NonDecreasingStart(start, readings, i - 1);
    }
  }

  class Timer {
    var running: bool
    var previous: int
    var current: int
    var duration: int

    /** A new timer is stopped, with nothing accumulated and both timestamps read from the clock. */
    constructor (firstReading: int, secondReading: int)
      ensures !running && duration == 0
      ensures previous == firstReading && current == secondReading
    {
      running := false;
      previous, current := firstReading, secondReading;
      duration := 0;
    }

    /**
     * While running, the last timestamp becomes the previous one, the clock
     * is read into the current one and the gap is added to the duration;
     * a stopped timer is left exactly as it was.
     */
    method Tick(now: int)
      modifies this
      ensures running == old(running)
      ensures old(running) ==> previous == old(current) && current == now && duration == old(duration) + (now - old(current))
      ensures !old(running) ==> previous == old(previous) && current == old(current) && duration == old(duration)
      ensures now >= old(current) ==> duration >= old(duration)
    {
      if running {
        previous := current;
        current := now;
        duration := duration + (current - previous);
      }
    }

    method Start()
      modifies this`running
      ensures running
    {
      running := true;
    }

    method Stop()
      modifies this`running
      ensures !running
    {
      running := false;
    }

    /** Clears the duration and reads the clock into both timestamps; running or not stays as it was. */
    method Reset(firstReading: int, secondReading: int)
      modifies this`previous, this`current, this`duration
      ensures previous == firstReading && current == secondReading && duration == 0
    {
      previous, current := firstReading, secondReading;
      duration := 0;
    }

    /**
     * A run of ticks on a running timer adds exactly the time from the last
     * timestamp to the latest reading; with a clock that never goes back,
     * the duration never decreases along the way.
     */
    method TickAll(readings: seq<int>)
      requires running
      modifies this
      ensures running && current == Last(old(current), readings)
      ensures duration == old(duration) + Elapsed(old(current), readings)
      ensures duration == old(duration) + (Last(old(current), readings) - old(current))
      ensures NonDecreasing(old(current), readings) ==> duration >= old(duration)
    {
      ElapsedTelescopes(current, readings);
      if NonDecreasing(current, readings) {
        ElapsedMonotone(current, readings);
      }
      ghost var start := current;
      ghost var base := duration;
      for i := 0 to |readings|
        invariant running
        invariant current == Last(start, readings[..i])
        invariant duration == base + Elapsed(start, readings[..i])
      {
        assert readings[..i + 1][..i] == readings[..i];
        Tick(readings[i]);
      }
      assert readings[..|readings|] == readings;
    }
  }
}
