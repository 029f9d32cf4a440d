/** The tunnel's bandwidth limiter. Times are whole nanoseconds; the transfer time of a write is its size
    over the rate, truncated to the nanosecond. */
module Bandwidth {

  const SECOND: int := 1_000_000_000

  datatype Call = Call(now: int, size: int)

  function Max(a: int, b: int): int { if a > b then a else b }

  /** The time a write of this size takes at this rate. */
  function Transfer(rate: int, size: int): (d: int)
    requires rate > 0 && size > 0
    ensures d >= 0 && rate * d <= size * SECOND < rate * (d + 1)
  {
    size * SECOND / rate
  }

  class Limiter {
    const rate: int
    var next: int

    constructor (bytesPerSecond: int)
      ensures rate == bytesPerSecond && next == 0
    {
      rate, next := bytesPerSecond, 0;
    }

    /** Books the next free slot. The caller sleeps until `start`; a call that is not limited books
        nothing. */
    method Wait(now: int, size: int) returns (start: int)
      modifies this
      ensures rate <= 0 || size <= 0 ==> start == now && next == old(next)
      ensures rate > 0 && size > 0 ==> start >= now && start >= old(next) && (start == now || start == old(next))
      ensures rate > 0 && size > 0 ==> rate * (next - start) <= size * SECOND < rate * (next - start + 1)
      ensures rate > 0 && size > 0 ==> next == After(rate, old(next), Call(now, size))
    {
      start := now;
      if rate <= 0 || size <= 0 { return; }
      if next > start { start := next; }
      next := start + Transfer(rate, size);
    }
  }

  function Start(next: int, c: Call): int { Max(c.now, next) }

  function After(rate: int, next: int, c: Call): int
    requires rate > 0
  {
    if c.size <= 0 then next else Start(next, c) + Transfer(rate, c.size)
  }

  /** The limiter's booking time after a sequence of calls, in the order it serialises them. */
  function NextAfter(rate: int, calls: seq<Call>): int
    requires rate > 0
  {
    if calls == [] then 0 else After(rate, NextAfter(rate, calls[..|calls| - 1]), calls[|calls| - 1])
  }

  /** When the last call of a sequence may start. */
  function LastStart(rate: int, calls: seq<Call>): int
    requires rate > 0 && calls != []
  {
    Start(NextAfter(rate, calls[..|calls| - 1]), calls[|calls| - 1])
  }

  /** The last call is limited and starts in the window. */
  predicate LastInside(rate: int, calls: seq<Call>, from: int, length: int)
    requires rate > 0 && calls != []
  {
    calls[|calls| - 1].size > 0 && from <= LastStart(rate, calls) < from + length
  }

  /** The bytes, and the number, of limited calls that start in the window. */
  function BytesInside(rate: int, calls: seq<Call>, from: int, length: int): int
    requires rate > 0
  {
    if calls == [] then 0
    else
      BytesInside(rate, calls[..|calls| - 1], from, length)
      + (if LastInside(rate, calls, from, length) then calls[|calls| - 1].size else 0)
  }

  function CallsInside(rate: int, calls: seq<Call>, from: int, length: int): nat
    requires rate > 0
  {
    if calls == [] then 0
    else
      CallsInside(rate, calls[..|calls| - 1], from, length) + (if LastInside(rate, calls, from, length) then 1 else 0)
  }

  lemma {:induction false} NextMonotone(rate: int, calls: seq<Call>)
    requires rate > 0 && calls != []
    ensures NextAfter(rate, calls[..|calls| - 1]) <= NextAfter(rate, calls)
  {
  }

  lemma MulMonotone(rate: int, a: int, b: int)
    requires rate > 0 && a <= b
    ensures rate * a <= rate * b
  {
  }

  /** What the calls in the window have transferred was booked between its beginning and the limiter's
      next free time, give or take one nanosecond a call. */
  lemma {:induction false} BookedWithin(rate: int, calls: seq<Call>, from: int, length: int)
    requires rate > 0
    ensures CallsInside(rate, calls, from, length) == 0 ==> BytesInside(rate, calls, from, length) == 0
    ensures CallsInside(rate, calls, from, length) > 0 ==>
              BytesInside(rate, calls, from, length) * SECOND
              <= rate * (NextAfter(rate, calls) - from + CallsInside(rate, calls, from, length))
  {
    if calls != [] {
      var before := calls[..|calls| - 1];
      var c := calls[|calls| - 1];
      BookedWithin(rate, before, from, length);
      var n := CallsInside(rate, before, from, length);
      if LastInside(rate, calls, from, length) {
        var d := Transfer(rate, c.size);
        var start := LastStart(rate, calls);
        MulMonotone(rate, if n == 0 then 0 else NextAfter(rate, before) - from + n, start - from + n);
        assert rate * (start + d - from + n + 1) == rate * (start - from + n) + rate * (d + 1);
        assert (BytesInside(rate, before, from, length) + c.size) * SECOND
            == BytesInside(rate, before, from, length) * SECOND + c.size * SECOND;
      } else if n > 0 {
        NextMonotone(rate, calls);
        MulMonotone(rate, NextAfter(rate, before) - from + n, NextAfter(rate, calls) - from + n);
      }
    }
  }

  /** The bandwidth bound, for any calls with any clock readings: in any window of length T the bytes whose
      transfer starts in it are at most rate*T, plus one write, with at most one nanosecond of truncation
      for each further call. Stated where the last call of the sequence is the last one in the window. */
  lemma WindowBound(rate: int, calls: seq<Call>, from: int, length: int)
    requires rate > 0 && calls != [] && LastInside(rate, calls, from, length)
    ensures BytesInside(rate, calls, from, length) * SECOND
            <= rate * (length + CallsInside(rate, calls, from, length) - 1) + calls[|calls| - 1].size * SECOND
  {
    var before := calls[..|calls| - 1];
    BookedWithin(rate, before, from, length);
    var n := CallsInside(rate, before, from, length);
    MulMonotone(rate, if n == 0 then 0 else NextAfter(rate, before) - from + n, length + n);
  }

  /** The last call in the window, if there is one; what follows it adds nothing. */
  lemma {:induction false} LastOfWindow(rate: int, calls: seq<Call>, from: int, length: int) returns (k: nat)
    requires rate > 0 && CallsInside(rate, calls, from, length) > 0
    ensures 0 < k <= |calls| && LastInside(rate, calls[..k], from, length)
    ensures BytesInside(rate, calls[..k], from, length) == BytesInside(rate, calls, from, length)
    ensures CallsInside(rate, calls[..k], from, length) == CallsInside(rate, calls, from, length)
  {
    if LastInside(rate, calls, from, length) {
      k := |calls|;
      assert calls[..k] == calls;
    } else {
      var before := calls[..|calls| - 1];
      k := LastOfWindow(rate, before, from, length);
      assert before[..k] == calls[..k];
    }
  }

  /** The bound for every window of every run: some one write of the run is the allowed excess. */
  lemma AnyWindowBound(rate: int, calls: seq<Call>, from: int, length: nat) returns (k: nat)
    requires rate > 0 && calls != []
    ensures k < |calls|
    ensures BytesInside(rate, calls, from, length) * SECOND
            <= rate * (length + CallsInside(rate, calls, from, length)) + Max(calls[k].size, 0) * SECOND
  {
    var n := CallsInside(rate, calls, from, length);
    BookedWithin(rate, calls, from, length);
    if n == 0 {
      k := 0;
      MulMonotone(rate, 0, length);
    } else {
      var last := LastOfWindow(rate, calls, from, length);
      k := last - 1;
      WindowBound(rate, calls[..last], from, length);
      MulMonotone(rate, length + n - 1, length + n);
    }
  }
}
