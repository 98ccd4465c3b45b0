/** The market maker's write pacer: each write reserves a time slot, and a server's back-off moves later
    slots out. Times and durations are whole numbers; the clock is whatever each call reads, and may
    step back between calls. */
module Pacer {

  function Max(a: int, b: int): int {
    if a < b then b else a
  }

  class WritePacer {
    const minInterval: int
    var nextAllowed: int

    constructor (minInterval: int)
      ensures this.minInterval == minInterval && nextAllowed == 0
    {
      this.minInterval := minInterval;
      nextAllowed := 0;
    }

    /** Reserve a slot and say how long to sleep. A pacer without an interval reserves nothing. */
    method Wait(now: int) returns (delay: int, ghost slot: int)
      modifies this
      ensures Step(minInterval, old(nextAllowed), Write(now)) == nextAllowed
      ensures minInterval > 0 ==> slot == now + delay == SlotOf(old(nextAllowed), now) && delay >= 0
      ensures minInterval <= 0 ==> delay == 0
    {
      if minInterval <= 0 {
        return 0, now;
      }
      var reserveAt := now;
      if nextAllowed > reserveAt {
        reserveAt := nextAllowed;
      }
      delay := reserveAt - now;
      slot := reserveAt;
      nextAllowed := reserveAt + minInterval;
    }

    method PushBack(now: int, delay: int)
      modifies this
      ensures Step(minInterval, old(nextAllowed), Defer(now, delay)) == nextAllowed
    {
      if delay <= 0 {
        return;
      }
      var until := now + delay;
      if until > nextAllowed {
        nextAllowed := until;
      }
    }
  }

  // ---------------------------------------------------------------- any interleaving of calls

  datatype Call = Write(now: int) | Defer(now: int, delay: int)

  function SlotOf(next: int, now: int): int {
    Max(now, next)
  }

  function Step(interval: int, next: int, c: Call): int {
    match c
    case Write(now) => if interval <= 0 then next else SlotOf(next, now) + interval
    case Defer(now, delay) => if delay <= 0 then next else Max(next, now + delay)
  }

  function NextAfter(interval: int, calls: seq<Call>): int {
    if calls == [] then 0 else Step(interval, NextAfter(interval, calls[..|calls| - 1]), calls[|calls| - 1])
  }

  /** The back-offs of a history. */
  function Defers(calls: seq<Call>): seq<Call> {
    if calls == [] then []
    else
      var last := calls[|calls| - 1];
      Defers(calls[..|calls| - 1]) + (if last.Defer? then [last] else [])
  }

  /** Without an interval writes reserve nothing: only back-offs tell. */
  lemma {:induction false} NothingReserved(interval: int, calls: seq<Call>)
    requires interval <= 0
    ensures NextAfter(interval, calls) == NextAfter(interval, Defers(calls))
  {
    if calls != [] {
      var before, last := calls[..|calls| - 1], calls[|calls| - 1];
      NothingReserved(interval, before);
      if last.Defer? {
        assert (Defers(before) + [last])[..|Defers(before)|] == Defers(before);
      } else {
        assert Defers(before) + [] == Defers(before);
      }
    }
  }

  /** The slot reserved by the write at place i of the history. */
  function Slot(interval: int, calls: seq<Call>, i: nat): int
    requires i < |calls| && calls[i].Write?
  {
    SlotOf(NextAfter(interval, calls[..i]), calls[i].now)
  }

  lemma {:induction false} NextGrows(interval: int, calls: seq<Call>, i: nat, j: nat)
    requires interval > 0 && i <= j <= |calls|
    ensures NextAfter(interval, calls[..i]) <= NextAfter(interval, calls[..j])
    decreases j
  {
    if i < j {
      NextGrows(interval, calls, i, j - 1);
      assert calls[..j][..j - 1] == calls[..j - 1];
    }
  }

  /** Any two slots of a history are at least the interval apart, in call order. */
  lemma SlotsSpaced(interval: int, calls: seq<Call>, i: nat, j: nat)
    requires interval > 0 && i < j < |calls| && calls[i].Write? && calls[j].Write?
    ensures Slot(interval, calls, j) >= Slot(interval, calls, i) + interval
  {
    NextGrows(interval, calls, i + 1, j);
    assert calls[..i + 1][..i] == calls[..i];
  }

  /** No slot reserved after a back-off comes before its end, nor before the call itself. */
  lemma BackOffHeld(interval: int, calls: seq<Call>, i: nat, j: nat)
    requires interval > 0 && i < j < |calls| && calls[i].Defer? && calls[i].delay > 0 && calls[j].Write?
    ensures Slot(interval, calls, j) >= calls[i].now + calls[i].delay
    ensures Slot(interval, calls, j) >= calls[j].now
  {
    NextGrows(interval, calls, i + 1, j);
    assert calls[..i + 1][..i] == calls[..i];
  }

  /** What an earlier call forbids to a later write: anything before this time. */
  function Bar(interval: int, calls: seq<Call>, i: nat): int
    requires i < |calls|
  {
    match calls[i]
    case Write(_) => Slot(interval, calls, i) + interval
    case Defer(now, delay) => now + delay
  }

  predicate Bars(c: Call) {
    c.Write? || c.delay > 0
  }

  /** And no slot is later than it must be: it is the time of the call, or the zero time, or exactly
      where some earlier call put the bar. */
  lemma {:induction false} NextIsSomeBar(interval: int, calls: seq<Call>, k: nat)
    requires interval > 0 && k <= |calls|
    ensures NextAfter(interval, calls[..k]) == 0
            || exists i :: 0 <= i < k && Bars(calls[i]) && NextAfter(interval, calls[..k]) == Bar(interval, calls, i)
    decreases k
  {
    if k > 0 {
      NextIsSomeBar(interval, calls, k - 1);
      assert calls[..k][..k - 1] == calls[..k - 1];
      var before, after := NextAfter(interval, calls[..k - 1]), NextAfter(interval, calls[..k]);
      if after == before {
        if before != 0 {
          var i :| 0 <= i < k - 1 && Bars(calls[i]) && before == Bar(interval, calls, i);
          assert 0 <= i < k && Bars(calls[i]);
        }
      } else {
        assert Bars(calls[k - 1]) && after == Bar(interval, calls, k - 1);
      }
    }
  }

  lemma SlotIsEarliest(interval: int, calls: seq<Call>, j: nat)
    requires interval > 0 && j < |calls| && calls[j].Write?
    ensures var slot := Slot(interval, calls, j);
            || slot == calls[j].now || slot == 0
            || exists i :: 0 <= i < j && Bars(calls[i]) && slot == Bar(interval, calls, i)
  {
    NextIsSomeBar(interval, calls, j);
  }
}
