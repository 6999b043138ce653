/**
 The ping scheduler that the three websocket clients share: a tick of the timer sends a ping
 when the scheduled time has passed, and schedules the next one half an interval later.
 */
module Ping {

  /** Scheduling test of the timer handlers. */
  predicate Due(next: int, now: int) {
    next < now
  }

  /** `send_ping`: time of the next ping (integer nanoseconds, so the half is truncated). */
  function Next(now: int, frequency: nat): int {
    now + frequency / 2
  }

  // --- a session, as the times at which its timer found it ready ---

  /** The pings that these ticks send. */
  function PingsOf(ticks: seq<int>, frequency: nat): seq<int> {
    if ticks == [] then []
    else
      var before := PingsOf(ticks[..|ticks| - 1], frequency);
      var now := ticks[|ticks| - 1];
      if Due(Scheduled(before, frequency), now) then before + [now] else before
  }

  /** What is scheduled after these pings; a session starts at zero. */
  function Scheduled(pings: seq<int>, frequency: nat): int {
    if pings == [] then 0 else Next(pings[|pings| - 1], frequency)
  }

  predicate Spaced(pings: seq<int>, gap: int) {
    forall i :: 0 < i < |pings| ==> pings[i] - pings[i - 1] > gap
  }

  /** Consecutive pings are more than half an interval apart. */
  lemma {:induction false} PingsAreSpaced(ticks: seq<int>, frequency: nat)
    ensures Spaced(PingsOf(ticks, frequency), frequency / 2)
  {
    if ticks != [] {
      PingsAreSpaced(ticks[..|ticks| - 1], frequency);
    }
  }

  /** The pings i to j span at least the gap and a tick for each step. */
  lemma {:induction false} PingsInWindow(pings: seq<int>, gap: int, i: nat, j: nat)
    requires Spaced(pings, gap) && i <= j < |pings|
    ensures (j - i) * (gap + 1) <= pings[j] - pings[i]
    decreases j
  {
    if i < j {
      PingsInWindow(pings, gap, i, j - 1);
      assert (j - i) * (gap + 1) == (j - 1 - i) * (gap + 1) + (gap + 1);
    }
  }

  /** Ticks never go back and are at most `d` apart. */
  predicate Regular(ticks: seq<int>, d: nat) {
    forall i :: 0 < i < |ticks| ==> 0 <= ticks[i] - ticks[i - 1] <= d
  }

  predicate Within(pings: seq<int>, gap: int) {
    forall i :: 0 < i < |pings| ==> pings[i] - pings[i - 1] <= gap
  }

  /** A regular session pings at least this often, up to its last tick; times are positive. */
  predicate Frequent(ticks: seq<int>, pings: seq<int>, frequency: nat, d: nat) {
    && Within(pings, frequency / 2 + d)
    && (ticks != [] ==>
          var last := ticks[|ticks| - 1];
          if pings == [] then last <= 0 else last - pings[|pings| - 1] <= frequency / 2)
  }

  /**
   With regular ticks, consecutive pings are at most half an interval and one tick apart, and at
   the last tick the latest ping is at most half an interval old.
   */
  lemma {:induction false} PingsAreFrequent(ticks: seq<int>, frequency: nat, d: nat)
    requires Regular(ticks, d)
    ensures Frequent(ticks, PingsOf(ticks, frequency), frequency, d)
  {
    if ticks != [] {
      var init := ticks[..|ticks| - 1];
      PingsAreFrequent(init, frequency, d);
      if init != [] {
        assert ticks[|ticks| - 1] - ticks[|init| - 1] <= d;
      }
    }
  }

  /** Both bounds on the pings of a session, and that no gap reaches the interval of the server. */
  ghost predicate Punctual(ticks: seq<int>, pings: seq<int>, frequency: nat) {
    && Spaced(pings, frequency / 2)
    && (forall d: nat :: Regular(ticks, d) ==> Frequent(ticks, pings, frequency, d))
    && (forall d: nat :: Regular(ticks, d) && d < frequency / 2 ==> Within(pings, frequency - 1))
  }

  /** A session that pings as its ready ticks ask is punctual. */
  lemma PingsArePunctual(ticks: seq<int>, frequency: nat)
    ensures Punctual(ticks, PingsOf(ticks, frequency), frequency)
  {
    PingsAreSpaced(ticks, frequency);
    forall d: nat | Regular(ticks, d)
      ensures Frequent(ticks, PingsOf(ticks, frequency), frequency, d)
      ensures d < frequency / 2 ==> Within(PingsOf(ticks, frequency), frequency - 1)
    {
      PingsAreFrequent(ticks, frequency, d);
    }
  }
}
