/**
 The back-off state of the REST interceptor: a blocked response (403) suspends for ten minutes,
 the first rate-limited response (429) for five seconds.
 */
module Throttle {

  const DEFAULT_BACKOFF: nat := 5_000_000_000
  const BLOCKED_BACKOFF: nat := 600_000_000_000

  const FORBIDDEN: nat := 403
  const TOO_MANY_REQUESTS: nat := 429

  datatype Response = Response(status: nat, now: nat)

  function Max(a: int, b: int): int {
    if a < b then b else a
  }

  function OnMessageEnd(suspendUntil: int, r: Response): int {
    if r.status == FORBIDDEN then Max(suspendUntil, r.now + BLOCKED_BACKOFF)
    else if r.status == TOO_MANY_REQUESTS && suspendUntil == 0 then r.now + DEFAULT_BACKOFF
    else suspendUntil
  }

  /** The state after a history of responses. */
  function After(h: seq<Response>): int {
    if h == [] then 0 else OnMessageEnd(After(h[..|h| - 1]), h[|h| - 1])
  }

  predicate Clock(h: seq<Response>) {
    forall i, j :: 0 <= i < j < |h| ==> h[i].now <= h[j].now
  }

  predicate LastOf(h: seq<Response>, status: nat, i: int) {
    0 <= i < |h| && h[i].status == status && forall j :: i < j < |h| ==> h[j].status != status
  }

  predicate FirstOf(h: seq<Response>, status: nat, i: int) {
    0 <= i < |h| && h[i].status == status && forall j :: 0 <= j < i ==> h[j].status != status
  }

  predicate Never(h: seq<Response>, status: nat) {
    forall j :: 0 <= j < |h| ==> h[j].status != status
  }

  /** What suspension means, in terms of the whole history; times are nanoseconds. */
  ghost predicate ClosedForm(h: seq<Response>, suspendUntil: int) {
    && (forall i :: LastOf(h, 403, i) ==> suspendUntil == h[i].now + 600_000_000_000)
    && (Never(h, 403) ==>
          && (forall i :: FirstOf(h, 429, i) ==> suspendUntil == h[i].now + 5_000_000_000)
          && (Never(h, 429) ==> suspendUntil == 0))
  }

  /** The incremental state is the closed form of the history, for a clock that never goes back. */
  lemma {:induction false} StateIsClosedForm(h: seq<Response>)
    requires Clock(h)
    ensures ClosedForm(h, After(h))
  {
    if h != [] {
      hide ClosedForm;
      hide OnMessageEnd;
      var init, r := h[..|h| - 1], h[|h| - 1];
      assert init + [r] == h;
      assert Clock(init) by {
        assert forall j :: 0 <= j < |init| ==> init[j] == h[j];
      }
      StateIsClosedForm(init);
      Extends(init, r);
    }
  }

  lemma Extends(init: seq<Response>, r: Response)
    requires ClosedForm(init, After(init)) && Clock(init + [r])
    ensures ClosedForm(init + [r], OnMessageEnd(After(init), r))
  {
    var h := init + [r];
    assert h[|init|] == r;
    assert forall j :: 0 <= j < |init| ==> h[j] == init[j] && h[j].now <= h[|init|].now;
    var after := OnMessageEnd(After(init), r);
    forall i | LastOf(h, FORBIDDEN, i) ensures after == h[i].now + BLOCKED_BACKOFF {
      if i == |init| {
        StateIsBounded(init, r.now);
      } else {
        assert LastOf(init, FORBIDDEN, i);
        assert h[|init|].status != FORBIDDEN;
      }
    }
    if Never(h, FORBIDDEN) {
      assert h[|init|].status != FORBIDDEN;
      assert Never(init, FORBIDDEN);
      forall i | FirstOf(h, TOO_MANY_REQUESTS, i) ensures after == h[i].now + DEFAULT_BACKOFF {
        if i == |init| {
          assert Never(init, TOO_MANY_REQUESTS);
        } else {
          assert FirstOf(init, TOO_MANY_REQUESTS, i);
        }
      }
      if Never(h, TOO_MANY_REQUESTS) {
        assert h[|init|].status != TOO_MANY_REQUESTS;
        assert Never(init, TOO_MANY_REQUESTS);
      }
    }
  }

  /** The suspension never reaches past ten minutes from the clock, so a new 403 always wins. */
  lemma {:induction false} StateIsBounded(h: seq<Response>, now: nat)
    requires forall i :: 0 <= i < |h| ==> h[i].now <= now
    ensures 0 <= After(h) <= now + BLOCKED_BACKOFF
  {
    if h != [] {
      StateIsBounded(h[..|h| - 1], now);
    }
  }

  /** The suspension never moves back, even if the clock does. */
  lemma NeverDecreases(h: seq<Response>, r: Response)
    ensures After(h) <= After(h + [r])
  {
    assert (h + [r])[..|h|] == h;
    ZeroMeansNone(h);
  }

  /**
   After the first suspension a rate-limited response no longer extends it, however long ago that
   was: once any 403 or 429 has been seen, the state changes only on a 403.
   */
  lemma OnlyBlockedExtends(h: seq<Response>, r: Response)
    requires !Never(h, 403) || !Never(h, 429)
    requires r.status != 403
    ensures After(h + [r]) == After(h)
  {
    assert (h + [r])[..|h|] == h;
    ZeroMeansNone(h);
  }

  /**
   A rate-limited response therefore backs off by the default exactly if nothing was suspended
   before or the suspension already reaches that far; otherwise it leaves less, or none.
   */
  lemma RateLimitedBacksOffIff(h: seq<Response>, now: nat)
    ensures After(h + [Response(429, now)]) >= now + 5_000_000_000 <==>
            (Never(h, 403) && Never(h, 429)) || After(h) >= now + 5_000_000_000
  {
    assert (h + [Response(429, now)])[..|h|] == h;
    ZeroMeansNone(h);
  }

  /** Two such responses far apart: the second one leaves nothing suspended. */
  lemma SecondBackOffIsMissed(first: nat, second: nat)
    requires second > first + 5_000_000_000
    ensures After([Response(429, first), Response(429, second)]) < second
  {
    var a, b := Response(429, first), Response(429, second);
    assert [a, b][..1] == [a] && [a][..0] == [];
    assert After([]) == 0 && After([a]) == first + 5_000_000_000;
  }

  /** The state is zero exactly before the first 403 or 429. */
  lemma {:induction false} ZeroMeansNone(h: seq<Response>)
    ensures After(h) >= 0
    ensures After(h) == 0 <==> Never(h, 403) && Never(h, 429)
  {
    if h != [] {
      var init := h[..|h| - 1];
      ZeroMeansNone(init);
      assert forall j :: 0 <= j < |init| ==> init[j] == h[j];
      assert h[|h| - 1].status == FORBIDDEN || h[|h| - 1].status == TOO_MANY_REQUESTS || After(h) == After(init);
      if After(h) == After(init) == 0 {
        assert Never(init, FORBIDDEN) && Never(init, TOO_MANY_REQUESTS);
      }
      if Never(h, FORBIDDEN) && Never(h, TOO_MANY_REQUESTS) {
        assert h[|h| - 1].status != FORBIDDEN && h[|h| - 1].status != TOO_MANY_REQUESTS;
        assert Never(init, FORBIDDEN) && Never(init, TOO_MANY_REQUESTS);
      }
    }
  }

  class Throttle {
    const enabled: bool
    var suspendUntil: int
    ghost var history: seq<Response>

    ghost predicate Valid()
      reads this
    {
      suspendUntil == if enabled then After(history) else 0
    }

    constructor (enabled: bool)
      ensures Valid() && this.enabled == enabled && history == []
    {
      this.enabled, suspendUntil, history := enabled, 0, [];
    }

    /** `now` is the system clock, read only when the status asks for it. */
    method MessageEnd(status: nat, now: nat)
      requires Valid()
      modifies this
      ensures Valid() && history == old(history) + [Response(status, now)]
    {
      history := history + [Response(status, now)];
      assert history[..|history| - 1] == old(history);
      if !enabled {
        return;
      }
      if status == FORBIDDEN {
        suspendUntil := Max(suspendUntil, now + BLOCKED_BACKOFF);
      } else if status == TOO_MANY_REQUESTS {
        if suspendUntil == 0 {
          suspendUntil := now + DEFAULT_BACKOFF;
        }
      }
    }
  }
}
