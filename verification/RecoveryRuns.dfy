/** Putting runs together, an event at a time. */
module RecoveryRuns {
  import opened Recovery

  /** A run that stays within the session. */
  predicate NoDisconnect(es: seq<Event>) {
    forall e: Event :: e in es ==> !e.DropDisconnected?
  }

  lemma {:induction false} Append(w: World, cfg: Settings, es: seq<Event>, e: Event)
    requires Admissible(w, cfg, es) && Enabled(Exec(w, cfg, es), e)
    ensures Admissible(w, cfg, es + [e]) && Exec(w, cfg, es + [e]) == Step(Exec(w, cfg, es), cfg, e)
    decreases |es|
  {
    if es == [] {
      assert (es + [e])[1..] == [];
    } else {
      Append(Step(w, cfg, es[0]), cfg, es[1..], e);
      assert (es + [e])[1..] == es[1..] + [e];
    }
  }

  /** The last event of a run. */
  lemma {:induction false} Split(w: World, cfg: Settings, es: seq<Event>)
    requires Admissible(w, cfg, es) && es != []
    ensures var init, last := es[..|es| - 1], es[|es| - 1];
            && Admissible(w, cfg, init) && Enabled(Exec(w, cfg, init), last)
            && Exec(w, cfg, es) == Step(Exec(w, cfg, init), cfg, last)
    decreases |es|
  {
    var init := es[..|es| - 1];
    if |es| == 1 {
      assert es[1..] == [] && init == [];
    } else {
      Split(Step(w, cfg, es[0]), cfg, es[1..]);
      assert es[1..][..|es| - 2] == init[1..];
    }
  }

  // --- worlds that a run from the start reaches ---

  ghost predicate Reaches(cfg: Settings, w: World) {
    exists es :: Admissible(INIT, cfg, es) && Exec(INIT, cfg, es) == w
  }

  lemma Start(cfg: Settings)
    ensures Reaches(cfg, INIT)
  {
    assert Admissible(INIT, cfg, []) && Exec(INIT, cfg, []) == INIT;
  }

  lemma Go(cfg: Settings, w: World, e: Event) returns (v: World)
    requires Reaches(cfg, w) && Enabled(w, e)
    ensures v == Step(w, cfg, e) && Reaches(cfg, v)
  {
    var es :| Admissible(INIT, cfg, es) && Exec(INIT, cfg, es) == w;
    Append(INIT, cfg, es, e);
    v := Step(w, cfg, e);
  }

  // --- worlds that a session goes on to ---

  ghost predicate Leads(cfg: Settings, w: World, v: World) {
    exists es :: Admissible(w, cfg, es) && NoDisconnect(es) && Exec(w, cfg, es) == v
  }

  lemma Stay(cfg: Settings, w: World)
    ensures Leads(cfg, w, w)
  {
    assert Admissible(w, cfg, []) && NoDisconnect([]) && Exec(w, cfg, []) == w;
  }

  lemma Then(cfg: Settings, w: World, v: World, e: Event) returns (u: World)
    requires Leads(cfg, w, v) && Enabled(v, e) && !e.DropDisconnected?
    ensures u == Step(v, cfg, e) && Leads(cfg, w, u)
  {
    var es :| Admissible(w, cfg, es) && NoDisconnect(es) && Exec(w, cfg, es) == v;
    Append(w, cfg, es, e);
    assert NoDisconnect(es + [e]);
    u := Step(v, cfg, e);
  }

  /** A REST client that has a token can be made ready, by reconnecting if need be. */
  lemma MakeReady(cfg: Settings, w: World, v: World) returns (u: World)
    requires Leads(cfg, w, v) && v.fault.None? && v.rest.hasToken
    ensures Leads(cfg, w, u) && u.rest.status == READY
    ensures u == v.(rest := v.rest.(status := u.rest.status, stage := u.rest.stage), restUp := u.restUp)
    ensures u == v || u.rest.stage == REST_DONE
  {
    if v.rest.status == READY {
      u := v;
    } else if v.restUp {
      u := Then(cfg, w, v, RestDisconnected);
      u := Then(cfg, w, u, RestConnected);
    } else {
      u := Then(cfg, w, v, RestConnected);
    }
  }

  /** A limiter that allows one slot serves that slot only. */
  lemma OnlyServes(r: RestCore, n: Name)
    requires r.rest.status == READY && n != STALE_ORDERS
    ensures RestOnTimer(r, true, {n}, {}) == CheckPending(r, n, {n})
  {
    hide CheckPending;
    var q := CheckPending(r, n, {n});
    forall m: Name | m != n && m != STALE_ORDERS
      ensures CheckPending(r, m, {n}) == r && CheckPending(q, m, {n}) == q
    {
      NotAllowed(r, m, n);
      NotAllowed(q, m, n);
    }
  }

  lemma NotAllowed(r: RestCore, m: Name, n: Name)
    requires m != n
    ensures CheckPending(r, m, {n}) == r
  {
  }
}
