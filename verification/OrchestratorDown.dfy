/** Destroy handlers and the shutdown routine keep the orchestrator's invariants. */
module OrchestratorDown {
  import opened Options
  import opened Lifecycle
  import opened Orchestrator
  import opened OrchestratorInv
  import opened OrchestratorNet
  import opened OrchestratorCreate

  // ---------------------------------------------- steps on no sandbox yet

  /** A teardown thread that holds no sandbox before or after its step. */
  lemma EmptyHanded(s: State, t: nat, p: DownPc)
    requires Inv(s) && DownRefs(p) == {} && !Busy(p) && t <= s.nextTid
    requires t in s.desk.downs ==> DownRefs(s.desk.downs[t]) == {}
    ensures Inv(SetDown(s.(nextTid := if t == s.nextTid then t + 1 else s.nextTid), t, p))
  {
    var s' := SetDown(s.(nextTid := if t == s.nextTid then t + 1 else s.nextTid), t, p);
    assert Identity(s') by { EmptyIdentity(s, t, p); }
    assert Ownership(s') by { EmptyOwnership(s, s', t, p); }
  }

  lemma EmptyIdentity(s: State, t: nat, p: DownPc)
    requires Identity(s) && DownRefs(p) == {} && t <= s.nextTid
    ensures Identity(SetDown(s.(nextTid := if t == s.nextTid then t + 1 else s.nextTid), t, p))
  {
  }

  lemma EmptyOwnership(s: State, s': State, t: nat, p: DownPc)
    requires Ownership(s) && DownRefs(p) == {} && !Busy(p)
    requires s'.sess == s.sess && s'.makers == s.makers && s'.host.procs == s.host.procs
    requires s'.desk == s.desk.(downs := s.desk.downs[t := p])
    ensures Ownership(s')
  {
    EmptyFresh(s, s', t, p);
    EmptyStages(s, s', t, p);
  }

  lemma EmptyFresh(s: State, s': State, t: nat, p: DownPc)
    requires RegisteredFresh(s) && InsertsFresh(s) && WaitingFresh(s) && CleanedOnce(s) && DownRefs(p) == {}
    requires s'.sess == s.sess && s'.makers == s.makers && s'.host.procs == s.host.procs
    requires s'.desk == s.desk.(downs := s.desk.downs[t := p])
    ensures RegisteredFresh(s') && InsertsFresh(s') && WaitingFresh(s') && CleanedOnce(s')
  {
    assert forall r :: Fresh(s, r) ==> Fresh(s', r);
  }

  lemma EmptyStages(s: State, s': State, t: nat, p: DownPc)
    requires StagesHold(s) && DownRefs(p) == {} && !Busy(p)
    requires s'.sess == s.sess && s'.makers == s.makers && s'.host.procs == s.host.procs
    requires s'.desk == s.desk.(downs := s.desk.downs[t := p])
    ensures StagesHold(s')
  {
    forall u | u in s'.desk.downs ensures AtStage(s', s'.desk.downs[u]) {
      if u != t { assert AtStage(s, s.desk.downs[u]); }
    }
  }

  // ------------------------------------------------- out of the registry

  /** Teardown thread `t` takes the sandboxes in DownRefs(p) from the registry. */
  ghost predicate Takes(d: Desk, d': Desk, t: nat, p: DownPc) {
    && t in d.downs && DownRefs(d.downs[t]) == {}
    && (p.Pick? || (p.Begin? && p.rest.None?))
    && d'.downs == d.downs[t := p] && d'.cleanups == d.cleanups
    && (forall key :: key in d'.registry ==> key in d.registry && d'.registry[key] == d.registry[key])
    && DownRefs(p) <= d.registry.Values
    && DownRefs(p) !! d'.registry.Values
  }

  lemma TakenFresh(s: State, p: DownPc, r: nat)
    requires RegisteredFresh(s) && r in s.desk.registry.Values
    ensures Fresh(s, r) && Settled(s.makers, r)
  {
  }

  lemma TakenOut'(d: Desk, d': Desk, m: Makers, t: nat, p: DownPc)
    requires TakenOut(d, m) && Disjoint(d.downs) && Takes(d, d', t, p)
    requires forall r :: r in DownRefs(p) ==> Settled(m, r)
    ensures TakenOut(d', m) && Disjoint(d'.downs)
  {
    assert d'.registry.Values <= d.registry.Values;
    assert forall u, r :: u in d.downs && r in DownRefs(d.downs[u]) ==> r !in d.registry.Values;
    forall u, r | u in d'.downs && r in DownRefs(d'.downs[u]) ensures Settled(m, r) && r !in d'.registry.Values {
      if u != t { assert r in DownRefs(d.downs[u]); }
    }
  }

  lemma TakenOwnership(s: State, s': State, t: nat, p: DownPc)
    requires Ownership(s) && Takes(s.desk, s'.desk, t, p)
    requires s'.sess == s.sess && s'.makers == s.makers && s'.host == s.host
    ensures Ownership(s')
  {
    assert forall r :: Fresh(s, r) ==> Fresh(s', r);
    forall r | r in DownRefs(p) ensures Fresh(s', r) && Settled(s.makers, r) { TakenFresh(s, p, r); }
    TakenOut'(s.desk, s'.desk, s.makers, t, p);
    assert RegisteredFresh(s') && InsertsFresh(s') && CleanedOnce(s');
    forall u, r | u in s'.desk.downs && r in Waiting(s'.desk.downs[u]) ensures Fresh(s', r) {
      if u == t { assert r in DownRefs(p); } else { assert r in Waiting(s.desk.downs[u]); }
    }
    forall u | u in s'.desk.downs ensures AtStage(s', s'.desk.downs[u]) {
      if u != t { assert AtStage(s, s.desk.downs[u]); } else if p.Begin? { assert p.r in DownRefs(p); }
    }
    assert StagesHold(s');
  }

  lemma TakenInv(s: State, d: Desk, t: nat, p: DownPc)
    requires Inv(s) && Takes(s.desk, d, t, p)
    ensures Inv(s.(desk := d))
  {
    var s' := s.(desk := d);
    assert Ownership(s') by { TakenOwnership(s, s', t, p); }
    assert Identity(s') by {
      forall r | r in DownRefs(p) ensures r in s.sess.lives { TakenFresh(s, p, r); }
    }
  }

  // ------------------------------------------------------- on a sandbox

  /** Everything the teardown conditions speak of is the same for other sandboxes. */
  ghost predicate OnlyTouches(s: State, s': State, r: nat) {
    && s'.sess.lives.Keys == s.sess.lives.Keys
    && s'.desk.cleanups.Keys == s.desk.cleanups.Keys
    && s'.makers.creators == s.makers.creators
    && s'.host.procs.Keys == s.host.procs.Keys
    && (forall q :: q in s.sess.lives && q != r ==> s'.sess.lives[q] == s.sess.lives[q])
    && (forall q :: q in s.desk.cleanups && q != r ==> s'.desk.cleanups[q] == s.desk.cleanups[q])
    && (forall q :: q in s.host.procs && q != r ==> s'.host.procs[q] == s.host.procs[q])
    && (forall q :: q != r ==> (q in s'.makers.nets <==> q in s.makers.nets))
    && (forall q :: q != r ==> (q in s'.sess.drained <==> q in s.sess.drained))
    && (forall q :: q != r ==> (q in s'.sess.cleared <==> q in s.sess.cleared))
  }

  lemma OthersKeep(s: State, s': State, r: nat)
    requires OnlyTouches(s, s', r)
    ensures forall q :: q != r && Fresh(s, q) ==> Fresh(s', q)
    ensures forall p :: AtStage(s, p) && (Busy(p) ==> p.r != r) ==> AtStage(s', p)
  {
  }

  /** Thread `t`, holding `r`, goes on to `p` without taking hold of another. */
  ghost predicate Advances(downs: map<nat, DownPc>, downs': map<nat, DownPc>, t: nat, p: DownPc, r: nat) {
    && t in downs && r in DownRefs(downs[t])
    && downs' == downs[t := p]
    && DownRefs(p) <= DownRefs(downs[t])
    && Waiting(p) <= Waiting(downs[t]) - {r}
    && (Busy(p) ==> p.r !in Waiting(p))
  }

  lemma AdvanceTaken(d: Desk, d': Desk, m: Makers, t: nat, p: DownPc, r: nat)
    requires TakenOut(d, m) && Disjoint(d.downs) && Advances(d.downs, d'.downs, t, p, r)
    requires d'.registry == d.registry
    ensures TakenOut(d', m) && Disjoint(d'.downs)
    ensures Settled(m, r) && r !in d.registry.Values
    ensures forall u :: u in d.downs && u != t ==> r !in DownRefs(d.downs[u])
  {
    forall u, q | u in d'.downs && q in DownRefs(d'.downs[u]) ensures Settled(m, q) && q !in d'.registry.Values {
      assert q in DownRefs(d.downs[u]);
    }
  }

  /** One teardown step on a sandbox the thread holds. */
  lemma DownOwnership(s: State, s': State, t: nat, p: DownPc, r: nat)
    requires Ownership(s) && Advances(s.desk.downs, s'.desk.downs, t, p, r)
    requires s'.desk.registry == s.desk.registry && OnlyTouches(s, s', r)
    requires AtStage(s', p) && CleanedOnce(s')
    ensures Ownership(s')
  {
    AdvanceTaken(s.desk, s'.desk, s.makers, t, p, r);
    TakenKept(s'.desk, s.makers, s'.makers);
    RegistryKept(s, s', r);
    WaitersKept(s, s', t, p, r);
    StagesKept(s, s', t, p, r);
  }

  lemma TakenKept(d: Desk, m: Makers, m': Makers)
    requires TakenOut(d, m) && m'.creators == m.creators
    ensures TakenOut(d, m')
  {
    assert forall q :: Settled(m, q) ==> Settled(m', q);
  }

  lemma RegistryKept(s: State, s': State, r: nat)
    requires RegisteredFresh(s) && InsertsFresh(s) && OnlyTouches(s, s', r)
    requires s'.desk.registry == s.desk.registry && s'.makers.creators == s.makers.creators
    requires Settled(s.makers, r) && r !in s.desk.registry.Values
    ensures RegisteredFresh(s') && InsertsFresh(s')
  {
    OthersKeep(s, s', r);
    assert forall q :: Settled(s.makers, q) <==> Settled(s'.makers, q);
  }

  lemma WaitersKept(s: State, s': State, t: nat, p: DownPc, r: nat)
    requires WaitingFresh(s) && Advances(s.desk.downs, s'.desk.downs, t, p, r)
    requires OnlyTouches(s, s', r)
    requires forall u :: u in s.desk.downs && u != t ==> r !in DownRefs(s.desk.downs[u])
    ensures WaitingFresh(s')
  {
    OthersKeep(s, s', r);
    forall u, q | u in s'.desk.downs && q in Waiting(s'.desk.downs[u]) ensures Fresh(s', q) {
      assert q in Waiting(s.desk.downs[u]) && (u != t ==> q in DownRefs(s.desk.downs[u]));
    }
  }

  lemma StagesKept(s: State, s': State, t: nat, p: DownPc, r: nat)
    requires StagesHold(s) && Advances(s.desk.downs, s'.desk.downs, t, p, r)
    requires OnlyTouches(s, s', r) && AtStage(s', p)
    requires forall u :: u in s.desk.downs && u != t ==> r !in DownRefs(s.desk.downs[u])
    ensures StagesHold(s')
  {
    OthersKeep(s, s', r);
    forall u | u in s'.desk.downs ensures AtStage(s', s'.desk.downs[u]) {
      if u != t {
        var q := s.desk.downs[u];
        assert AtStage(s, q);
        if Busy(q) { assert q.r in DownRefs(q); }
      }
    }
  }

  lemma DownIdentity(s: State, s': State, t: nat, p: DownPc, r: nat)
    requires Identity(s) && Advances(s.desk.downs, s'.desk.downs, t, p, r)
    requires s'.issued == s.issued && s'.nextTid == s.nextTid
    requires s'.sess.execs == s.sess.execs && s'.sess.snaps == s.sess.snaps
    requires s'.sess.lives.Keys == s.sess.lives.Keys && s'.sess.agents.Keys == s.sess.agents.Keys
    requires s'.desk.cleanups.Keys == s.desk.cleanups.Keys && s'.host.procs.Keys == s.host.procs.Keys
    requires s'.makers.creators == s.makers.creators && s'.makers.nets.Keys <= s.makers.nets.Keys
    requires s'.sess.cleared <= s.sess.cleared + {r}
    ensures Identity(s')
  {
    DownThreads(s, s', t, p, r);
  }

  lemma DownThreads(s: State, s': State, t: nat, p: DownPc, r: nat)
    requires Identity(s) && Advances(s.desk.downs, s'.desk.downs, t, p, r)
    requires s'.nextTid == s.nextTid && s'.sess.lives.Keys == s.sess.lives.Keys
    ensures r in s.sess.lives
    ensures forall u :: u in s'.desk.downs ==> u < s'.nextTid && DownRefs(s'.desk.downs[u]) <= s'.sess.lives.Keys
  {
    assert r in DownRefs(s.desk.downs[t]) && DownRefs(s.desk.downs[t]) <= s.sess.lives.Keys;
  }

  // ------------------------------------------------------ the single steps

  /** What a teardown step of thread t on `r` changes, and where it leads. */
  ghost predicate Front(s: State, s': State, t: nat, p: DownPc, r: nat) {
    && Advances(s.desk.downs, s'.desk.downs, t, p, r)
    && s'.issued == s.issued && s'.nextTid == s.nextTid
    && s'.sess.execs == s.sess.execs && s'.sess.snaps == s.sess.snaps
    && s'.sess.agents.Keys == s.sess.agents.Keys
    && s'.makers.nets.Keys <= s.makers.nets.Keys
    && s'.sess.cleared <= s.sess.cleared + {r}
    && s'.desk.registry == s.desk.registry && OnlyTouches(s, s', r)
    && AtStage(s', p) && CleanedOnce(s')
  }

  /** The thread is at a stage of its own on `r`. */
  ghost predicate Ready(s: State, t: nat, p: DownPc, r: nat) {
    && t in s.desk.downs && s.desk.downs[t] == p && Busy(p) && p.r == r
    && AtStage(s, p) && r !in Waiting(p) && CleanedOnce(s)
  }

  lemma AtWork(s: State, t: nat)
    requires Ownership(s) && t in s.desk.downs && Busy(s.desk.downs[t])
    ensures Ready(s, t, s.desk.downs[t], s.desk.downs[t].r)
  {
  }

  /** The front half of the invariant after a teardown step on `r`. */
  lemma DownFront(s: State, s': State, t: nat, p: DownPc, r: nat)
    requires Identity(s) && Ownership(s) && Front(s, s', t, p, r)
    ensures Identity(s') && Ownership(s')
  {
    DownIdentity(s, s', t, p, r);
    DownOwnership(s, s', t, p, r);
  }

  lemma PickFront(s: State, s': State, t: nat, r: nat)
    requires Identity(s) && Ownership(s) && t in s.desk.downs && s.desk.downs[t].Pick? && r in s.desk.downs[t].left
    requires s' == SetDown(s, t, Begin(r, Some(s.desk.downs[t].left - {r})))
    ensures Identity(s') && Ownership(s')
  {
    assert r in Waiting(s.desk.downs[t]) && Fresh(s, r);
    PickShape(s, t, r);
    DownFront(s, s', t, Begin(r, Some(s.desk.downs[t].left - {r})), r);
  }

  lemma PickShape(s: State, t: nat, r: nat)
    requires t in s.desk.downs && s.desk.downs[t].Pick? && r in s.desk.downs[t].left
    requires Fresh(s, r) && CleanedOnce(s)
    ensures var p := Begin(r, Some(s.desk.downs[t].left - {r})); Front(s, SetDown(s, t, p), t, p, r)
  {
  }

  lemma PickInv(s: State, t: nat, r: nat)
    requires Inv(s) && t in s.desk.downs && s.desk.downs[t].Pick? && r in s.desk.downs[t].left
    ensures Inv(SetDown(s, t, Begin(r, Some(s.desk.downs[t].left - {r}))))
  {
    PickFront(s, SetDown(s, t, Begin(r, Some(s.desk.downs[t].left - {r}))), t, r);
  }

  /** beginDestroy never refuses: whoever took the sandbox out is the first to begin. */
  lemma BeginAdmitted(s: State, t: nat)
    requires StagesHold(s) && t in s.desk.downs && s.desk.downs[t].Begin?
    ensures s.desk.downs[t].r in s.sess.lives && BeginDestroy(s.sess.lives[s.desk.downs[t].r]).1
  {
    assert AtStage(s, s.desk.downs[t]);
  }

  /** Changing the phase of a sandbox that stays out of Running when drained. */
  lemma PhaseDraining(x: Sessions, r: nat, phase: Phase)
    requires Draining(x) && r in x.lives && (r in x.drained ==> !phase.Running?)
    ensures Draining(SetLife(x, r, x.lives[r].(phase := phase)))
  {
  }

  lemma BeginShape(s: State, t: nat, r: nat, rest: Option<set<nat>>)
    requires Ready(s, t, Begin(r, rest), r) && r in s.sess.lives
    ensures Front(s, SetDown(s.(sess := SetLife(s.sess, r, s.sess.lives[r].(phase := Closing))), t, Drain(r, rest)), t, Drain(r, rest), r)
  {
  }

  lemma BeginFront(s: State, s': State, t: nat)
    requires Identity(s) && Ownership(s) && t in s.desk.downs && s.desk.downs[t].Begin?
    requires var r := s.desk.downs[t].r; r in s.sess.lives
    requires var Begin(r, rest) := s.desk.downs[t];
      s' == SetDown(s.(sess := SetLife(s.sess, r, s.sess.lives[r].(phase := Closing))), t, Drain(r, rest))
    ensures Identity(s') && Ownership(s')
  {
    AtWork(s, t);
    BeginShape(s, t, s.desk.downs[t].r, s.desk.downs[t].rest);
    var Begin(r, rest) := s.desk.downs[t];
    DownFront(s, s', t, Drain(r, rest), r);
  }

  lemma BeginInv(s: State, s': State, t: nat)
    requires Inv(s) && t in s.desk.downs && s.desk.downs[t].Begin?
    requires var r := s.desk.downs[t].r; r in s.sess.lives
    requires var Begin(r, rest) := s.desk.downs[t];
      s' == SetDown(s.(sess := SetLife(s.sess, r, s.sess.lives[r].(phase := Closing))), t, Drain(r, rest))
    ensures Inv(s')
  {
    BeginFront(s, s', t);
    PhaseDraining(s.sess, s.desk.downs[t].r, Closing);
  }

  lemma DrainedDraining(x: Sessions, r: nat)
    requires Draining(x) && r in x.lives && x.lives[r].inFlight == 0
    requires !x.lives[r].phase.Running? && r !in x.cleared
    ensures Draining(x.(drained := x.drained + {r}))
  {
  }

  lemma DrainedShape(s: State, t: nat, r: nat, rest: Option<set<nat>>)
    requires Ready(s, t, Drain(r, rest), r)
    ensures Front(s, SetDown(s.(sess := s.sess.(drained := s.sess.drained + {r})), t, CloseAgent(r, rest)), t, CloseAgent(r, rest), r)
  {
  }

  lemma DrainedFront(s: State, s': State, t: nat)
    requires Identity(s) && Ownership(s) && t in s.desk.downs && s.desk.downs[t].Drain?
    requires var r := s.desk.downs[t].r; r in s.sess.lives && s.sess.lives[r].inFlight == 0
    requires var Drain(r, rest) := s.desk.downs[t];
      s' == SetDown(s.(sess := s.sess.(drained := s.sess.drained + {r})), t, CloseAgent(r, rest))
    ensures Identity(s') && Ownership(s')
  {
    AtWork(s, t);
    DrainedShape(s, t, s.desk.downs[t].r, s.desk.downs[t].rest);
    var Drain(r, rest) := s.desk.downs[t];
    DownFront(s, s', t, CloseAgent(r, rest), r);
  }

  lemma DrainedInv(s: State, s': State, t: nat)
    requires Inv(s) && t in s.desk.downs && s.desk.downs[t].Drain?
    requires var r := s.desk.downs[t].r; r in s.sess.lives && s.sess.lives[r].inFlight == 0
    requires var Drain(r, rest) := s.desk.downs[t];
      s' == SetDown(s.(sess := s.sess.(drained := s.sess.drained + {r})), t, CloseAgent(r, rest))
    ensures Inv(s')
  {
    DrainedFront(s, s', t);
    assert AtStage(s, s.desk.downs[t]);
    DrainedDraining(s.sess, s.desk.downs[t].r);
  }

  lemma GiveUpShape(s: State, t: nat, r: nat, rest: Option<set<nat>>)
    requires Ready(s, t, Drain(r, rest), r)
    ensures Front(s, SetDown(s, t, CloseAgent(r, rest)), t, CloseAgent(r, rest), r)
  {
  }

  lemma GiveUpFront(s: State, s': State, t: nat)
    requires Identity(s) && Ownership(s) && t in s.desk.downs && s.desk.downs[t].Drain?
    requires var Drain(r, rest) := s.desk.downs[t];
      s' == SetDown(s, t, CloseAgent(r, rest))
    ensures Identity(s') && Ownership(s')
  {
    AtWork(s, t);
    GiveUpShape(s, t, s.desk.downs[t].r, s.desk.downs[t].rest);
    var Drain(r, rest) := s.desk.downs[t];
    DownFront(s, s', t, CloseAgent(r, rest), r);
  }

  lemma GiveUpInv(s: State, s': State, t: nat)
    requires Inv(s) && t in s.desk.downs && s.desk.downs[t].Drain?
    requires var Drain(r, rest) := s.desk.downs[t];
      s' == SetDown(s, t, CloseAgent(r, rest))
    ensures Inv(s')
  {
    GiveUpFront(s, s', t);
  }

  lemma ClearDraining(x: Sessions, r: nat)
    requires Draining(x) && r in x.agents && x.agents[r].holder.None?
    ensures Draining(SetOpen(x, r, false).(cleared := x.cleared + {r}))
  {
  }

  ghost function AgentClosed(s: State, t: nat, r: nat, rest: Option<set<nat>>): State
    requires r in s.sess.agents && r in s.desk.cleanups
  {
    SetDown(s.(sess := SetOpen(s.sess, r, false).(cleared := s.sess.cleared + {r}),
               desk := s.desk.(cleanups := s.desk.cleanups[r := s.desk.cleanups[r] + 1])),
            t, Kill(r, rest))
  }

  lemma CloseAgentShape(s: State, t: nat, r: nat, rest: Option<set<nat>>)
    requires Ready(s, t, CloseAgent(r, rest), r) && r in s.sess.agents
    ensures Front(s, AgentClosed(s, t, r, rest), t, Kill(r, rest), r)
  {
  }

  lemma CloseAgentFront(s: State, s': State, t: nat)
    requires Identity(s) && Ownership(s) && t in s.desk.downs && s.desk.downs[t].CloseAgent?
    requires var r := s.desk.downs[t].r; r in s.sess.agents && r in s.desk.cleanups
    requires s' == AgentClosed(s, t, s.desk.downs[t].r, s.desk.downs[t].rest)
    ensures Identity(s') && Ownership(s')
  {
    AtWork(s, t);
    var CloseAgent(r, rest) := s.desk.downs[t];
    CloseAgentShape(s, t, r, rest);
    DownFront(s, s', t, Kill(r, rest), r);
  }

  lemma CloseAgentInv(s: State, s': State, t: nat)
    requires Inv(s) && t in s.desk.downs && s.desk.downs[t].CloseAgent?
    requires var r := s.desk.downs[t].r;
      r in s.sess.agents && r in s.desk.cleanups && s.sess.agents[r].holder.None?
    requires s' == AgentClosed(s, t, s.desk.downs[t].r, s.desk.downs[t].rest)
    ensures Inv(s')
  {
    CloseAgentFront(s, s', t);
    ClearDraining(s.sess, s.desk.downs[t].r);
  }

  lemma KillProcs(procs: map<nat, Proc>, m: Makers, r: nat)
    requires ProcsHeld(procs, m) && r in procs
    ensures ProcsHeld(procs[r := procs[r].(killed := true)], m)
  {
  }

  lemma KillShape(s: State, t: nat, r: nat, rest: Option<set<nat>>)
    requires Ready(s, t, Kill(r, rest), r) && r in s.host.procs
    ensures Front(s, SetDown(SetProc(s, r, s.host.procs[r].(killed := true)), t, ReleaseNet(r, rest)), t, ReleaseNet(r, rest), r)
  {
  }

  lemma KillFront(s: State, s': State, t: nat)
    requires Identity(s) && Ownership(s) && t in s.desk.downs && s.desk.downs[t].Kill?
    requires var r := s.desk.downs[t].r; r in s.host.procs
    requires var Kill(r, rest) := s.desk.downs[t];
      s' == SetDown(SetProc(s, r, s.host.procs[r].(killed := true)), t, ReleaseNet(r, rest))
    ensures Identity(s') && Ownership(s')
  {
    AtWork(s, t);
    KillShape(s, t, s.desk.downs[t].r, s.desk.downs[t].rest);
    var Kill(r, rest) := s.desk.downs[t];
    DownFront(s, s', t, ReleaseNet(r, rest), r);
  }

  lemma KillInv(s: State, s': State, t: nat)
    requires Inv(s) && t in s.desk.downs && s.desk.downs[t].Kill?
    requires var r := s.desk.downs[t].r; r in s.host.procs
    requires var Kill(r, rest) := s.desk.downs[t];
      s' == SetDown(SetProc(s, r, s.host.procs[r].(killed := true)), t, ReleaseNet(r, rest))
    ensures Inv(s')
  {
    KillFront(s, s', t);
    KillProcs(s.host.procs, s.makers, s.desk.downs[t].r);
  }

  /** A teardown that gives its slot back never waits for the channel. */
  lemma ReturnNeverBlocks(s: State, r: nat)
    requires Inv(s) && r in s.makers.nets
    ensures !SendBlocks(s.pool, s.makers.nets[r])
  {
    assert HeldFor(s.pool.place, r, s.makers.nets[r], WithSandbox(r));
    if s.makers.nets[r].owner.PoolSlot? { RoomForSlot(s.pool, s.makers.nets[r].owner.i); }
  }

  lemma ReturnPool(p: Pool, h: Host, m: Makers, r: nat)
    requires ChannelPlaced(p) && HoldersPlaced(p.place, m) && r in m.nets
    ensures var p' := GiveBack(p, h, m.nets[r]).0;
      ChannelPlaced(p') && PlaceMoves(p.place, p'.place) && HoldersPlaced(p'.place, m.(nets := m.nets - {r}))
  {
    ReturnPlaced(p.place, m, r);
    if m.nets[r].owner.PoolSlot? { SendPlaced(p, m.nets[r].owner.i); }
  }

  lemma ReturnKernel(p: Pool, h: Host, m: Makers, r: nat)
    requires KernelOwned(p.place, h.kernel, m) && HoldersPlaced(p.place, m)
    requires r in m.nets && r in m.creators && m.creators[r].CreatorDone?
    ensures var (p', h') := GiveBack(p, h, m.nets[r]);
      KernelOwned(p'.place, h'.kernel, m.(nets := m.nets - {r}))
  {
    assert HeldFor(p.place, r, m.nets[r], WithSandbox(r));
    if m.nets[r].owner.PoolSlot? {
      assert forall j :: j in m.creators ==> CreatorHolds(h.kernel, j, m.creators[j]);
    } else {
      SandboxKeepsKernel(p.place, h.kernel, m, r);
    }
  }

  lemma ReturnDraws(place: map<nat, Place>, place': map<nat, Place>, h: Host, h': Host, creators: map<nat, CreatorPc>)
    requires Draws(place, h, creators) && PlaceMoves(place, place')
    requires h' == h.(kernel := h'.kernel)
    ensures Draws(place', h', creators)
  {
  }

  lemma ReturnProcs(procs: map<nat, Proc>, m: Makers, r: nat)
    requires ProcsHeld(procs, m) && (r in procs ==> procs[r].killed)
    ensures ProcsHeld(procs, m.(nets := m.nets - {r}))
  {
  }

  lemma ReturnFront(s: State, s': State, t: nat)
    requires Identity(s) && Ownership(s) && t in s.desk.downs && s.desk.downs[t].ReleaseNet?
    requires var r := s.desk.downs[t].r; r in s.makers.nets
    requires var ReleaseNet(r, rest) := s.desk.downs[t];
      s' == (var (p, h) := GiveBack(s.pool, s.host, s.makers.nets[r]);
             SetDown(s.(pool := p, host := h, makers := s.makers.(nets := s.makers.nets - {r})), t, Close(r, rest)))
    ensures Identity(s') && Ownership(s')
  {
    var ReleaseNet(r, rest) := s.desk.downs[t];
    AtWork(s, t);
    ReturnShape(s, t, r, rest);
    DownFront(s, s', t, Close(r, rest), r);
  }

  lemma ReturnShape(s: State, t: nat, r: nat, rest: Option<set<nat>>)
    requires Ready(s, t, ReleaseNet(r, rest), r) && r in s.makers.nets
    ensures var (p, h) := GiveBack(s.pool, s.host, s.makers.nets[r]);
      Front(s, SetDown(s.(pool := p, host := h, makers := s.makers.(nets := s.makers.nets - {r})), t, Close(r, rest)),
            t, Close(r, rest), r)
  {
  }

  lemma ReturnInv(s: State, s': State, t: nat)
    requires Inv(s) && t in s.desk.downs && s.desk.downs[t].ReleaseNet?
    requires var r := s.desk.downs[t].r; r in s.makers.nets
    requires var ReleaseNet(r, rest) := s.desk.downs[t];
      s' == (var (p, h) := GiveBack(s.pool, s.host, s.makers.nets[r]);
             SetDown(s.(pool := p, host := h, makers := s.makers.(nets := s.makers.nets - {r})), t, Close(r, rest)))
    ensures Inv(s')
  {
    ReturnFront(s, s', t);
    var r := s.desk.downs[t].r;
    assert AtStage(s, s.desk.downs[t]);
    BusySettled(s.desk, s.makers, t);
    ReturnPool(s.pool, s.host, s.makers, r);
    ReturnProcs(s.host.procs, s.makers, r);
    if !s.host.poolDestroyed { ReturnKernel(s.pool, s.host, s.makers, r); }
    if s.host.drawn < WRAP32 {
      ReturnDraws(s.pool.place, s'.pool.place, s.host, s'.host, s.makers.creators);
    }
  }

  lemma CloseShape(s: State, t: nat, r: nat, rest: Option<set<nat>>)
    requires Ready(s, t, Close(r, rest), r) && r in s.sess.lives
    ensures Front(s, SetDown(s.(sess := SetLife(s.sess, r, FinishDestroy(s.sess.lives[r]))), t, Onward(rest)), t, Onward(rest), r)
  {
  }

  lemma CloseFront(s: State, s': State, t: nat)
    requires Identity(s) && Ownership(s) && t in s.desk.downs && s.desk.downs[t].Close?
    requires var r := s.desk.downs[t].r; r in s.sess.lives
    requires var Close(r, rest) := s.desk.downs[t];
      s' == SetDown(s.(sess := SetLife(s.sess, r, FinishDestroy(s.sess.lives[r]))), t, Onward(rest))
    ensures Identity(s') && Ownership(s')
  {
    AtWork(s, t);
    CloseShape(s, t, s.desk.downs[t].r, s.desk.downs[t].rest);
    var Close(r, rest) := s.desk.downs[t];
    DownFront(s, s', t, Onward(rest), r);
  }

  lemma CloseInv(s: State, s': State, t: nat)
    requires Inv(s) && t in s.desk.downs && s.desk.downs[t].Close?
    requires var r := s.desk.downs[t].r; r in s.sess.lives
    requires var Close(r, rest) := s.desk.downs[t];
      s' == SetDown(s.(sess := SetLife(s.sess, r, FinishDestroy(s.sess.lives[r]))), t, Onward(rest))
    ensures Inv(s')
  {
    CloseFront(s, s', t);
    PhaseDraining(s.sess, s.desk.downs[t].r, Closed);
  }

  lemma DestroyPoolInv(s: State, t: nat)
    requires Inv(s) && t in s.desk.downs && s.desk.downs[t].DestroyPool?
    ensures Inv(SetDown(s.(host := s.host.(poolDestroyed := true, kernel := DestroyPoolNets(s.host.kernel, s.pool.size))),
                        t, TakeAll))
  {
    var h := s.host.(poolDestroyed := true, kernel := DestroyPoolNets(s.host.kernel, s.pool.size));
    assert Inv(s.(host := h)) by {
      assert Ownership(s.(host := h)) by { CoreOwnership(s, s.(host := h)); }
    }
    EmptyHanded(s.(host := h), t, TakeAll);
  }

  /** Ownership does not look at the kernel, the pool or the thread counter. */
  lemma CoreOwnership(s: State, s': State)
    requires Ownership(s)
    requires s'.sess == s.sess && s'.desk == s.desk && s'.makers == s.makers && s'.host.procs == s.host.procs
    ensures Ownership(s')
  {
    assert forall r :: Fresh(s, r) ==> Fresh(s', r);
    forall u | u in s.desk.downs ensures AtStage(s', s.desk.downs[u]) { assert AtStage(s, s.desk.downs[u]); }
    assert StagesHold(s');
  }
}
