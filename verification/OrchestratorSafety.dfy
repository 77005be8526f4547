/** Whole-run safety of the orchestrator. */
module OrchestratorSafety {
  import opened Options
  import opened Lifecycle
  import opened Orchestrator
  import opened OrchestratorInv
  import opened OrchestratorNet
  import opened OrchestratorExec
  import opened OrchestratorCreate
  import opened OrchestratorDown

  // ------------------------------------------- every step of every run

  lemma JoinInv(s: State, k: nat, w: Worker, ok: bool, late: bool)
    requires Inv(s) && k in s.makers.creators && s.makers.creators[k].Join?
    ensures Inv(CreateStep(s, k, w, ok, late))
  {
    var Join(mode, copied, net) := s.makers.creators[k];
    JoinIs(s, k, w, ok, late);
    match w {
      case Copier => PlainInv(s, k, Join(mode, if copied.None? then Some(ok) else copied, net));
      case Netter => AcquireInv(s, k, mode, copied, net, ok, late);
      case Main => PlainInv(s, k, JoinStep(mode, copied, net));
    }
  }

  lemma JoinIs(s: State, k: nat, w: Worker, ok: bool, late: bool)
    requires k in s.makers.creators && s.makers.creators[k].Join?
    ensures var Join(mode, copied, net) := s.makers.creators[k];
      CreateStep(s, k, w, ok, late) ==
        match w
        case Copier => SetPc(s, k, Join(mode, if copied.None? then Some(ok) else copied, net))
        case Netter => Acquired(s, k, mode, copied, net, ok, late)
        case Main => SetPc(s, k, JoinStep(mode, copied, net))
  {
  }

  lemma PrepInv(s: State, k: nat, w: Worker, ok: bool, late: bool)
    requires Inv(s) && k in s.makers.creators && s.makers.creators[k].Prep?
    ensures Inv(CreateStep(s, k, w, ok, late))
  {
    var Prep(mode, c) := s.makers.creators[k];
    if ok { ProcInv(s, k, Proc(c.owner, false), Boot(mode, c)); } else { PlainInv(s, k, Release(c)); }
  }

  lemma BootOkInv(s: State, k: nat, w: Worker, late: bool)
    requires Inv(s) && k in s.makers.creators && s.makers.creators[k].Boot?
    ensures Inv(CreateStep(s, k, w, true, late))
  {
    assert CreateStep(s, k, w, true, late) == Publish(s, k, s.makers.creators[k].cfg) by {
      BootOkStep(s, k, w, late);
    }
    PublishInv(s, k);
  }

  lemma BootOkStep(s: State, k: nat, w: Worker, late: bool)
    requires k in s.makers.creators && s.makers.creators[k].Boot?
    ensures CreateStep(s, k, w, true, late) == Publish(s, k, s.makers.creators[k].cfg)
  {
  }

  lemma BootFailInv(s: State, k: nat, w: Worker, late: bool)
    requires Inv(s) && k in s.makers.creators && s.makers.creators[k].Boot?
    ensures Inv(CreateStep(s, k, w, false, late))
  {
    var Boot(mode, c) := s.makers.creators[k];
    ProcInv(s, k, Proc(c.owner, true), if mode == Cold then Discard(c) else Release(c));
  }

  lemma ReleaseStepInv(s: State, k: nat, w: Worker, ok: bool, late: bool)
    requires Inv(s) && k in s.makers.creators && s.makers.creators[k].Release?
    ensures Inv(CreateStep(s, k, w, ok, late))
  {
    ReleaseIs(s, k, w, ok, late);
    if !SendBlocks(s.pool, s.makers.creators[k].cfg) { ReleaseInv(s, k); }
  }

  lemma ReleaseIs(s: State, k: nat, w: Worker, ok: bool, late: bool)
    requires k in s.makers.creators && s.makers.creators[k].Release?
    ensures CreateStep(s, k, w, ok, late) ==
      if SendBlocks(s.pool, s.makers.creators[k].cfg) then s
      else var (p, h) := GiveBack(s.pool, s.host, s.makers.creators[k].cfg); SetPc(s.(pool := p, host := h), k, CreatorDone)
  {
  }

  lemma GoldenStepInv(s: State, k: nat, w: Worker, ok: bool, late: bool)
    requires Inv(s) && k in s.makers.creators
    requires var q := s.makers.creators[k]; q.Ensure? || q.Build? || q.Built?
    ensures Inv(CreateStep(s, k, w, ok, late))
  {
    match s.makers.creators[k] {
      case Ensure => PlainInv(s, k, if ok then Mkdir(FromGolden) else if late then CreatorDone else Build(MakeNs));
      case Build(stage) => BuildInv(s, k, ok, late);
      case Built => BuiltInv(s, k, ok);
    }
  }

  lemma MkdirStepInv(s: State, k: nat, w: Worker, ok: bool, late: bool)
    requires Inv(s) && k in s.makers.creators && s.makers.creators[k].Mkdir?
    ensures Inv(CreateStep(s, k, w, ok, late))
  {
    MkdirIs(s, k, w, ok, late);
    PlainInv(s, k, if ok then Join(s.makers.creators[k].mode, None, TryPool) else CreatorDone);
  }

  lemma MkdirIs(s: State, k: nat, w: Worker, ok: bool, late: bool)
    requires k in s.makers.creators && s.makers.creators[k].Mkdir?
    ensures CreateStep(s, k, w, ok, late)
      == SetPc(s, k, if ok then Join(s.makers.creators[k].mode, None, TryPool) else CreatorDone)
  {
  }

  lemma DiscardStepInv(s: State, k: nat, w: Worker, ok: bool, late: bool)
    requires Inv(s) && k in s.makers.creators && s.makers.creators[k].Discard?
    ensures Inv(CreateStep(s, k, w, ok, late))
  {
    DiscardIs(s, k, w, ok, late);
    DiscardInv(s, k);
  }

  lemma DiscardIs(s: State, k: nat, w: Worker, ok: bool, late: bool)
    requires k in s.makers.creators && s.makers.creators[k].Discard?
    ensures var c := s.makers.creators[k].cfg;
      CreateStep(s, k, w, ok, late)
      == SetPc(s.(pool := Moved(s.pool, c, Dropped), host := s.host.(kernel := CleanupNet(s.host.kernel, c))), k, CreatorDone)
  {
  }

  lemma InsertStepInv(s: State, k: nat, w: Worker, ok: bool, late: bool)
    requires Inv(s) && k in s.makers.creators && s.makers.creators[k].Insert?
    ensures Inv(CreateStep(s, k, w, ok, late))
  {
    assert CreateStep(s, k, w, ok, late) == Inserted(s, k) by { InsertIs(s, k, w, ok, late); }
    InsertInv(s, k);
  }

  lemma InsertIs(s: State, k: nat, w: Worker, ok: bool, late: bool)
    requires k in s.makers.creators && s.makers.creators[k].Insert?
    ensures CreateStep(s, k, w, ok, late) == Inserted(s, k)
  {
  }

  lemma CreateStepInv(s: State, k: nat, w: Worker, ok: bool, late: bool)
    requires Inv(s) && k in s.makers.creators
    ensures Inv(CreateStep(s, k, w, ok, late))
  {
    match s.makers.creators[k] {
      case Ensure => GoldenStepInv(s, k, w, ok, late);
      case Build(_) => GoldenStepInv(s, k, w, ok, late);
      case Built => GoldenStepInv(s, k, w, ok, late);
      case Mkdir(_) => MkdirStepInv(s, k, w, ok, late);
      case Join(_, _, _) => JoinInv(s, k, w, ok, late);
      case Prep(_, _) => PrepInv(s, k, w, ok, late);
      case Boot(_, _) => if ok { BootOkInv(s, k, w, late); } else { BootFailInv(s, k, w, late); }
      case Release(_) => ReleaseStepInv(s, k, w, ok, late);
      case Discard(_) => DiscardStepInv(s, k, w, ok, late);
      case Insert => InsertStepInv(s, k, w, ok, late);
      case CreatorDone =>
    }
  }

  /** Taking sandboxes out of the registry, and shutting the pool down. */
  lemma DownEntryInv(s: State, t: nat, timeout: bool, pick: nat)
    requires Inv(s) && t in s.desk.downs && !Busy(s.desk.downs[t]) && DownReady(s, s.desk.downs[t])
    ensures Inv(DownStep(s, t, timeout, pick))
  {
    match s.desk.downs[t] {
      case Remove(key) =>
        if key in s.desk.registry { RemoveInv(s, t, key); } else { EmptyHanded(s, t, DownDone); }
      case DestroyPool => DestroyPoolInv(s, t);
      case TakeAll => TakeAllInv(s, t);
      case Pick(left) =>
        if left == {} { EmptyHanded(s, t, DownDone); } else if pick in left { PickInv(s, t, pick); }
      case DownDone =>
    }
  }

  lemma BeginStepInv(s: State, t: nat, timeout: bool, pick: nat)
    requires Inv(s) && t in s.desk.downs && DownReady(s, s.desk.downs[t]) && s.desk.downs[t].Begin?
    ensures Inv(DownStep(s, t, timeout, pick))
  {
    BeginAdmitted(s, t);
    BeginInv(s, DownStep(s, t, timeout, pick), t);
  }

  lemma DrainStepInv(s: State, t: nat, timeout: bool, pick: nat)
    requires Inv(s) && t in s.desk.downs && DownReady(s, s.desk.downs[t]) && s.desk.downs[t].Drain?
    ensures Inv(DownStep(s, t, timeout, pick))
  {
    if s.sess.lives[s.desk.downs[t].r].inFlight == 0 { DrainedInv(s, DownStep(s, t, timeout, pick), t); }
    else if timeout { GiveUpInv(s, DownStep(s, t, timeout, pick), t); }
  }

  lemma CloseAgentStep(s: State, t: nat, timeout: bool, pick: nat)
    requires t in s.desk.downs && DownReady(s, s.desk.downs[t]) && s.desk.downs[t].CloseAgent?
    ensures var CloseAgent(r, rest) := s.desk.downs[t];
      && r in s.sess.agents && r in s.desk.cleanups
      && DownStep(s, t, timeout, pick) == if s.sess.agents[r].holder.Some? then s else AgentClosed(s, t, r, rest)
  {
    assert s.desk.downs[t].r in DownRefs(s.desk.downs[t]);
  }

  lemma CloseAgentStepInv(s: State, t: nat, timeout: bool, pick: nat)
    requires Inv(s) && t in s.desk.downs && DownReady(s, s.desk.downs[t]) && s.desk.downs[t].CloseAgent?
    ensures Inv(DownStep(s, t, timeout, pick))
  {
    var CloseAgent(r, rest) := s.desk.downs[t];
    CloseAgentStep(s, t, timeout, pick);
    if s.sess.agents[r].holder.None? { CloseAgentInv(s, AgentClosed(s, t, r, rest), t); }
  }

  /** Ending one sandbox: process, network, state. */
  lemma DownTailInv(s: State, t: nat, timeout: bool, pick: nat)
    requires Inv(s) && t in s.desk.downs && DownReady(s, s.desk.downs[t])
    requires var p := s.desk.downs[t]; p.Kill? || p.ReleaseNet? || p.Close?
    ensures Inv(DownStep(s, t, timeout, pick))
  {
    var s' := DownStep(s, t, timeout, pick);
    TailIs(s, t, timeout, pick);
    match s.desk.downs[t] {
      case Kill(r, rest) => KillInv(s, s', t);
      case ReleaseNet(r, rest) => if !SendBlocks(s.pool, s.makers.nets[r]) { ReturnInv(s, s', t); }
      case Close(r, rest) => CloseInv(s, s', t);
    }
  }

  lemma TailIs(s: State, t: nat, timeout: bool, pick: nat)
    requires t in s.desk.downs && DownReady(s, s.desk.downs[t])
    ensures var s' := DownStep(s, t, timeout, pick);
      match s.desk.downs[t]
      case Kill(r, rest) => r in s.host.procs && s' == SetDown(SetProc(s, r, s.host.procs[r].(killed := true)), t, ReleaseNet(r, rest))
      case ReleaseNet(r, rest) =>
        r in s.makers.nets && s' == if SendBlocks(s.pool, s.makers.nets[r]) then s
        else var (p, h) := GiveBack(s.pool, s.host, s.makers.nets[r]);
             SetDown(s.(pool := p, host := h, makers := s.makers.(nets := s.makers.nets - {r})), t, Close(r, rest))
      case Close(r, rest) =>
        r in s.sess.lives && s' == SetDown(s.(sess := SetLife(s.sess, r, FinishDestroy(s.sess.lives[r]))), t, Onward(rest))
      case _ => true
  {
    assert Busy(s.desk.downs[t]) ==> s.desk.downs[t].r in DownRefs(s.desk.downs[t]);
  }

  lemma DownStepInv(s: State, t: nat, timeout: bool, pick: nat)
    requires Inv(s) && t in s.desk.downs && DownReady(s, s.desk.downs[t])
    ensures Inv(DownStep(s, t, timeout, pick))
  {
    var p := s.desk.downs[t];
    if !Busy(p) { DownEntryInv(s, t, timeout, pick); }
    else if p.Kill? || p.ReleaseNet? || p.Close? { DownTailInv(s, t, timeout, pick); }
    else if p.Begin? { BeginStepInv(s, t, timeout, pick); }
    else if p.Drain? { DrainStepInv(s, t, timeout, pick); }
    else { CloseAgentStepInv(s, t, timeout, pick); }
  }

  lemma RemoveTakes(s: State, t: nat, key: nat)
    requires RegisteredFresh(s) && t in s.desk.downs && s.desk.downs[t].Remove? && key in s.desk.registry
    ensures var p := Begin(s.desk.registry[key], None);
      Takes(s.desk, Desk(s.desk.registry - {key}, s.desk.downs[t := p], s.desk.cleanups), t, p)
  {
    var r := s.desk.registry[key];
    forall other | other in s.desk.registry && other != key ensures s.desk.registry[other] != r {
      assert key == r % WRAP64 && other == s.desk.registry[other] % WRAP64;
    }
  }

  lemma RemoveInv(s: State, t: nat, key: nat)
    requires Inv(s) && t in s.desk.downs && s.desk.downs[t].Remove? && key in s.desk.registry
    ensures Inv(SetDown(s.(desk := s.desk.(registry := s.desk.registry - {key})), t, Begin(s.desk.registry[key], None)))
  {
    var p := Begin(s.desk.registry[key], None);
    RemoveTakes(s, t, key);
    TakenInv(s, Desk(s.desk.registry - {key}, s.desk.downs[t := p], s.desk.cleanups), t, p);
  }

  lemma TakeAllInv(s: State, t: nat)
    requires Inv(s) && t in s.desk.downs && s.desk.downs[t].TakeAll?
    ensures Inv(SetDown(s.(desk := s.desk.(registry := map[])), t, Pick(s.desk.registry.Values)))
  {
    var d := Desk(map[], s.desk.downs[t := Pick(s.desk.registry.Values)], s.desk.cleanups);
    TakeAllIs(s, t, d);
    TakenInv(s, d, t, Pick(s.desk.registry.Values));
  }

  lemma TakeAllIs(s: State, t: nat, d: Desk)
    requires t in s.desk.downs && s.desk.downs[t].TakeAll?
    requires d == Desk(map[], s.desk.downs[t := Pick(s.desk.registry.Values)], s.desk.cleanups)
    ensures Takes(s.desk, d, t, Pick(s.desk.registry.Values))
    ensures SetDown(s.(desk := s.desk.(registry := map[])), t, Pick(s.desk.registry.Values)) == s.(desk := d)
  {
  }

  /** An exec or snapshot handler that has just been called. */
  lemma ArriveInv(s: State, y: Sessions)
    requires Inv(s) && SameFace(s.sess, y)
    requires Draining(y) && Identity(s.(nextTid := s.nextTid + 1, sess := y))
    ensures Inv(s.(nextTid := s.nextTid + 1, sess := y))
  {
    FaceKeepsOwnership(s, y);
    CoreOwnership(s.(sess := y), s.(nextTid := s.nextTid + 1, sess := y));
  }

  lemma NewExecInv(s: State, key: nat)
    requires Inv(s)
    ensures Inv(s.(nextTid := s.nextTid + 1, sess := SetExec(s.sess, s.nextTid, Lookup(key))))
  {
    var y := SetExec(s.sess, s.nextTid, Lookup(key));
    NewExecIdentity(s, key);
    assert Draining(y) by { ArriveDraining(s.sess, s.nextTid, key); }
    ArriveInv(s, y);
  }

  lemma ArriveDraining(x: Sessions, t: nat, key: nat)
    requires Draining(x) && t !in x.execs
    ensures Draining(SetExec(x, t, Lookup(key)))
  {
    forall r | r in x.lives ensures InFlightOn(x.execs[t := Lookup(key)], r) == InFlightOn(x.execs, r) {
    }
  }

  lemma SnapsDraining(x: Sessions, y: Sessions)
    requires Draining(x) && y == x.(snaps := y.snaps)
    ensures Draining(y)
  {
  }

  lemma NewExecIdentity(s: State, key: nat)
    requires Identity(s)
    ensures Identity(s.(nextTid := s.nextTid + 1, sess := SetExec(s.sess, s.nextTid, Lookup(key))))
  {
  }

  lemma NewSnapshotIdentity(s: State, key: nat)
    requires Identity(s)
    ensures Identity(s.(nextTid := s.nextTid + 1,
                        sess := s.sess.(snaps := s.sess.snaps[s.nextTid := SnapLookup(key)])))
  {
  }

  lemma NewSnapshotInv(s: State, key: nat)
    requires Inv(s)
    ensures Inv(s.(nextTid := s.nextTid + 1, sess := s.sess.(snaps := s.sess.snaps[s.nextTid := SnapLookup(key)])))
  {
    var y := s.sess.(snaps := s.sess.snaps[s.nextTid := SnapLookup(key)]);
    NewSnapshotIdentity(s, key);
    assert Draining(y) by { SnapsDraining(s.sess, y); }
    ArriveInv(s, y);
  }

  lemma StepInv(s: State, l: Label)
    requires Inv(s)
    ensures Inv(Step(s, l))
  {
    if CanStep(s, l) {
      match l {
        case NewCreate(mode) => NewCreateInv(s, mode);
        case NewExec(_) => NewCallInv(s, l);
        case NewSnapshot(_) => NewCallInv(s, l);
        case NewDestroy(_) => NewDownInv(s, l);
        case NewShutdown => NewDownInv(s, l);
        case Create(k, w, ok, late) => CreateStepInv(s, k, w, ok, late);
        case Exec(t, ok) => ExecInv(s, t, ok);
        case Snap(t) => SnapInv(s, t);
        case Down(t, timeout, pick) => DownStepInv(s, t, timeout, pick);
      }
    }
  }

  lemma NewCallInv(s: State, l: Label)
    requires Inv(s) && (l.NewExec? || l.NewSnapshot?)
    ensures Inv(Step(s, l))
  {
    NewIs(s, l);
    if l.NewExec? { NewExecInv(s, l.key); } else { NewSnapshotInv(s, l.key); }
  }

  lemma NewDownInv(s: State, l: Label)
    requires Inv(s) && (l.NewDestroy? || l.NewShutdown?)
    ensures Inv(Step(s, l))
  {
    NewIs(s, l);
    EmptyHanded(s, s.nextTid, if l.NewDestroy? then Remove(l.key) else DestroyPool);
  }

  lemma NewIs(s: State, l: Label)
    ensures match l
      case NewExec(key) => Step(s, l) == s.(nextTid := s.nextTid + 1, sess := SetExec(s.sess, s.nextTid, Lookup(key)))
      case NewSnapshot(key) =>
        Step(s, l) == s.(nextTid := s.nextTid + 1, sess := s.sess.(snaps := s.sess.snaps[s.nextTid := SnapLookup(key)]))
      case NewDestroy(key) =>
        Step(s, l) == SetDown(s.(nextTid := s.nextTid + 1), s.nextTid, Remove(key))
      case NewShutdown =>
        Step(s, l) == SetDown(s.(nextTid := s.nextTid + 1), s.nextTid, DestroyPool)
      case _ => true
  {
  }

  lemma {:induction false} RunInv(s: State, ls: seq<Label>)
    requires Inv(s)
    ensures Inv(Run(s, ls))
    decreases |ls|
  {
    if ls != [] {
      RunInv(s, ls[..|ls| - 1]);
      StepInv(Run(s, ls[..|ls| - 1]), ls[|ls| - 1]);
    }
  }
}
