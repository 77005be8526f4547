/** Exec and snapshot handlers keep the orchestrator's invariants. */
module OrchestratorExec {
  import opened Lifecycle
  import opened Orchestrator
  import opened OrchestratorInv

  /** What the rest of the system sees of the sandbox objects. */
  ghost predicate SameFace(x: Sessions, y: Sessions) {
    && x.lives.Keys == y.lives.Keys
    && x.agents.Keys == y.agents.Keys
    && (forall r :: r in x.lives ==> x.lives[r].phase == y.lives[r].phase)
    && x.drained == y.drained
    && x.cleared == y.cleared
  }

  ghost predicate ExecReady(x: Sessions, t: nat) {
    t in x.execs && ExecRefs(x.execs[t]) <= x.lives.Keys * x.agents.Keys
  }

  lemma ExecKeepsFace(x: Sessions, reg: map<nat, nat>, t: nat, ok: bool)
    requires ExecReady(x, t)
    ensures SameFace(x, ExecStep(x, reg, t, ok))
  {
  }

  lemma ExecMovesOne(x: Sessions, reg: map<nat, nat>, t: nat, ok: bool)
    requires ExecReady(x, t)
    ensures var y := ExecStep(x, reg, t, ok);
      && y.snaps == x.snaps && t in y.execs
      && y.execs == x.execs[t := y.execs[t]]
      && ExecRefs(y.execs[t]) <= ExecRefs(x.execs[t]) + reg.Values
  {
  }

  /** Changing a thread's pc changes the in-flight sets by at most that thread. */
  lemma InFlightMove(execs: map<nat, ExecPc>, t: nat, p: ExecPc, r: nat)
    requires t in execs
    ensures var a := InFlightOn(execs, r); var b := InFlightOn(execs[t := p], r);
      var before := InFlight(execs[t]) && execs[t].r == r;
      var after := InFlight(p) && p.r == r;
      && (before <==> t in a)
      && (before == after ==> a == b)
      && (!before && after ==> |b| == |a| + 1)
      && (before && !after ==> |b| == |a| - 1)
  {
    var a, b := InFlightOn(execs, r), InFlightOn(execs[t := p], r);
    var before := InFlight(execs[t]) && execs[t].r == r;
    var after := InFlight(p) && p.r == r;
    if before == after {
      assert a == b;
    } else if after {
      assert b == a + {t};
    } else {
      assert a == b + {t};
    }
  }

  lemma ExecCounted(x: Sessions, reg: map<nat, nat>, t: nat, ok: bool)
    requires ExecReady(x, t) && Draining(x)
    ensures Counted(ExecStep(x, reg, t, ok))
  {
    var y := ExecStep(x, reg, t, ok);
    ExecKeepsFace(x, reg, t, ok);
    ExecMovesOne(x, reg, t, ok);
    forall r | r in y.lives ensures y.lives[r].inFlight == |InFlightOn(y.execs, r)| {
      InFlightMove(x.execs, t, y.execs[t], r);
      ExecCountedAt(x, reg, t, ok, r);
    }
  }

  /** The counter of `r` moves exactly as the thread enters or leaves. */
  lemma ExecCountedAt(x: Sessions, reg: map<nat, nat>, t: nat, ok: bool, r: nat)
    requires ExecReady(x, t) && Counted(x) && r in x.lives
    ensures var y := ExecStep(x, reg, t, ok);
      var before := InFlight(x.execs[t]) && x.execs[t].r == r;
      var after := t in y.execs && InFlight(y.execs[t]) && y.execs[t].r == r;
      && r in y.lives
      && y.lives[r].inFlight == x.lives[r].inFlight + (if after then 1 else 0) - (if before then 1 else 0)
  {
    if x.execs[t].Finish? {
      InFlightMove(x.execs, t, ExecDone, r);
    } else if !x.execs[t].Start? {
      InsideStaysInside(x, reg, t, ok);
    }
  }

  /** Between admission and the end the counter rests. */
  lemma InsideStaysInside(x: Sessions, reg: map<nat, nat>, t: nat, ok: bool)
    requires ExecReady(x, t) && !x.execs[t].Start? && !x.execs[t].Finish?
    ensures var y := ExecStep(x, reg, t, ok);
      && y.lives == x.lives && t in y.execs
      && (InFlight(y.execs[t]) <==> InFlight(x.execs[t]))
      && (InFlight(x.execs[t]) ==> y.execs[t].r == x.execs[t].r)
  {
    match x.execs[t] {
      case Lookup(_) =>
      case Validate(_) =>
      case TakeLock(_) =>
      case Dial(_) =>
      case Call(_) =>
      case Redial(_) =>
      case Recall(_) =>
      case DropLock(_) =>
      case ExecDone =>
    }
  }

  lemma ExecLockersHold(x: Sessions, reg: map<nat, nat>, t: nat, ok: bool)
    requires ExecReady(x, t) && Excluded(x)
    ensures LockersHold(ExecStep(x, reg, t, ok))
  {
    if x.execs[t].TakeLock? {
    } else if x.execs[t].DropLock? {
      DropLockersHold(x, reg, t, ok);
    } else {
      HoldersRest(x, reg, t, ok);
    }
  }

  lemma DropLockersHold(x: Sessions, reg: map<nat, nat>, t: nat, ok: bool)
    requires ExecReady(x, t) && Excluded(x) && x.execs[t].DropLock?
    ensures LockersHold(ExecStep(x, reg, t, ok))
  {
  }

  /** All other steps leave every lock with its holder. */
  lemma HoldersRest(x: Sessions, reg: map<nat, nat>, t: nat, ok: bool)
    requires ExecReady(x, t) && !x.execs[t].TakeLock? && !x.execs[t].DropLock?
    ensures var y := ExecStep(x, reg, t, ok);
      && t in y.execs && y.execs == x.execs[t := y.execs[t]]
      && (forall r :: r in x.agents ==> r in y.agents && y.agents[r].holder == x.agents[r].holder)
      && y.agents.Keys == x.agents.Keys
      && (Locked(y.execs[t]) <==> Locked(x.execs[t]))
      && (Locked(x.execs[t]) ==> y.execs[t].r == x.execs[t].r)
  {
    match x.execs[t] {
      case Lookup(_) =>
      case Start(_) =>
      case Validate(_) =>
      case Dial(_) =>
      case Call(_) =>
      case Redial(_) =>
      case Recall(_) =>
      case Finish(_) =>
      case ExecDone =>
    }
  }

  lemma ExecHoldersLock(x: Sessions, reg: map<nat, nat>, t: nat, ok: bool)
    requires ExecReady(x, t) && Excluded(x)
    ensures HoldersLock(ExecStep(x, reg, t, ok))
  {
    if !x.execs[t].TakeLock? && !x.execs[t].DropLock? { HoldersRest(x, reg, t, ok); }
  }

  lemma ExecQuiet(x: Sessions, reg: map<nat, nat>, t: nat, ok: bool)
    requires ExecReady(x, t) && Draining(x)
    ensures Quiet(ExecStep(x, reg, t, ok))
  {
    forall r | InFlight(x.execs[t]) && r == x.execs[t].r ensures r !in x.drained {
      InFlightMove(x.execs, t, ExecDone, r);
    }
    match x.execs[t] {
      case Lookup(key) =>
      case Start(r) =>
      case Validate(r) =>
      case TakeLock(r) =>
      case Dial(r) =>
      case Call(r) =>
      case Redial(r) =>
      case Recall(r) =>
      case DropLock(r) =>
      case Finish(r) =>
      case ExecDone =>
    }
  }

  /** Only the outward face of the sandbox objects matters to the other invariants. */
  lemma FaceKeepsOwnership(s: State, y: Sessions)
    requires Ownership(s) && SameFace(s.sess, y)
    ensures Ownership(s.(sess := y))
  {
    var s' := s.(sess := y);
    assert forall r :: Fresh(s, r) ==> Fresh(s', r);
    assert RegisteredFresh(s') && InsertsFresh(s') && WaitingFresh(s') && CleanedOnce(s');
    forall t | t in s.desk.downs ensures AtStage(s', s.desk.downs[t]) {
      assert AtStage(s, s.desk.downs[t]);
    }
    assert StagesHold(s');
  }

  lemma FaceKeepsIdentity(s: State, y: Sessions)
    requires Identity(s) && SameFace(s.sess, y)
    requires forall t :: t in y.execs ==> t < s.nextTid && ExecRefs(y.execs[t]) <= y.lives.Keys
    requires forall t :: t in y.snaps ==> t < s.nextTid && (y.snaps[t].SnapClose? ==> y.snaps[t].r in y.lives)
    ensures Identity(s.(sess := y))
  {
  }

  lemma ExecInv(s: State, t: nat, ok: bool)
    requires Inv(s) && CanStep(s, Exec(t, ok))
    ensures Inv(s.(sess := ExecStep(s.sess, s.desk.registry, t, ok)))
  {
    var y := ExecStep(s.sess, s.desk.registry, t, ok);
    assert SameFace(s.sess, y) by { ExecKeepsFace(s.sess, s.desk.registry, t, ok); }
    assert Draining(y) by {
      ExecCounted(s.sess, s.desk.registry, t, ok);
      ExecLockersHold(s.sess, s.desk.registry, t, ok);
      ExecHoldersLock(s.sess, s.desk.registry, t, ok);
      ExecQuiet(s.sess, s.desk.registry, t, ok);
    }
    FaceKeepsOwnership(s, y);
    assert Identity(s.(sess := y)) by {
      ExecMovesOne(s.sess, s.desk.registry, t, ok);
      RegistryKnown(s);
      FaceKeepsIdentity(s, y);
    }
  }

  lemma RegistryKnown(s: State)
    requires RegisteredFresh(s)
    ensures s.desk.registry.Values <= s.sess.lives.Keys
  {
  }

  lemma SnapKeepsSessions(x: Sessions, reg: map<nat, nat>, t: nat)
    requires t in x.snaps && (x.snaps[t].SnapClose? ==> x.snaps[t].r in x.agents)
    ensures var y := SnapStep(x, reg, t);
      && SameFace(x, y) && y.execs == x.execs
      && t in y.snaps && y.snaps == x.snaps[t := y.snaps[t]]
      && (y.snaps[t].SnapClose? ==> y.snaps[t].r in reg.Values || y.snaps[t] == x.snaps[t])
  {
  }

  lemma SnapDraining(x: Sessions, reg: map<nat, nat>, t: nat)
    requires t in x.snaps && (x.snaps[t].SnapClose? ==> x.snaps[t].r in x.agents) && Draining(x)
    ensures Draining(SnapStep(x, reg, t))
  {
  }

  lemma SnapInv(s: State, t: nat)
    requires Inv(s) && CanStep(s, Snap(t))
    ensures Inv(s.(sess := SnapStep(s.sess, s.desk.registry, t)))
  {
    SnapKeepsSessions(s.sess, s.desk.registry, t);
    SnapDraining(s.sess, s.desk.registry, t);
    SnapIdentity(s, t);
    FaceInv(s, SnapStep(s.sess, s.desk.registry, t));
  }

  lemma SnapIdentity(s: State, t: nat)
    requires Identity(s) && RegisteredFresh(s)
    requires t in s.sess.snaps && (s.sess.snaps[t].SnapClose? ==> s.sess.snaps[t].r in s.sess.agents)
    ensures Identity(s.(sess := SnapStep(s.sess, s.desk.registry, t)))
  {
    SnapKeepsSessions(s.sess, s.desk.registry, t);
    RegistryKnown(s);
    FaceKeepsIdentity(s, SnapStep(s.sess, s.desk.registry, t));
  }

  lemma FaceInv(s: State, y: Sessions)
    requires Inv(s) && SameFace(s.sess, y) && Draining(y) && Identity(s.(sess := y))
    ensures Inv(s.(sess := y))
  {
    FaceKeepsOwnership(s, y);
  }
}
