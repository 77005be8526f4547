/** What agentMu protects: calls go over an open agent connection, dials replace a missing
    one, and a snapshot is begun with the line closed and nobody on it. */
module OrchestratorLine {
  import opened Options
  import opened Lifecycle
  import opened Orchestrator
  import opened OrchestratorInv
  import opened OrchestratorSafety
  import opened OrchestratorTheorems
  import opened OrchestratorAgents

  predicate Calls(p: ExecPc) { p.Call? || p.Recall? }

  predicate Dials(p: ExecPc) { p.Dial? || p.Redial? }

  /** sb.Agent is there when an exec calls over it, and not when one dials. */
  ghost predicate LineInv(x: Sessions) {
    forall t :: t in x.execs && Locked(x.execs[t]) ==>
      && x.execs[t].r in x.agents
      && (Calls(x.execs[t]) ==> x.agents[x.execs[t].r].open)
      && (Dials(x.execs[t]) ==> !x.agents[x.execs[t].r].open)
  }

  /** Whoever is on a line stays there, and the line stays as it is. */
  ghost predicate LineKept(x: Sessions, y: Sessions) {
    forall t :: t in y.execs && Locked(y.execs[t]) ==>
      && t in x.execs && x.execs[t] == y.execs[t]
      && var r := x.execs[t].r; r in x.agents ==> r in y.agents && y.agents[r].open == x.agents[r].open
  }

  lemma KeptIsEnough(x: Sessions, y: Sessions)
    requires LineInv(x) && LineKept(x, y)
    ensures LineInv(y)
  {
  }

  /** The holder's own steps; nobody else is on its line. */
  lemma ExecLine(x: Sessions, registry: map<nat, nat>, t: nat, ok: bool)
    requires t in x.execs && ExecRefs(x.execs[t]) <= x.lives.Keys * x.agents.Keys
    requires LineInv(x) && LockersHold(x)
    ensures LineInv(ExecStep(x, registry, t, ok))
  {
    var y := ExecStep(x, registry, t, ok);
    forall u | u in y.execs && Locked(y.execs[u])
      ensures y.execs[u].r in y.agents
      ensures Calls(y.execs[u]) ==> y.agents[y.execs[u].r].open
      ensures Dials(y.execs[u]) ==> !y.agents[y.execs[u].r].open
    {
      if u == t { OwnLine(x, registry, t, ok); } else { OtherLine(x, registry, t, ok, u); }
    }
  }

  lemma OwnLine(x: Sessions, registry: map<nat, nat>, t: nat, ok: bool)
    requires t in x.execs && ExecRefs(x.execs[t]) <= x.lives.Keys * x.agents.Keys
    requires LineInv(x)
    ensures var y := ExecStep(x, registry, t, ok); t in y.execs && (Locked(y.execs[t]) ==>
      && y.execs[t].r in y.agents
      && (Calls(y.execs[t]) ==> y.agents[y.execs[t].r].open)
      && (Dials(y.execs[t]) ==> !y.agents[y.execs[t].r].open))
  {
    match x.execs[t] {
      case Lookup(_) =>
      case Start(_) =>
      case Validate(_) =>
      case TakeLock(_) =>
      case Dial(_) =>
      case Call(_) =>
      case Redial(_) =>
      case Recall(_) =>
      case DropLock(_) =>
      case Finish(_) =>
      case ExecDone =>
    }
  }

  lemma OtherLine(x: Sessions, registry: map<nat, nat>, t: nat, ok: bool, u: nat)
    requires t in x.execs && ExecRefs(x.execs[t]) <= x.lives.Keys * x.agents.Keys && u != t
    requires LockersHold(x) && u in x.execs && Locked(x.execs[u])
    ensures var y := ExecStep(x, registry, t, ok);
      && u in y.execs && y.execs[u] == x.execs[u]
      && y.execs[u].r in y.agents && y.agents[y.execs[u].r].open == x.agents[y.execs[u].r].open
  {
    match x.execs[t] {
      case Lookup(_) =>
      case Start(_) =>
      case Validate(_) =>
      case TakeLock(_) =>
      case Dial(_) =>
      case Call(_) =>
      case Redial(_) =>
      case Recall(_) =>
      case DropLock(_) =>
      case Finish(_) =>
      case ExecDone =>
    }
  }

  lemma SnapLine(x: Sessions, registry: map<nat, nat>, t: nat)
    requires t in x.snaps && (x.snaps[t].SnapClose? ==> x.snaps[t].r in x.agents)
    requires LockersHold(x)
    ensures LineKept(x, SnapStep(x, registry, t))
  {
  }

  lemma CreateLine(s: State, k: nat, w: Worker, ok: bool, late: bool)
    requires k in s.makers.creators && Identity(s) && LockersHold(s.sess)
    ensures LineKept(s.sess, CreateStep(s, k, w, ok, late).sess)
  {
    if s.makers.creators[k].Boot? && ok {
      BootOkStep(s, k, w, late);
      forall t | t in s.sess.execs && Locked(s.sess.execs[t]) ensures s.sess.execs[t].r != k {
        RefsKnown(s, t);
        assert s.sess.execs[t].r in ExecRefs(s.sess.execs[t]);
      }
    } else {
      CreateKeepsSessions(s, k, w, ok, late);
    }
  }

  lemma DownLine(s: State, t: nat, timeout: bool, pick: nat)
    requires t in s.desk.downs && DownReady(s, s.desk.downs[t]) && LockersHold(s.sess)
    ensures LineKept(s.sess, DownStep(s, t, timeout, pick).sess)
  {
    match s.desk.downs[t] {
      case Remove(_) =>
      case DestroyPool =>
      case TakeAll =>
      case Pick(_) =>
      case Begin(_, _) =>
      case Drain(_, _) =>
      case CloseAgent(_, _) =>
      case Kill(_, _) =>
      case ReleaseNet(_, _) =>
      case Close(_, _) =>
      case DownDone =>
    }
  }

  lemma NewLine(s: State, l: Label)
    requires !l.Exec? && !l.Create? && !l.Down? && !l.Snap?
    ensures LineKept(s.sess, Step(s, l).sess)
  {
    match l {
      case NewCreate(_) =>
      case NewExec(_) =>
      case NewSnapshot(_) =>
      case NewDestroy(_) =>
      case NewShutdown =>
    }
  }

  lemma LineStep(s: State, l: Label)
    requires Identity(s) && LockersHold(s.sess) && LineInv(s.sess)
    ensures LineInv(Step(s, l).sess)
  {
    if CanStep(s, l) {
      if l.Exec? {
        ExecLine(s.sess, s.desk.registry, l.t, l.ok);
      } else {
        if l.Create? { CreateLine(s, l.k, l.w, l.ok, l.late); }
        else if l.Down? { DownLine(s, l.t, l.timeout, l.pick); }
        else if l.Snap? { SnapLine(s.sess, s.desk.registry, l.t); }
        else { NewLine(s, l); }
        KeptIsEnough(s.sess, Step(s, l).sess);
      }
    }
  }

  lemma {:induction false} LineRun(size: nat, ls: seq<Label>)
    ensures LineInv(Run(Init(size), ls).sess)
    decreases |ls|
  {
    if ls != [] {
      var before := ls[..|ls| - 1];
      LineRun(size, before);
      InitInv(size);
      RunInv(Init(size), before);
      LineStep(Run(Init(size), before), ls[|ls| - 1]);
    }
  }

  // ------------------------------------------------------- theorems

  /** In every reachable state a call has a connection under it, and a dial finds none: a
      failed call has dropped its connection before the redial, and a new connection never
      replaces one that is still stored. */
  lemma CallsHaveALine(s: State, t: nat)
    requires Reachable(s) && t in s.sess.execs && Locked(s.sess.execs[t])
    ensures s.sess.execs[t].r in s.sess.agents
    ensures Calls(s.sess.execs[t]) ==> s.sess.agents[s.sess.execs[t].r].open
    ensures Dials(s.sess.execs[t]) ==> !s.sess.agents[s.sess.execs[t].r].open
  {
    var size: nat, ls: seq<Label> :| s == Run(Init(size), ls);
    LineRun(size, ls);
  }

  /** A snapshot gets past its first step exactly when nobody is on the sandbox's line, and
      then leaves it closed: no stream is captured half-way. */
  lemma SnapshotOffTheLine(s: State, t: nat)
    requires Reachable(s) && t in s.sess.snaps && s.sess.snaps[t].SnapClose?
    ensures var r, s' := s.sess.snaps[t].r, Step(s, Snap(t));
      && r in s'.sess.agents && t in s'.sess.snaps
      && (s'.sess.snaps[t] == SnapDone <==> forall u :: u in s.sess.execs && Locked(s.sess.execs[u]) ==> s.sess.execs[u].r != r)
      && (s'.sess.snaps[t] == SnapDone ==> !s'.sess.agents[r].open && s'.sess.execs == s.sess.execs)
      && (forall q :: q in s.sess.agents && q != r ==> q in s'.sess.agents && s'.sess.agents[q] == s.sess.agents[q])
  {
    SnapReady(s, t);
    SnapClosesLine(s.sess, s.desk.registry, t);
  }

  lemma SnapReady(s: State, t: nat)
    requires Reachable(s) && t in s.sess.snaps && s.sess.snaps[t].SnapClose?
    ensures Excluded(s.sess) && s.sess.snaps[t].r in s.sess.agents
    ensures Step(s, Snap(t)).sess == SnapStep(s.sess, s.desk.registry, t)
  {
    assert Identity(s) && Excluded(s.sess) by { ReachableInv(s); }
    SnapKnown(s, t);
    SnapIs(s, t);
  }

  lemma SnapKnown(s: State, t: nat)
    requires Identity(s) && t in s.sess.snaps && s.sess.snaps[t].SnapClose?
    ensures s.sess.snaps[t].r in s.sess.agents
  {
  }

  lemma SnapIs(s: State, t: nat)
    requires CanStep(s, Snap(t))
    ensures Step(s, Snap(t)).sess == SnapStep(s.sess, s.desk.registry, t)
  {
  }

  lemma SnapClosesLine(x: Sessions, registry: map<nat, nat>, t: nat)
    requires Excluded(x) && t in x.snaps && x.snaps[t].SnapClose? && x.snaps[t].r in x.agents
    ensures var r, y := x.snaps[t].r, SnapStep(x, registry, t);
      && r in y.agents && t in y.snaps
      && (y.snaps[t] == SnapDone <==> forall u :: u in x.execs && Locked(x.execs[u]) ==> x.execs[u].r != r)
      && (y.snaps[t] == SnapDone ==> !y.agents[r].open && y.execs == x.execs)
      && (forall q :: q in x.agents && q != r ==> q in y.agents && y.agents[q] == x.agents[q])
  {
  }
}
