/** When a sandbox that was cleaned up can get an agent connection again. */
module OrchestratorAgents {
  import opened Options
  import opened Lifecycle
  import opened Orchestrator
  import opened OrchestratorInv
  import opened OrchestratorSafety
  import opened OrchestratorTheorems

  /** An admitted exec that may still open sb.Agent. */
  predicate MayOpen(p: ExecPc) {
    p.Validate? || p.TakeLock? || p.Dial? || p.Call? || p.Redial?
  }

  predicate OpenerAt(x: Sessions, t: nat, r: nat) {
    t in x.execs && MayOpen(x.execs[t]) && x.execs[t].r == r
  }

  ghost predicate HasOpener(x: Sessions, r: nat) {
    exists t :: OpenerAt(x, t, r)
  }

  predicate Closed(x: Sessions, r: nat) { r in x.agents && !x.agents[r].open }

  predicate Ended(x: Sessions, r: nat) { r in x.lives && !x.lives[r].phase.Running? }

  /** Nobody is left who could open it, and nobody new is let in. */
  ghost predicate Shut(x: Sessions, r: nat) {
    Ended(x, r) && Closed(x, r) && !HasOpener(x, r)
  }

  // ------------------------------------------------------- it stays closed

  lemma ExecKeepsShut(x: Sessions, registry: map<nat, nat>, t: nat, ok: bool, r: nat)
    requires t in x.execs && ExecRefs(x.execs[t]) <= x.lives.Keys * x.agents.Keys
    requires Ended(x, r) && Closed(x, r) && !OpenerAt(x, t, r)
    ensures var y := ExecStep(x, registry, t, ok); Ended(y, r) && Closed(y, r) && !OpenerAt(y, t, r)
    ensures var y := ExecStep(x, registry, t, ok); forall u :: u != t ==> (OpenerAt(y, u, r) <==> OpenerAt(x, u, r))
  {
    match x.execs[t] {
      case Lookup(_) =>
      case Start(_) =>
      case Validate(_) =>
      case TakeLock(_) =>
      case Dial(_) =>
      case Call(_) =>
      case Redial(_) =>
      case Recall(_) =>
      case DropLock(_) =>
      case Finish(_) =>
      case ExecDone =>
    }
  }

  /** Steps of other threads: execs stay, lives of old sandboxes do not start again, and
      an agent is only ever closed. */
  ghost predicate OnlyCloses(x: Sessions, y: Sessions, r: nat) {
    && (forall t :: OpenerAt(y, t, r) ==> OpenerAt(x, t, r))
    && (Ended(x, r) ==> Ended(y, r))
    && (Closed(x, r) ==> Closed(y, r))
  }

  lemma CreateOnlyCloses(s: State, k: nat, w: Worker, ok: bool, late: bool, r: nat)
    requires k in s.makers.creators && Identity(s) && r in s.sess.lives
    ensures OnlyCloses(s.sess, CreateStep(s, k, w, ok, late).sess, r)
  {
    if s.makers.creators[k].Boot? && ok {
      assert k !in s.sess.lives;
    } else {
      CreateKeepsSessions(s, k, w, ok, late);
    }
  }

  /** Only the end of a boot makes a sandbox object. */
  lemma CreateKeepsSessions(s: State, k: nat, w: Worker, ok: bool, late: bool)
    requires k in s.makers.creators && !(s.makers.creators[k].Boot? && ok)
    ensures CreateStep(s, k, w, ok, late).sess == s.sess
  {
    match s.makers.creators[k] {
      case Ensure =>
      case Build(_) =>
      case Built =>
      case Mkdir(_) =>
      case Join(_, _, _) =>
      case Prep(_, _) =>
      case Boot(_, _) =>
      case Release(_) =>
      case Discard(_) =>
      case Insert =>
      case CreatorDone =>
    }
  }

  lemma DownOnlyCloses(s: State, t: nat, timeout: bool, pick: nat, r: nat)
    requires t in s.desk.downs && DownReady(s, s.desk.downs[t])
    ensures OnlyCloses(s.sess, DownStep(s, t, timeout, pick).sess, r)
  {
    match s.desk.downs[t] {
      case Remove(_) =>
      case DestroyPool =>
      case TakeAll =>
      case Pick(_) =>
      case Begin(_, _) =>
      case Drain(_, _) =>
      case CloseAgent(_, _) =>
      case Kill(_, _) =>
      case ReleaseNet(_, _) =>
      case Close(_, _) =>
      case DownDone =>
    }
  }

  /** Every step but an exec's. */
  lemma OthersOnlyClose(s: State, l: Label, r: nat)
    requires Identity(s) && !l.Exec? && r in s.sess.lives
    ensures OnlyCloses(s.sess, Step(s, l).sess, r)
  {
    if CanStep(s, l) {
      if l.Create? { CreateOnlyCloses(s, l.k, l.w, l.ok, l.late, r); }
      else if l.Down? { DownOnlyCloses(s, l.t, l.timeout, l.pick, r); }
      else if l.Snap? { SnapOnlyCloses(s.sess, s.desk.registry, l.t, r); }
      else { NewOnlyCloses(s, l, r); }
    }
  }

  lemma SnapOnlyCloses(x: Sessions, registry: map<nat, nat>, t: nat, r: nat)
    requires t in x.snaps && (x.snaps[t].SnapClose? ==> x.snaps[t].r in x.agents)
    ensures OnlyCloses(x, SnapStep(x, registry, t), r)
  {
  }

  lemma NewOnlyCloses(s: State, l: Label, r: nat)
    requires !l.Exec? && !l.Create? && !l.Down? && !l.Snap?
    ensures OnlyCloses(s.sess, Step(s, l).sess, r)
  {
    match l {
      case NewCreate(_) =>
      case NewExec(key) => NewcomerWaits(s.sess, s.nextTid, key, r);
      case NewSnapshot(_) =>
      case NewDestroy(_) =>
      case NewShutdown =>
    }
  }

  lemma ShutByOthers(x: Sessions, y: Sessions, r: nat)
    requires Shut(x, r) && OnlyCloses(x, y, r)
    ensures Shut(y, r)
  {
  }

  lemma ShutByExec(x: Sessions, registry: map<nat, nat>, t: nat, ok: bool, r: nat)
    requires t in x.execs && ExecRefs(x.execs[t]) <= x.lives.Keys * x.agents.Keys && Shut(x, r)
    ensures Shut(ExecStep(x, registry, t, ok), r)
  {
    assert !OpenerAt(x, t, r);
    ExecKeepsShut(x, registry, t, ok, r);
  }

  lemma ShutStep(s: State, l: Label, r: nat)
    requires Identity(s) && Shut(s.sess, r)
    ensures Shut(Step(s, l).sess, r)
  {
    if l.Exec? {
      if CanStep(s, l) { ShutByExec(s.sess, s.desk.registry, l.t, l.ok, r); }
    } else {
      OthersOnlyClose(s, l, r);
      ShutByOthers(s.sess, Step(s, l).sess, r);
    }
  }

  lemma NewcomerWaits(x: Sessions, t: nat, key: nat, r: nat)
    ensures forall u :: OpenerAt(SetExec(x, t, Lookup(key)), u, r) ==> OpenerAt(x, u, r)
  {
  }

  lemma {:induction false} ShutStays(s: State, ls: seq<Label>, r: nat)
    requires Inv(s) && Shut(s.sess, r)
    ensures Shut(Run(s, ls).sess, r)
    decreases |ls|
  {
    if ls != [] {
      var before := ls[..|ls| - 1];
      ShutStays(s, before, r);
      RunInv(s, before);
      ShutStep(Run(s, before), ls[|ls| - 1], r);
    }
  }

  // ------------------------------------------------- cleared means ended

  lemma EndedStep(s: State, l: Label, r: nat)
    requires Identity(s) && Ended(s.sess, r)
    ensures Ended(Step(s, l).sess, r)
  {
    if l.Exec? {
      if CanStep(s, l) { OrchestratorExec.ExecKeepsFace(s.sess, s.desk.registry, l.t, l.ok); }
    } else {
      OthersOnlyClose(s, l, r);
    }
  }

  ghost predicate ClearedEnded(x: Sessions) {
    forall r :: r in x.cleared ==> Ended(x, r)
  }

  lemma ClearedStep(s: State, l: Label)
    requires Inv(s) && ClearedEnded(s.sess)
    ensures ClearedEnded(Step(s, l).sess)
  {
    forall r | r in Step(s, l).sess.cleared ensures Ended(Step(s, l).sess, r) {
      if r in s.sess.cleared { EndedStep(s, l, r); } else { JustCleared(s, l, r); }
    }
  }

  lemma JustCleared(s: State, l: Label, r: nat)
    requires Inv(s) && r !in s.sess.cleared && r in Step(s, l).sess.cleared
    ensures Ended(Step(s, l).sess, r)
  {
    match l {
      case NewCreate(_) =>
      case NewExec(_) =>
      case NewSnapshot(_) =>
      case NewDestroy(_) =>
      case NewShutdown =>
      case Create(k, w, ok, late) => if CanStep(s, l) { CreateKeepsHistory(s, k, w, ok, late); }
      case Exec(t, ok) => if CanStep(s, l) { OrchestratorExec.ExecKeepsFace(s.sess, s.desk.registry, t, ok); }
      case Snap(_) =>
      case Down(t, timeout, pick) => if CanStep(s, l) { DownClears(s, t, timeout, pick, r); }
    }
  }

  lemma DownClears(s: State, t: nat, timeout: bool, pick: nat, r: nat)
    requires StagesHold(s) && t in s.desk.downs && DownReady(s, s.desk.downs[t])
    requires r !in s.sess.cleared && r in DownStep(s, t, timeout, pick).sess.cleared
    ensures Ended(DownStep(s, t, timeout, pick).sess, r)
  {
    assert AtStage(s, s.desk.downs[t]);
    match s.desk.downs[t] {
      case Remove(_) =>
      case DestroyPool =>
      case TakeAll =>
      case Pick(_) =>
      case Begin(_, _) =>
      case Drain(_, _) =>
      case CloseAgent(_, _) =>
      case Kill(_, _) =>
      case ReleaseNet(_, _) =>
      case Close(_, _) =>
      case DownDone =>
    }
  }

  lemma {:induction false} ClearedRun(size: nat, ls: seq<Label>)
    ensures ClearedEnded(Run(Init(size), ls).sess)
    decreases |ls|
  {
    if ls != [] {
      var before := ls[..|ls| - 1];
      ClearedRun(size, before);
      InitInv(size);
      RunInv(Init(size), before);
      ClearedStep(Run(Init(size), before), ls[|ls| - 1]);
    }
  }

  lemma ClearedIsEnded(s: State, r: nat)
    requires Reachable(s) && r in s.sess.cleared
    ensures Ended(s.sess, r)
  {
    var size: nat, ls: seq<Label> :| s == Run(Init(size), ls);
    ClearedRun(size, ls);
  }

  // ------------------------------------------------------- it can be opened

  ghost predicate CanOpen(s: State, r: nat) {
    exists ls: seq<Label> :: r in Run(s, ls).sess.agents && Run(s, ls).sess.agents[r].open
  }

  lemma {:induction false} RunFirst(s: State, l: Label, ls: seq<Label>)
    ensures Run(s, [l] + ls) == Run(Step(s, l), ls)
    decreases |ls|
  {
    var all := [l] + ls;
    if ls == [] {
      assert all[..|all| - 1] == [];
    } else {
      assert all[..|all| - 1] == [l] + ls[..|ls| - 1];
      RunFirst(s, l, ls[..|ls| - 1]);
    }
  }

  lemma OpensBy(s: State, l: Label, r: nat)
    requires CanOpen(Step(s, l), r)
    ensures CanOpen(s, r)
  {
    var ls: seq<Label> :| r in Run(Step(s, l), ls).sess.agents && Run(Step(s, l), ls).sess.agents[r].open;
    RunFirst(s, l, ls);
  }

  lemma OpenNow(s: State, r: nat)
    requires r in s.sess.agents && s.sess.agents[r].open
    ensures CanOpen(s, r)
  {
    var none: seq<Label> := [];
    assert Run(s, none) == s;
  }

  lemma RefsKnown(s: State, t: nat)
    requires Identity(s) && t in s.sess.execs
    ensures ExecRefs(s.sess.execs[t]) <= s.sess.lives.Keys * s.sess.agents.Keys
  {
  }

  lemma ExecIs(s: State, t: nat, ok: bool)
    requires CanStep(s, Exec(t, ok))
    ensures Step(s, Exec(t, ok)).sess == ExecStep(s.sess, s.desk.registry, t, ok)
  {
  }

  /** One step of an exec. */
  lemma Acts(s: State, t: nat, ok: bool) returns (n: State)
    requires Reachable(s) && t in s.sess.execs
    ensures n == Step(s, Exec(t, ok)) && Reachable(n)
    ensures ExecRefs(s.sess.execs[t]) <= s.sess.lives.Keys * s.sess.agents.Keys
    ensures n.sess == ExecStep(s.sess, s.desk.registry, t, ok)
  {
    assert Identity(s) by { ReachableInv(s); }
    RefsKnown(s, t);
    ExecIs(s, t, ok);
    ReachableStep(s, Exec(t, ok));
    n := Step(s, Exec(t, ok));
  }

  lemma RedialOpens(s: State, t: nat, r: nat)
    requires Reachable(s) && t in s.sess.execs && s.sess.execs[t] == Redial(r)
    ensures CanOpen(s, r)
  {
    var n := Acts(s, t, true);
    OpenNow(n, r);
    OpensBy(s, Exec(t, true), r);
  }

  lemma DialOpens(s: State, t: nat, r: nat)
    requires Reachable(s) && t in s.sess.execs && s.sess.execs[t] == Dial(r)
    ensures CanOpen(s, r)
  {
    var n := Acts(s, t, true);
    OpenNow(n, r);
    OpensBy(s, Exec(t, true), r);
  }

  lemma CallOpens(s: State, t: nat, r: nat)
    requires Reachable(s) && t in s.sess.execs && s.sess.execs[t] == Call(r)
    ensures CanOpen(s, r)
  {
    var n := Acts(s, t, false);
    RedialOpens(n, t, r);
    OpensBy(s, Exec(t, false), r);
  }

  /** agentMu is free: the exec takes it and dials, or finds an open connection. */
  lemma FreeLockOpens(s: State, t: nat, r: nat)
    requires Reachable(s) && t in s.sess.execs && s.sess.execs[t] == TakeLock(r)
    requires r in s.sess.agents && s.sess.agents[r].holder.None?
    ensures CanOpen(s, r)
  {
    var n := Acts(s, t, true);
    if s.sess.agents[r].open { OpenNow(s, r); } else {
      DialOpens(n, t, r);
      OpensBy(s, Exec(t, true), r);
    }
  }

  /** Its holder is about to give it back. */
  lemma DroppingOpens(s: State, h: nat, t: nat, r: nat)
    requires Reachable(s) && h != t && h in s.sess.execs && s.sess.execs[h] == DropLock(r)
    requires t in s.sess.execs && s.sess.execs[t] == TakeLock(r)
    ensures CanOpen(s, r)
  {
    var n := Acts(s, h, true);
    FreeLockOpens(n, t, r);
    OpensBy(s, Exec(h, true), r);
  }

  lemma HeldLockOpens(s: State, h: nat, t: nat, r: nat)
    requires Reachable(s) && h != t && h in s.sess.execs && Locked(s.sess.execs[h]) && s.sess.execs[h].r == r
    requires t in s.sess.execs && s.sess.execs[t] == TakeLock(r)
    ensures CanOpen(s, r)
  {
    match s.sess.execs[h] {
      case Dial(_) => DialOpens(s, h, r);
      case Call(_) => CallOpens(s, h, r);
      case Redial(_) => RedialOpens(s, h, r);
      case Recall(_) =>
        var n := Acts(s, h, true);
        DroppingOpens(n, h, t, r);
        OpensBy(s, Exec(h, true), r);
      case DropLock(_) => DroppingOpens(s, h, t, r);
    }
  }

  lemma TakeLockOpens(s: State, t: nat, r: nat)
    requires Reachable(s) && t in s.sess.execs && s.sess.execs[t] == TakeLock(r)
    ensures CanOpen(s, r)
  {
    ReachableInv(s);
    assert r in ExecRefs(s.sess.execs[t]);
    if s.sess.agents[r].holder.None? {
      FreeLockOpens(s, t, r);
    } else {
      HeldLockOpens(s, s.sess.agents[r].holder.value, t, r);
    }
  }

  lemma OpenerOpens(s: State, t: nat, r: nat)
    requires Reachable(s) && OpenerAt(s.sess, t, r)
    ensures CanOpen(s, r)
  {
    match s.sess.execs[t] {
      case Validate(_) =>
        var n := Acts(s, t, true);
        TakeLockOpens(n, t, r);
        OpensBy(s, Exec(t, true), r);
      case TakeLock(_) => TakeLockOpens(s, t, r);
      case Dial(_) => DialOpens(s, t, r);
      case Call(_) => CallOpens(s, t, r);
      case Redial(_) => RedialOpens(s, t, r);
    }
  }

  // ------------------------------------------------------------- the theorem

  /** After cleanup has emptied sb.Agent it stays nil for the rest of every run if and
      only if no admitted exec is left that could still dial, timed-out drain or not. */
  lemma ClearedStaysNil(s: State, r: nat)
    requires Reachable(s) && r in s.sess.cleared && Closed(s.sess, r)
    ensures (forall ls: seq<Label> :: Closed(Run(s, ls).sess, r)) <==> !HasOpener(s.sess, r)
  {
    if HasOpener(s.sess, r) {
      var t :| OpenerAt(s.sess, t, r);
      OpenerOpens(s, t, r);
      var ls: seq<Label> :| r in Run(s, ls).sess.agents && Run(s, ls).sess.agents[r].open;
      assert !Closed(Run(s, ls).sess, r);
    } else {
      ReachableInv(s);
      ClearedIsEnded(s, r);
      forall ls: seq<Label> ensures Closed(Run(s, ls).sess, r) { ShutStays(s, ls, r); }
    }
  }
}
