/** Nobody waits for ever: what each unfinished handler can wait for, and that it comes. */
module OrchestratorProgress {
  import opened Options
  import opened Lifecycle
  import opened Orchestrator
  import opened OrchestratorInv
  import opened OrchestratorTheorems
  import opened OrchestratorAgents

  // ------------------------------------------------------------- creators

  ghost predicate CreatorMoves(s: State, k: nat, w: Worker, ok: bool) {
    k in s.makers.creators
    && k in Step(s, Create(k, w, ok, false)).makers.creators
    && Step(s, Create(k, w, ok, false)).makers.creators[k] != s.makers.creators[k]
  }

  /** The goroutine that has something left to do, and a result it can have. */
  function NextWorker(p: CreatorPc): (Worker, bool) {
    match p
    case Join(_, copied, net) =>
      if copied.None? then (Copier, true)
      else if net.NetDone? then (Main, true)
      else (Netter, !net.TryPool?)
    case _ => (Main, true)
  }

  lemma CreatorCanMove(s: State, k: nat)
    requires k in s.makers.creators && !s.makers.creators[k].CreatorDone?
    requires s.makers.creators[k].Release? ==> !SendBlocks(s.pool, s.makers.creators[k].cfg)
    ensures CreatorMoves(s, k, NextWorker(s.makers.creators[k]).0, NextWorker(s.makers.creators[k]).1)
  {
    var (w, ok) := NextWorker(s.makers.creators[k]);
    assert Step(s, Create(k, w, ok, false)) == CreateStep(s, k, w, ok, false);
    CreateMovesPc(s, k, w, ok);
  }

  lemma CreateMovesPc(s: State, k: nat, w: Worker, ok: bool)
    requires k in s.makers.creators && !s.makers.creators[k].CreatorDone?
    requires s.makers.creators[k].Release? ==> !SendBlocks(s.pool, s.makers.creators[k].cfg)
    requires (w, ok) == NextWorker(s.makers.creators[k])
    ensures var t := CreateStep(s, k, w, ok, false);
      k in t.makers.creators && t.makers.creators[k] != s.makers.creators[k]
  {
    match s.makers.creators[k] {
      case Ensure =>
      case Build(_) =>
      case Built =>
      case Mkdir(_) =>
      case Join(_, _, _) =>
      case Prep(_, _) =>
      case Boot(_, _) =>
      case Release(_) =>
      case Discard(_) =>
      case Insert =>
    }
  }

  // ------------------------------------------------------------- agentMu

  ghost predicate LockTaken(s: State, r: nat) { r in s.sess.agents && s.sess.agents[r].holder.Some? }

  ghost predicate ExecMoves(s: State, t: nat) {
    t in s.sess.execs && t in Step(s, Exec(t, true)).sess.execs
    && Step(s, Exec(t, true)).sess.execs[t] != s.sess.execs[t]
  }

  /** How many more steps the holder of agentMu can take before it lets go. */
  function LockLeft(p: ExecPc): nat {
    match p
    case Dial(_) => 5
    case Call(_) => 4
    case Redial(_) => 3
    case Recall(_) => 2
    case DropLock(_) => 1
    case _ => 0
  }

  /** The holder of a lock never waits: whatever its calls return, each of its steps
      brings it closer to letting go, and the last one lets go. */
  ghost predicate HolderRuns(s: State, r: nat)
    requires LockTaken(s, r)
  {
    var h := s.sess.agents[r].holder.value;
    && h in s.sess.execs && 0 < LockLeft(s.sess.execs[h]) <= 5
    && forall ok :: var t := Step(s, Exec(h, ok));
         && h in t.sess.execs && LockLeft(t.sess.execs[h]) < LockLeft(s.sess.execs[h])
         && (LockLeft(t.sess.execs[h]) == 0 ==> r in t.sess.agents && t.sess.agents[r].holder.None?)
  }

  lemma HolderGoesOn(s: State, r: nat)
    requires Inv(s) && LockTaken(s, r)
    ensures HolderRuns(s, r)
  {
    var h := s.sess.agents[r].holder.value;
    assert Locked(s.sess.execs[h]) && s.sess.execs[h].r == r;
    RefsKnown(s, h);
    forall ok ensures var t := Step(s, Exec(h, ok));
      && h in t.sess.execs && LockLeft(t.sess.execs[h]) < LockLeft(s.sess.execs[h])
      && (LockLeft(t.sess.execs[h]) == 0 ==> r in t.sess.agents && t.sess.agents[r].holder.None?)
    {
      ExecIs(s, h, ok);
      LockedStep(s.sess, s.desk.registry, h, ok);
    }
  }

  lemma LockedStep(x: Sessions, registry: map<nat, nat>, h: nat, ok: bool)
    requires h in x.execs && Locked(x.execs[h]) && ExecRefs(x.execs[h]) <= x.lives.Keys * x.agents.Keys
    ensures var y := ExecStep(x, registry, h, ok); var r := x.execs[h].r;
      && h in y.execs && LockLeft(y.execs[h]) < LockLeft(x.execs[h])
      && (LockLeft(y.execs[h]) == 0 ==> r in y.agents && y.agents[r].holder.None?)
  {
  }

  lemma ExecCanMove(s: State, t: nat)
    requires Inv(s) && t in s.sess.execs && !s.sess.execs[t].ExecDone?
    ensures ExecMoves(s, t) || (s.sess.execs[t].TakeLock? && LockTaken(s, s.sess.execs[t].r))
  {
    RefsKnown(s, t);
    ExecIs(s, t, true);
    ExecMovesPc(s.sess, s.desk.registry, t);
  }

  lemma ExecMovesPc(x: Sessions, registry: map<nat, nat>, t: nat)
    requires t in x.execs && !x.execs[t].ExecDone? && ExecRefs(x.execs[t]) <= x.lives.Keys * x.agents.Keys
    ensures var y := ExecStep(x, registry, t, true);
      t in y.execs && (y.execs[t] != x.execs[t] || (x.execs[t].TakeLock? && x.agents[x.execs[t].r].holder.Some?))
  {
    match x.execs[t] {
      case Lookup(_) =>
      case Start(_) =>
      case Validate(_) =>
      case TakeLock(_) =>
      case Dial(_) =>
      case Call(_) =>
      case Redial(_) =>
      case Recall(_) =>
      case DropLock(_) =>
      case Finish(_) =>
    }
  }

  // ------------------------------------------------------- snapshots, teardown

  ghost predicate SnapMoves(s: State, t: nat) {
    t in s.sess.snaps && t in Step(s, Snap(t)).sess.snaps && Step(s, Snap(t)).sess.snaps[t] != s.sess.snaps[t]
  }

  lemma SnapCanMove(s: State, t: nat)
    requires Identity(s) && t in s.sess.snaps && !s.sess.snaps[t].SnapDone?
    ensures SnapMoves(s, t) || (s.sess.snaps[t].SnapClose? && LockTaken(s, s.sess.snaps[t].r))
  {
    assert Step(s, Snap(t)).sess == SnapStep(s.sess, s.desk.registry, t);
  }

  ghost predicate DownMoves(s: State, t: nat, pick: nat) {
    t in s.desk.downs && t in Step(s, Down(t, true, pick)).desk.downs
    && Step(s, Down(t, true, pick)).desk.downs[t] != s.desk.downs[t]
  }

  lemma DownCanMove(s: State, t: nat) returns (pick: nat)
    requires t in s.desk.downs && !s.desk.downs[t].DownDone? && DownReady(s, s.desk.downs[t])
    requires s.desk.downs[t].ReleaseNet? ==> !SendBlocks(s.pool, s.makers.nets[s.desk.downs[t].r])
    ensures DownMoves(s, t, pick) || (s.desk.downs[t].CloseAgent? && LockTaken(s, s.desk.downs[t].r))
  {
    var p := s.desk.downs[t];
    pick := 0;
    if p.Pick? && p.left != {} { pick :| pick in p.left; }
    assert Step(s, Down(t, true, pick)) == DownStep(s, t, true, pick);
    DownMovesPc(s, t, pick);
  }

  lemma DownMovesPc(s: State, t: nat, pick: nat)
    requires t in s.desk.downs && !s.desk.downs[t].DownDone? && DownReady(s, s.desk.downs[t])
    requires s.desk.downs[t].ReleaseNet? ==> !SendBlocks(s.pool, s.makers.nets[s.desk.downs[t].r])
    requires s.desk.downs[t].Pick? ==> s.desk.downs[t].left == {} || pick in s.desk.downs[t].left
    ensures var n := DownStep(s, t, true, pick);
      t in n.desk.downs
      && (n.desk.downs[t] != s.desk.downs[t] || (s.desk.downs[t].CloseAgent? && LockTaken(s, s.desk.downs[t].r)))
  {
    match s.desk.downs[t] {
      case Remove(_) =>
      case DestroyPool =>
      case TakeAll =>
      case Pick(_) =>
      case Begin(_, _) =>
      case Drain(_, _) =>
      case CloseAgent(_, _) =>
      case Kill(_, _) =>
      case ReleaseNet(_, _) =>
      case Close(_, _) =>
    }
  }

  // ------------------------------------------------------------- the theorem

  /** In every reachable state every unfinished handler can take a step of its own, with
      a suitable result of its foreign calls, or waits for an agentMu; and whoever holds
      an agentMu runs, without waiting for anything, to the point where it lets go. */
  lemma NoDeadlock(s: State)
    requires Reachable(s)
    ensures forall k :: k in s.makers.creators && !s.makers.creators[k].CreatorDone? ==>
      exists w, ok :: CreatorMoves(s, k, w, ok)
    ensures forall t :: t in s.sess.execs && !s.sess.execs[t].ExecDone? ==>
      ExecMoves(s, t) || (s.sess.execs[t].TakeLock? && LockTaken(s, s.sess.execs[t].r))
    ensures forall t :: t in s.sess.snaps && !s.sess.snaps[t].SnapDone? ==>
      SnapMoves(s, t) || (s.sess.snaps[t].SnapClose? && LockTaken(s, s.sess.snaps[t].r))
    ensures forall t :: t in s.desk.downs && !s.desk.downs[t].DownDone? ==>
      (exists pick :: DownMoves(s, t, pick)) || (s.desk.downs[t].CloseAgent? && LockTaken(s, s.desk.downs[t].r))
    ensures forall r :: LockTaken(s, r) ==> HolderRuns(s, r)
  {
    ReachableInv(s);
    SendNeverBlocks(s);
    ExactlyOnceTeardown(s);
    forall k | k in s.makers.creators && !s.makers.creators[k].CreatorDone?
      ensures exists w, ok :: CreatorMoves(s, k, w, ok)
    {
      CreatorCanMove(s, k);
    }
    forall t | t in s.sess.execs && !s.sess.execs[t].ExecDone?
      ensures ExecMoves(s, t) || (s.sess.execs[t].TakeLock? && LockTaken(s, s.sess.execs[t].r))
    {
      ExecCanMove(s, t);
    }
    forall t | t in s.sess.snaps && !s.sess.snaps[t].SnapDone?
      ensures SnapMoves(s, t) || (s.sess.snaps[t].SnapClose? && LockTaken(s, s.sess.snaps[t].r))
    {
      SnapCanMove(s, t);
    }
    forall t | t in s.desk.downs && !s.desk.downs[t].DownDone?
      ensures (exists pick :: DownMoves(s, t, pick)) || (s.desk.downs[t].CloseAgent? && LockTaken(s, s.desk.downs[t].r))
    {
      var pick := DownCanMove(s, t);
    }
    forall r | LockTaken(s, r) ensures HolderRuns(s, r) { HolderGoesOn(s, r); }
  }
}
