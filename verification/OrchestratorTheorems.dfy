/** What holds in every state the server can reach, for every interleaving of
    handlers and every outcome of the foreign calls. */
module OrchestratorTheorems {
  import opened Options
  import opened Lifecycle
  import opened Orchestrator
  import opened OrchestratorInv
  import opened OrchestratorNet
  import opened OrchestratorSafety

  ghost predicate Reachable(s: State) {
    exists size: nat, ls: seq<Label> :: s == Run(Init(size), ls)
  }

  lemma ReachableInv(s: State)
    requires Reachable(s)
    ensures Inv(s)
  {
    var size: nat, ls: seq<Label> :| s == Run(Init(size), ls);
    InitInv(size);
    RunInv(Init(size), ls);
  }

  lemma ReachableStep(s: State, l: Label)
    requires Reachable(s)
    ensures Reachable(Step(s, l))
  {
    var size: nat, ls: seq<Label> :| s == Run(Init(size), ls);
    assert (ls + [l])[..|ls + [l]| - 1] == ls;
    assert Step(s, l) == Run(Init(size), ls + [l]);
  }

  // ---------------------------------------------------- slot conservation

  /** The places a pool slot is found in: the channel, handlers and sandboxes as
      they are, and the history mark of the cold-boot branch that drops a slot. */
  ghost function Places(s: State, i: nat): set<Place> {
    (if i in s.pool.channel then {InChannel} else {})
    + (set k | k in s.makers.creators && CreatorCfg(s.makers.creators[k]) == Some(SlotCfg(i)) :: WithCreator(k))
    + (set r | r in s.makers.nets && s.makers.nets[r] == SlotCfg(i) :: WithSandbox(r))
    + (if i in s.pool.place && s.pool.place[i].Dropped? then {Dropped} else {})
  }

  /** Every slot is in exactly one place; the channel never repeats or overflows. */
  lemma SlotConservation(s: State)
    requires Reachable(s)
    ensures forall i :: i in Slots(s.pool.size) ==> |Places(s, i)| == 1
    ensures forall i :: i in s.pool.channel ==> i in Slots(s.pool.size)
    ensures NoDuplicates(s.pool.channel) && |s.pool.channel| <= s.pool.size
  {
    ReachableInv(s);
    forall i | i in Slots(s.pool.size) ensures |Places(s, i)| == 1 {
      PlaceIsUnique(s, i);
      assert |{s.pool.place[i]}| == 1;
    }
    SlotsCount(s.pool.size);
    Pigeonhole(s.pool.channel, Slots(s.pool.size));
  }

  lemma PlaceIsUnique(s: State, i: nat)
    requires ChannelPlaced(s.pool) && HoldersPlaced(s.pool.place, s.makers) && i in s.pool.place
    ensures Places(s, i) == {s.pool.place[i]}
  {
    forall k | k in s.makers.creators && CreatorCfg(s.makers.creators[k]) == Some(SlotCfg(i))
      ensures s.pool.place[i] == WithCreator(k)
    {
      assert HeldFor(s.pool.place, k, SlotCfg(i), WithCreator(k));
    }
    forall r | r in s.makers.nets && s.makers.nets[r] == SlotCfg(i) ensures s.pool.place[i] == WithSandbox(r) {
      assert HeldFor(s.pool.place, r, SlotCfg(i), WithSandbox(r));
    }
  }

  /** The send in netnsPool.Release finds room whoever performs it. */
  lemma SendNeverBlocks(s: State)
    requires Reachable(s)
    ensures forall k :: k in s.makers.creators && s.makers.creators[k].Release? ==>
      !SendBlocks(s.pool, s.makers.creators[k].cfg)
    ensures forall r :: r in s.makers.nets ==> !SendBlocks(s.pool, s.makers.nets[r])
  {
    ReachableInv(s);
    forall k | k in s.makers.creators && s.makers.creators[k].Release?
      ensures !SendBlocks(s.pool, s.makers.creators[k].cfg)
    {
      OrchestratorCreate.ReleaseNeverBlocks(s, k);
    }
    forall r | r in s.makers.nets ensures !SendBlocks(s.pool, s.makers.nets[r]) {
      OrchestratorDown.ReturnNeverBlocks(s, r);
    }
  }

  // ------------------------------------------------- exactly-once teardown

  /** cleanupSandbox is entered at most once per sandbox, by then exactly one thread
      is responsible for it, beginDestroy never refuses (so the conflict reply of
      destroy and destroyAll's skipped drain are dead code), a closed sandbox was
      cleaned up, and no teardown dereferences a missing network or process. */
  lemma ExactlyOnceTeardown(s: State)
    requires Reachable(s)
    ensures forall r :: r in s.desk.cleanups ==> s.desk.cleanups[r] <= 1
    ensures forall r :: r in s.sess.lives && s.sess.lives[r].phase.Closed? ==>
      r in s.desk.cleanups && s.desk.cleanups[r] == 1
    ensures forall t :: t in s.desk.downs && s.desk.downs[t].Begin? ==>
      s.desk.downs[t].r in s.sess.lives && BeginDestroy(s.sess.lives[s.desk.downs[t].r]).1
    ensures forall t, r :: t in s.desk.downs && r in DownRefs(s.desk.downs[t]) ==> r !in s.desk.registry.Values
    ensures forall t, u, r :: t in s.desk.downs && u in s.desk.downs && t != u && r in DownRefs(s.desk.downs[t]) ==>
      r !in DownRefs(s.desk.downs[u])
    ensures forall t :: t in s.desk.downs ==> DownReady(s, s.desk.downs[t])
  {
    ReachableInv(s);
    forall t | t in s.desk.downs ensures DownReady(s, s.desk.downs[t]) {
      assert AtStage(s, s.desk.downs[t]);
    }
    forall t | t in s.desk.downs && s.desk.downs[t].Begin?
      ensures s.desk.downs[t].r in s.sess.lives && BeginDestroy(s.sess.lives[s.desk.downs[t].r]).1
    {
      OrchestratorDown.BeginAdmitted(s, t);
    }
  }

  // --------------------------------------------------------- drain safety

  /** The in-flight counter is the number of exec handlers inside, so finishExec
      never meets zero; a drained sandbox has none and admits none. */
  lemma DrainSafety(s: State)
    requires Reachable(s)
    ensures forall r :: r in s.sess.lives ==> s.sess.lives[r].inFlight == |InFlightOn(s.sess.execs, r)|
    ensures forall t :: t in s.sess.execs && s.sess.execs[t].Finish? ==>
      s.sess.execs[t].r in s.sess.lives && s.sess.lives[s.sess.execs[t].r].inFlight > 0
    ensures forall r :: r in s.sess.drained ==>
      r in s.sess.lives && InFlightOn(s.sess.execs, r) == {} && !TryStartExec(s.sess.lives[r]).1
  {
    ReachableInv(s);
    InsideCounts(s);
    DrainedAreEmpty(s.sess);
  }

  lemma InsideCounts(s: State)
    requires Identity(s) && Counted(s.sess)
    ensures forall t :: t in s.sess.execs && s.sess.execs[t].Finish? ==>
      s.sess.execs[t].r in s.sess.lives && s.sess.lives[s.sess.execs[t].r].inFlight > 0
  {
    forall t | t in s.sess.execs && s.sess.execs[t].Finish?
      ensures s.sess.execs[t].r in s.sess.lives && s.sess.lives[s.sess.execs[t].r].inFlight > 0
    {
      assert t in InFlightOn(s.sess.execs, s.sess.execs[t].r);
      assert s.sess.execs[t].r in ExecRefs(s.sess.execs[t]);
    }
  }

  lemma DrainedAreEmpty(x: Sessions)
    requires Draining(x)
    ensures forall r :: r in x.drained ==> r in x.lives && InFlightOn(x.execs, r) == {} && !TryStartExec(x.lives[r]).1
  {
    forall r | r in x.drained ensures r in x.lives && InFlightOn(x.execs, r) == {} && !TryStartExec(x.lives[r]).1 {
      DrainedIsEmpty(x, r);
    }
  }

  lemma DrainedIsEmpty(x: Sessions, r: nat)
    requires Draining(x) && r in x.drained
    ensures r in x.lives && InFlightOn(x.execs, r) == {} && !TryStartExec(x.lives[r]).1
  {
    assert |InFlightOn(x.execs, r)| == 0;
  }

  /** Once the drain loop saw zero and cleanup closed the agent, sb.Agent is nil for
      the rest of the run, whatever else happens. */
  lemma DrainedStaysQuiet(s: State, ls: seq<Label>, r: nat)
    requires Reachable(s) && r in s.sess.drained && r in s.sess.cleared
    ensures var s' := Run(s, ls);
      && InFlightOn(s'.sess.execs, r) == {}
      && r in s'.sess.agents && !s'.sess.agents[r].open
  {
    ReachableInv(s);
    RunInv(s, ls);
    HistoryGrows(s, ls);
    assert Identity(Run(s, ls)) && Draining(Run(s, ls).sess);
  }

  lemma {:induction false} HistoryGrows(s: State, ls: seq<Label>)
    ensures var s' := Run(s, ls); s.sess.drained <= s'.sess.drained && s.sess.cleared <= s'.sess.cleared
    decreases |ls|
  {
    if ls != [] {
      HistoryGrows(s, ls[..|ls| - 1]);
      StepGrows(Run(s, ls[..|ls| - 1]), ls[|ls| - 1]);
    }
  }

  lemma StepGrows(s: State, l: Label)
    ensures var s' := Step(s, l); s.sess.drained <= s'.sess.drained && s.sess.cleared <= s'.sess.cleared
  {
    if CanStep(s, l) {
      match l {
        case NewCreate(mode) =>
        case NewExec(key) =>
        case NewSnapshot(key) =>
        case NewDestroy(key) =>
        case NewShutdown =>
        case Create(k, w, ok, late) => CreateKeepsHistory(s, k, w, ok, late);
        case Exec(t, ok) => OrchestratorExec.ExecKeepsFace(s.sess, s.desk.registry, t, ok);
        case Snap(t) =>
        case Down(t, timeout, pick) => DownGrows(s, t, timeout, pick);
      }
    }
  }

  lemma CreateKeepsHistory(s: State, k: nat, w: Worker, ok: bool, late: bool)
    requires k in s.makers.creators
    ensures var s' := CreateStep(s, k, w, ok, late);
      s'.sess.drained == s.sess.drained && s'.sess.cleared == s.sess.cleared
  {
  }

  lemma DownGrows(s: State, t: nat, timeout: bool, pick: nat)
    requires t in s.desk.downs && DownReady(s, s.desk.downs[t])
    ensures var s' := DownStep(s, t, timeout, pick);
      s.sess.drained <= s'.sess.drained && s.sess.cleared <= s'.sess.cleared
  {
  }

  // ------------------------------------------------ free slots are quiet

  lemma LivingNotInChannel(s: State, k: nat, i: nat)
    requires ProcsHeld(s.host.procs, s.makers) && HoldersPlaced(s.pool.place, s.makers)
    requires k in s.host.procs && s.host.procs[k] == Proc(PoolSlot(i), false)
    ensures i in s.pool.place && !s.pool.place[i].InChannel?
  {
    if k in s.makers.creators && s.makers.creators[k].Boot? && s.makers.creators[k].cfg.owner == PoolSlot(i) {
      assert HeldFor(s.pool.place, k, s.makers.creators[k].cfg, WithCreator(k));
    } else {
      assert HeldFor(s.pool.place, k, s.makers.nets[k], WithSandbox(k));
    }
  }

  /** A slot on offer has no hypervisor in it that was not sent SIGKILL. */
  lemma FreeSlotsQuiet(s: State)
    requires Reachable(s)
    ensures forall i, k :: i in s.pool.channel && k in s.host.procs && s.host.procs[k].ns == PoolSlot(i) ==>
      s.host.procs[k].killed
  {
    ReachableInv(s);
    forall i, k | i in s.pool.channel && k in s.host.procs && s.host.procs[k] == Proc(PoolSlot(i), false)
      ensures false
    {
      LivingNotInChannel(s, k, i);
    }
  }

  // ------------------------------------------------------ live subnets

  /** The network configurations in use or on offer: pool slots not dropped, the
      ones creators hold, the golden snapshot's, and the sandboxes'. */
  ghost predicate LiveCfg(s: State, c: NetCfg) {
    || (exists i :: i in s.pool.place && !s.pool.place[i].Dropped? && c == SlotCfg(i))
    || (exists k :: k in s.makers.creators && CreatorCfg(s.makers.creators[k]) == Some(c))
    || (exists k :: k in s.makers.creators && s.makers.creators[k].Built? && c == NetCfg(Golden(k), GOLDEN_SUBNET))
    || (exists r :: r in s.makers.nets && s.makers.nets[r] == c)
  }

  lemma LiveCfgInKernel(s: State, c: NetCfg)
    requires KernelOwned(s.pool.place, s.host.kernel, s.makers) && HoldersPlaced(s.pool.place, s.makers)
    requires LiveCfg(s, c)
    ensures CfgLive(s.host.kernel, c)
  {
    if k :| k in s.makers.creators && CreatorCfg(s.makers.creators[k]) == Some(c) {
      CreatorsIsLive(s, k, c);
    } else if k :| k in s.makers.creators && s.makers.creators[k].Built? && c == NetCfg(Golden(k), GOLDEN_SUBNET) {
      assert CreatorHolds(s.host.kernel, k, s.makers.creators[k]);
    } else if r :| r in s.makers.nets && s.makers.nets[r] == c {
      SandboxesIsLive(s, r);
    }
  }

  lemma SandboxesIsLive(s: State, r: nat)
    requires KernelOwned(s.pool.place, s.host.kernel, s.makers) && HoldersPlaced(s.pool.place, s.makers)
    requires r in s.makers.nets
    ensures CfgLive(s.host.kernel, s.makers.nets[r])
  {
    assert HeldFor(s.pool.place, r, s.makers.nets[r], WithSandbox(r));
  }

  lemma CreatorsIsLive(s: State, k: nat, c: NetCfg)
    requires KernelOwned(s.pool.place, s.host.kernel, s.makers) && HoldersPlaced(s.pool.place, s.makers)
    requires k in s.makers.creators && CreatorCfg(s.makers.creators[k]) == Some(c)
    ensures CfgLive(s.host.kernel, c)
  {
    assert HeldFor(s.pool.place, k, c, WithCreator(k)) && CreatorHolds(s.host.kernel, k, s.makers.creators[k]);
  }

  /** No two live configurations share a subnet, although on-demand numbers start at
      1 like the pool's; each finds its own link and netns in the kernel. */
  lemma LiveSubnetsDistinct(s: State, c: NetCfg, d: NetCfg)
    requires Reachable(s) && !s.host.poolDestroyed
    requires LiveCfg(s, c) && LiveCfg(s, d)
    ensures c.subnet == d.subnet ==> c == d
    ensures CfgLive(s.host.kernel, c)
  {
    ReachableInv(s);
    LiveCfgInKernel(s, c);
    LiveCfgInKernel(s, d);
  }

  /** Whose kernel entries a step may touch: the moving handler's own, the slot a
      cold boot gives up, or those of the sandbox being torn down. */
  function ActingFor(s: State, l: Label): Owner {
    match l
    case Create(k, _, _, _) =>
      if k !in s.makers.creators then Sandboxed(k)
      else if s.makers.creators[k].Discard? then s.makers.creators[k].cfg.owner
      else if s.makers.creators[k].Build? || s.makers.creators[k].Built? then Golden(k)
      else Sandboxed(k)
    case Down(t, _, _) =>
      if t in s.desk.downs && s.desk.downs[t].ReleaseNet? then Sandboxed(s.desk.downs[t].r) else Golden(0)
    case _ => Golden(0)
  }

  /** No rollback and no cleanup, before the pool is torn down, removes a link, a
      peer end or a netns name that another owner set up. */
  lemma NoForeignDeletion(s: State, l: Label)
    requires Reachable(s) && !s.host.poolDestroyed && !Step(s, l).host.poolDestroyed
    ensures KeepsOthers(s.host.kernel, Step(s, l).host.kernel, ActingFor(s, l))
  {
    ReachableInv(s);
    if CanStep(s, l) {
      match l {
        case NewCreate(_) =>
        case NewExec(_) =>
        case NewSnapshot(_) =>
        case NewDestroy(_) =>
        case NewShutdown =>
        case Exec(_, _) =>
        case Snap(_) =>
        case Create(k, w, ok, late) => CreateDeletesOwn(s, k, w, ok, late);
        case Down(t, timeout, pick) => DownDeletesOwn(s, t, timeout, pick);
      }
    }
  }

  lemma CreateDeletesOwn(s: State, k: nat, w: Worker, ok: bool, late: bool)
    requires KernelOwned(s.pool.place, s.host.kernel, s.makers) && HoldersPlaced(s.pool.place, s.makers)
    requires k in s.makers.creators
    ensures KeepsOthers(s.host.kernel, CreateStep(s, k, w, ok, late).host.kernel, ActingFor(s, Create(k, w, ok, late)))
  {
    match s.makers.creators[k] {
      case Ensure =>
      case Build(stage) => GoldenDeletesOwn(s, k, w, ok, late);
      case Built => GoldenDeletesOwn(s, k, w, ok, late);
      case Mkdir(_) =>
      case Join(_, _, _) => JoinDeletesOwn(s, k, w, ok, late);
      case Prep(_, _) =>
      case Boot(_, _) =>
      case Release(c) => GivingDeletesOwn(s, k, w, ok, late);
      case Discard(c) => GivingDeletesOwn(s, k, w, ok, late);
      case Insert =>
      case CreatorDone =>
    }
  }

  lemma GoldenDeletesOwn(s: State, k: nat, w: Worker, ok: bool, late: bool)
    requires KernelOwned(s.pool.place, s.host.kernel, s.makers)
    requires k in s.makers.creators && (s.makers.creators[k].Build? || s.makers.creators[k].Built?)
    ensures KeepsOthers(s.host.kernel, CreateStep(s, k, w, ok, late).host.kernel, Golden(k))
  {
    assert CreatorHolds(s.host.kernel, k, s.makers.creators[k]);
    if s.makers.creators[k].Build? {
      SetupKeepsOthers(s.host.kernel, Golden(k), GOLDEN_SUBNET, s.makers.creators[k].stage, ok, late);
    } else {
      CleanupKeepsOthers(s.host.kernel, NetCfg(Golden(k), GOLDEN_SUBNET));
    }
  }

  lemma JoinDeletesOwn(s: State, k: nat, w: Worker, ok: bool, late: bool)
    requires KernelOwned(s.pool.place, s.host.kernel, s.makers)
    requires k in s.makers.creators && s.makers.creators[k].Join?
    ensures KeepsOthers(s.host.kernel, CreateStep(s, k, w, ok, late).host.kernel, Sandboxed(k))
  {
    var Join(mode, copied, net) := s.makers.creators[k];
    assert CreatorHolds(s.host.kernel, k, s.makers.creators[k]);
    if net.Setup? { SetupKeepsOthers(s.host.kernel, Sandboxed(k), net.subnet, net.stage, ok, late); }
  }

  lemma GivingDeletesOwn(s: State, k: nat, w: Worker, ok: bool, late: bool)
    requires KernelOwned(s.pool.place, s.host.kernel, s.makers) && HoldersPlaced(s.pool.place, s.makers)
    requires k in s.makers.creators && (s.makers.creators[k].Release? || s.makers.creators[k].Discard?)
    ensures KeepsOthers(s.host.kernel, CreateStep(s, k, w, ok, late).host.kernel, ActingFor(s, Create(k, w, ok, late)))
  {
    var c := s.makers.creators[k].cfg;
    assert CreatorHolds(s.host.kernel, k, s.makers.creators[k]) && HeldFor(s.pool.place, k, c, WithCreator(k));
    assert CfgLive(s.host.kernel, c);
    CleanupKeepsOthers(s.host.kernel, c);
  }

  lemma DownDeletesOwn(s: State, t: nat, timeout: bool, pick: nat)
    requires KernelOwned(s.pool.place, s.host.kernel, s.makers) && HoldersPlaced(s.pool.place, s.makers)
    requires t in s.desk.downs && DownReady(s, s.desk.downs[t])
    requires !DownStep(s, t, timeout, pick).host.poolDestroyed
    ensures KeepsOthers(s.host.kernel, DownStep(s, t, timeout, pick).host.kernel, ActingFor(s, Down(t, timeout, pick)))
  {
    if s.desk.downs[t].ReleaseNet? {
      ReturnDeletesOwn(s, t, timeout, pick);
    } else {
      OthersLeaveKernel(s, t, timeout, pick);
    }
  }

  lemma OthersLeaveKernel(s: State, t: nat, timeout: bool, pick: nat)
    requires t in s.desk.downs && DownReady(s, s.desk.downs[t]) && !s.desk.downs[t].ReleaseNet?
    ensures DownStep(s, t, timeout, pick).host.kernel == s.host.kernel
         || DownStep(s, t, timeout, pick).host.poolDestroyed
  {
  }

  lemma ReturnDeletesOwn(s: State, t: nat, timeout: bool, pick: nat)
    requires t in s.desk.downs && DownReady(s, s.desk.downs[t]) && s.desk.downs[t].ReleaseNet?
    requires KernelOwned(s.pool.place, s.host.kernel, s.makers) && HoldersPlaced(s.pool.place, s.makers)
    ensures KeepsOthers(s.host.kernel, DownStep(s, t, timeout, pick).host.kernel, Sandboxed(s.desk.downs[t].r))
  {
    var r := s.desk.downs[t].r;
    var c := s.makers.nets[r];
    assert HeldFor(s.pool.place, r, c, WithSandbox(r));
    if !c.owner.PoolSlot? { CleanupKeepsOthers(s.host.kernel, c); }
  }

  // ----------------------------------------------- on-demand capacity

  /** The slots still configured. */
  function Configured(p: Pool): set<nat> {
    set i | i in p.place && !p.place[i].Dropped?
  }

  /** Before the 32-bit counter wraps, at most 255 on-demand setups ever succeed,
      and until shutdown the pool's configured slots are missing from those 255. */
  lemma OnDemandCapacity(s: State)
    requires Reachable(s) && s.host.drawn < WRAP32 && s.pool.size <= MAX_OCTET
    ensures NoDuplicates(s.host.wins) && |s.host.wins| <= MAX_OCTET
    ensures !s.host.poolDestroyed ==> |s.host.wins| <= MAX_OCTET - |Configured(s.pool)|
    ensures !s.host.poolDestroyed && (forall i :: i in s.pool.place ==> !s.pool.place[i].Dropped?) ==>
      |s.host.wins| <= MAX_OCTET - s.pool.size
  {
    assert Draws(s.pool.place, s.host, s.makers.creators) && ChannelPlaced(s.pool) by { ReachableInv(s); }
    WinsCount(s);
    if forall i :: i in s.pool.place ==> !s.pool.place[i].Dropped? { AllConfigured(s.pool); }
  }

  lemma AllConfigured(p: Pool)
    requires ChannelPlaced(p) && forall i :: i in p.place ==> !p.place[i].Dropped?
    ensures |Configured(p)| == p.size
  {
    assert Configured(p) == Slots(p.size);
    SlotsCount(p.size);
  }

  lemma WinsCount(s: State)
    requires Draws(s.pool.place, s.host, s.makers.creators)
    requires ChannelPlaced(s.pool) && s.pool.size <= MAX_OCTET
    ensures NoDuplicates(s.host.wins) && |s.host.wins| <= MAX_OCTET
    ensures !s.host.poolDestroyed ==> |s.host.wins| <= MAX_OCTET - |Configured(s.pool)|
  {
    SlotsCount(MAX_OCTET);
    WinsAreOctets(s);
    Pigeonhole(s.host.wins, Slots(MAX_OCTET));
    if !s.host.poolDestroyed {
      WinsAvoidConfigured(s);
      Pigeonhole(s.host.wins, Slots(MAX_OCTET) - Configured(s.pool));
      Remainder(Slots(MAX_OCTET), Configured(s.pool));
    }
  }

  lemma WinsAreOctets(s: State)
    requires Draws(s.pool.place, s.host, s.makers.creators)
    ensures forall n :: n in s.host.wins ==> n in Slots(MAX_OCTET)
  {
    assert forall n :: n in s.host.wins ==> IsSlot(MAX_OCTET, n);
  }

  lemma WinsAvoidConfigured(s: State)
    requires Draws(s.pool.place, s.host, s.makers.creators) && !s.host.poolDestroyed
    requires ChannelPlaced(s.pool) && s.pool.size <= MAX_OCTET
    ensures forall n :: n in s.host.wins ==> n in Slots(MAX_OCTET) - Configured(s.pool)
    ensures Configured(s.pool) <= Slots(MAX_OCTET)
  {
    WinsAreOctets(s);
    forall i | i in Configured(s.pool) ensures i in Slots(MAX_OCTET) {
      assert i in Slots(s.pool.size) && IsSlot(MAX_OCTET, i);
    }
  }

  lemma Remainder(u: set<nat>, v: set<nat>)
    requires v <= u
    ensures |u - v| == |u| - |v|
  {
    assert u == (u - v) + v;
  }
}
