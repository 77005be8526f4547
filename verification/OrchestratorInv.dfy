/** The invariants of the orchestrator. */
module OrchestratorInv {
  import opened Options
  import opened Lifecycle
  import opened Orchestrator

  predicate Published(p: CreatorPc) { p.Insert? || p.CreatorDone? }

  predicate Launched(p: CreatorPc) { p.Boot? || p.Release? || p.Discard? || Published(p) }

  /** Tickets, objects and threads refer to each other as in the code. */
  ghost predicate Identity(s: State) {
    && (forall k :: k in s.makers.creators ==> 1 <= k <= s.issued)
    && s.sess.lives.Keys == s.sess.agents.Keys == s.desk.cleanups.Keys
    && s.makers.nets.Keys <= s.sess.lives.Keys <= s.host.procs.Keys
    && s.sess.cleared <= s.sess.lives.Keys
    && (forall k :: k in s.sess.lives ==> k in s.makers.creators && Published(s.makers.creators[k]))
    && (forall k :: k in s.host.procs ==> k in s.makers.creators && Launched(s.makers.creators[k]))
    && (forall k :: k in s.makers.creators && s.makers.creators[k].Boot? ==> k in s.host.procs)
    && (forall t :: t in s.sess.execs ==> t < s.nextTid && ExecRefs(s.sess.execs[t]) <= s.sess.lives.Keys)
    && (forall t :: t in s.sess.snaps ==> t < s.nextTid)
    && (forall t :: t in s.sess.snaps && s.sess.snaps[t].SnapClose? ==> s.sess.snaps[t].r in s.sess.lives)
    && (forall t :: t in s.desk.downs ==> t < s.nextTid && DownRefs(s.desk.downs[t]) <= s.sess.lives.Keys)
  }

  /** A finished sandbox no teardown has touched. */
  predicate Fresh(s: State, r: nat) {
    && r in s.sess.lives && s.sess.lives[r].phase.Running?
    && r in s.desk.cleanups && s.desk.cleanups[r] == 0
    && r in s.makers.nets
    && r !in s.sess.drained && r !in s.sess.cleared
  }

  /** A sandbox whose teardown has begun, with cleanupSandbox entered `n` times. */
  predicate Ending(s: State, r: nat, n: nat) {
    && r in s.sess.lives && s.sess.lives[r].phase.Closing?
    && r in s.desk.cleanups && s.desk.cleanups[r] == n
    && (n == 0 ==> r !in s.sess.cleared)
  }

  /** What holds of the sandbox a teardown thread is working on. */
  predicate AtStage(s: State, p: DownPc) {
    && (p.Begin? ==> Fresh(s, p.r))
    && (p.Drain? ==> Ending(s, p.r, 0) && p.r in s.makers.nets && p.r !in s.sess.drained)
    && (p.CloseAgent? ==> Ending(s, p.r, 0) && p.r in s.makers.nets)
    && (p.Kill? ==> Ending(s, p.r, 1) && p.r in s.makers.nets)
    && (p.ReleaseNet? ==> Ending(s, p.r, 1) && p.r in s.makers.nets && p.r in s.host.procs && s.host.procs[p.r].killed)
    && (p.Close? ==> Ending(s, p.r, 1) && p.r !in s.makers.nets)
  }

  predicate Settled(m: Makers, r: nat) {
    r in m.creators && m.creators[r].CreatorDone?
  }

  ghost predicate RegisteredFresh(s: State) {
    forall key :: key in s.desk.registry ==>
      && Fresh(s, s.desk.registry[key])
      && key == s.desk.registry[key] % WRAP64
      && Settled(s.makers, s.desk.registry[key])
  }

  ghost predicate InsertsFresh(s: State) {
    forall k :: k in s.makers.creators && s.makers.creators[k].Insert? ==> Fresh(s, k)
  }

  ghost predicate StagesHold(s: State) {
    forall t :: t in s.desk.downs ==>
      && AtStage(s, s.desk.downs[t])
      && (Busy(s.desk.downs[t]) ==> s.desk.downs[t].r !in Waiting(s.desk.downs[t]))
  }

  ghost predicate WaitingFresh(s: State) {
    forall t, r :: t in s.desk.downs && r in Waiting(s.desk.downs[t]) ==> Fresh(s, r)
  }

  ghost predicate TakenOut(d: Desk, m: Makers) {
    forall t, r :: t in d.downs && r in DownRefs(d.downs[t]) ==> Settled(m, r) && r !in d.registry.Values
  }

  lemma BusySettled(d: Desk, m: Makers, t: nat)
    requires TakenOut(d, m) && t in d.downs && Busy(d.downs[t])
    ensures Settled(m, d.downs[t].r) && d.downs[t].r !in d.registry.Values
  {
    assert d.downs[t].r in DownRefs(d.downs[t]);
  }

  ghost predicate Disjoint(downs: map<nat, DownPc>) {
    forall t, u, r :: t in downs && u in downs && t != u && r in DownRefs(downs[t]) ==> r !in DownRefs(downs[u])
  }

  ghost predicate CleanedOnce(s: State) {
    && (forall r :: r in s.desk.cleanups ==> s.desk.cleanups[r] <= 1)
    && (forall r :: r in s.sess.lives && s.sess.lives[r].phase.Closed? ==>
          r in s.desk.cleanups && s.desk.cleanups[r] == 1)
  }

  /** Exactly one party is responsible for a sandbox: its creator until the insert,
      then the registry, then the teardown thread that took it out. */
  ghost predicate Ownership(s: State) {
    && RegisteredFresh(s) && InsertsFresh(s)
    && StagesHold(s) && WaitingFresh(s) && TakenOut(s.desk, s.makers) && Disjoint(s.desk.downs)
    && CleanedOnce(s)
  }

  predicate InFlight(p: ExecPc) {
    !(p.Lookup? || p.Start? || p.ExecDone?)
  }

  predicate Locked(p: ExecPc) {
    p.Dial? || p.Call? || p.Redial? || p.Recall? || p.DropLock?
  }

  /** The exec handlers between tryStartExec and finishExec. */
  function InFlightOn(execs: map<nat, ExecPc>, r: nat): set<nat> {
    set t | t in execs && InFlight(execs[t]) && execs[t].r == r
  }

  ghost predicate Counted(x: Sessions) {
    forall r :: r in x.lives ==> x.lives[r].inFlight == |InFlightOn(x.execs, r)|
  }

  ghost predicate LockersHold(x: Sessions) {
    forall t :: t in x.execs && Locked(x.execs[t]) ==>
      x.execs[t].r in x.agents && x.agents[x.execs[t].r].holder == Some(t)
  }

  ghost predicate HoldersLock(x: Sessions) {
    forall r :: r in x.agents && x.agents[r].holder.Some? ==>
      && x.agents[r].holder.value in x.execs
      && Locked(x.execs[x.agents[r].holder.value])
      && x.execs[x.agents[r].holder.value].r == r
  }

  ghost predicate Excluded(x: Sessions) {
    LockersHold(x) && HoldersLock(x)
  }

  ghost predicate Quiet(x: Sessions) {
    && (forall r :: r in x.drained ==> r in x.lives && !x.lives[r].phase.Running? && x.lives[r].inFlight == 0)
    && (forall r :: r in x.cleared && r in x.drained && r in x.agents ==> !x.agents[r].open)
  }

  /** The counter counts, the lock excludes, and a drained sandbox stays quiet. */
  ghost predicate Draining(x: Sessions) {
    Counted(x) && Excluded(x) && Quiet(x)
  }

  function CreatorCfg(p: CreatorPc): Option<NetCfg> {
    match p
    case Join(_, _, NetDone(c)) => c
    case Prep(_, c) => Some(c)
    case Boot(_, c) => Some(c)
    case Release(c) => Some(c)
    case Discard(c) => Some(c)
    case _ => None
  }

  /** A configuration held for ticket `k` is a pool slot recorded there, or k's own. */
  predicate HeldFor(place: map<nat, Place>, k: nat, c: NetCfg, where: Place) {
    match c.owner
    case PoolSlot(i) => c.subnet == i && i in place && place[i] == where
    case Sandboxed(t) => t == k
    case Golden(_) => false
  }

  ghost predicate NoDuplicates(q: seq<nat>) {
    forall i, j :: 0 <= i < j < |q| ==> q[i] != q[j]
  }

  ghost predicate ChannelPlaced(p: Pool) {
    && p.place.Keys == Slots(p.size)
    && NoDuplicates(p.channel)
    && (forall i :: i in p.channel ==> i in p.place && p.place[i].InChannel?)
    && (forall i :: i in p.place && p.place[i].InChannel? ==> i in p.channel)
  }

  ghost predicate HoldersPlaced(place: map<nat, Place>, m: Makers) {
    && (forall k :: k in m.creators && CreatorCfg(m.creators[k]).Some? ==>
          HeldFor(place, k, CreatorCfg(m.creators[k]).value, WithCreator(k)))
    && (forall r :: r in m.nets ==> HeldFor(place, r, m.nets[r], WithSandbox(r)))
    && (forall i :: i in place && place[i].WithCreator? ==>
          place[i].k in m.creators && CreatorCfg(m.creators[place[i].k]) == Some(SlotCfg(i)))
    && (forall i :: i in place && place[i].WithSandbox? ==>
          place[i].r in m.nets && m.nets[place[i].r] == SlotCfg(i))
  }

  /** A process not yet killed sits in a netns that its creator or sandbox still holds. */
  ghost predicate ProcsHeld(procs: map<nat, Proc>, m: Makers) {
    forall k :: k in procs && !procs[k].killed ==>
      || (k in m.creators && m.creators[k].Boot? && m.creators[k].cfg.owner == procs[k].ns)
      || (k in m.nets && m.nets[k].owner == procs[k].ns)
  }

  predicate Named(kn: Kernel, o: Owner) {
    NameOf(o) in kn.named && kn.named[NameOf(o)] == o
  }

  predicate Linked(kn: Kernel, n: nat, o: Owner) {
    n in kn.links && kn.links[n] == o
  }

  /** What a setup in progress has in the kernel. */
  predicate StageHolds(kn: Kernel, o: Owner, n: nat, stage: Stage) {
    && (!stage.MakeNs? ==> Named(kn, o))
    && (stage.MovePeer? || stage.Configure? ==> Linked(kn, n, o))
    && (stage.MovePeer? ==> kn.peer == Some(o))
  }

  predicate CfgLive(kn: Kernel, c: NetCfg) {
    Linked(kn, c.subnet, c.owner) && Named(kn, c.owner)
  }

  /** What creator `k` itself has in the kernel, pool slots aside. */
  predicate CreatorHolds(kn: Kernel, k: nat, p: CreatorPc) {
    match p
    case Build(stage) => StageHolds(kn, Golden(k), GOLDEN_SUBNET, stage)
    case Built => CfgLive(kn, NetCfg(Golden(k), GOLDEN_SUBNET))
    case Join(_, _, Setup(stage, n)) => StageHolds(kn, Sandboxed(k), n, stage)
    case _ =>
      CreatorCfg(p).Some? && !CreatorCfg(p).value.owner.PoolSlot? ==> CfgLive(kn, CreatorCfg(p).value)
  }

  /** Until the pool is torn down at shutdown, every configuration in use, and every
      setup under way, finds its own link and name in the kernel. */
  ghost predicate KernelOwned(place: map<nat, Place>, kn: Kernel, m: Makers) {
    && (forall i :: i in place && !place[i].Dropped? ==> CfgLive(kn, SlotCfg(i)))
    && (forall k :: k in m.creators ==> CreatorHolds(kn, k, m.creators[k]))
    && (forall r :: r in m.nets && !m.nets[r].owner.PoolSlot? ==> CfgLive(kn, m.nets[r]))
  }

  /** The setup acquireNetns is running for a ticket. */
  function Pending(p: CreatorPc): Option<(Stage, nat)> {
    match p
    case Join(_, _, Setup(stage, n)) => Some((stage, n))
    case _ => None
  }

  predicate Linking(stage: Stage) { stage.MovePeer? || stage.Configure? }

  /** If `n` is a pool subnet, that slot was dropped. */
  predicate SubnetFreed(place: map<nat, Place>, n: nat) {
    n in place ==> place[n].Dropped?
  }

  ghost predicate Draws(place: map<nat, Place>, h: Host, creators: map<nat, CreatorPc>) {
    && NoDuplicates(h.wins)
    && (forall n :: n in h.wins ==>
          1 <= n <= MAX_OCTET && n <= h.drawn && (h.poolDestroyed || SubnetFreed(place, n)))
    && (forall k :: k in creators && Pending(creators[k]).Some? ==>
          && 1 <= Pending(creators[k]).value.1 <= h.drawn
          && Pending(creators[k]).value.1 !in h.wins
          && (Linking(Pending(creators[k]).value.0) ==>
                h.poolDestroyed || SubnetFreed(place, Pending(creators[k]).value.1)))
    && (forall k, j | k in creators && j in creators && k != j ::
          Pending(creators[k]).Some? && Pending(creators[j]).Some? ==>
            Pending(creators[k]).value.1 != Pending(creators[j]).value.1)
  }

  ghost predicate Inv(s: State) {
    && Identity(s)
    && Ownership(s)
    && Draining(s.sess)
    && ChannelPlaced(s.pool)
    && HoldersPlaced(s.pool.place, s.makers)
    && ProcsHeld(s.host.procs, s.makers)
    && (!s.host.poolDestroyed ==> KernelOwned(s.pool.place, s.host.kernel, s.makers))
    && (s.host.drawn < WRAP32 ==> Draws(s.pool.place, s.host, s.makers.creators))
  }

  lemma InitInv(size: nat)
    ensures Inv(Init(size))
  {
    var s := Init(size);
    InitPool(size);
    assert Identity(s) && Ownership(s) && Draining(s.sess) && ProcsHeld(s.host.procs, s.makers);
  }

  lemma InitPool(size: nat)
    ensures var s := Init(size);
      && ChannelPlaced(s.pool)
      && HoldersPlaced(s.pool.place, s.makers)
      && KernelOwned(s.pool.place, s.host.kernel, s.makers)
  {
    var s := Init(size);
    assert ChannelPlaced(s.pool) by {
      assert forall i :: i in Slots(size) ==> IsSlot(size, i) && s.pool.channel[i - 1] == i;
      assert forall i :: i in s.pool.channel ==> IsSlot(size, i);
    }
    assert KernelOwned(s.pool.place, s.host.kernel, s.makers) by {
      forall i | i in Slots(size) ensures CfgLive(s.host.kernel, SlotCfg(i)) {
        assert PoolNs(i) in (set j | j in Slots(size) :: PoolNs(j));
      }
    }
  }
}
