/** Create and restore handlers keep the orchestrator's invariants. */
module OrchestratorCreate {
  import opened Options
  import opened Lifecycle
  import opened Orchestrator
  import opened OrchestratorInv
  import opened OrchestratorNet

  // ------------------------------------------------------------ new ones

  /** A ticket not seen before adds a handler that holds nothing yet. */
  lemma NewKeepsMakers(s: State, k: nat, p: CreatorPc)
    requires HoldersPlaced(s.pool.place, s.makers) && ProcsHeld(s.host.procs, s.makers)
    requires k !in s.makers.creators && (p.Ensure? || p.Mkdir?)
    ensures var m := s.makers.(creators := s.makers.creators[k := p]);
      HoldersPlaced(s.pool.place, m) && ProcsHeld(s.host.procs, m)
  {
  }

  lemma NewKeepsKernel(s: State, k: nat, p: CreatorPc)
    requires KernelOwned(s.pool.place, s.host.kernel, s.makers) && (p.Ensure? || p.Mkdir?)
    ensures KernelOwned(s.pool.place, s.host.kernel, s.makers.(creators := s.makers.creators[k := p]))
  {
  }

  lemma NewKeepsDraws(s: State, k: nat, p: CreatorPc)
    requires Draws(s.pool.place, s.host, s.makers.creators) && (p.Ensure? || p.Mkdir?)
    ensures Draws(s.pool.place, s.host, s.makers.creators[k := p])
  {
  }

  lemma NewKeepsIdentity(s: State, p: CreatorPc)
    requires Identity(s) && (p.Ensure? || p.Mkdir?)
    ensures Identity(SetPc(s.(issued := s.issued + 1), s.issued + 1, p))
  {
    assert s.issued + 1 !in s.makers.creators;
  }

  lemma NewCreateInv(s: State, mode: Mode)
    requires Inv(s)
    ensures Inv(Step(s, NewCreate(mode)))
  {
    var k, p := s.issued + 1, if mode == FromGolden then Ensure else Mkdir(mode);
    var s' := SetPc(s.(issued := k), k, p);
    assert k !in s.makers.creators;
    NewKeepsIdentity(s, p);
    assert Ownership(s') by { PcKeepsOwnership(s, s', k, p); }
    NewKeepsMakers(s, k, p);
    if !s.host.poolDestroyed { NewKeepsKernel(s, k, p); }
    if s.host.drawn < WRAP32 { NewKeepsDraws(s, k, p); }
  }

  // ------------------------------------------- what a pc change preserves

  /** A handler that is not publishing leaves responsibility for sandboxes alone. */
  lemma PcKeepsOwnership(s: State, s': State, k: nat, p: CreatorPc)
    requires Ownership(s)
    requires s'.sess == s.sess && s'.desk == s.desk
    requires s'.makers == Makers(s.makers.creators[k := p], s.makers.nets)
    requires !p.Insert? && (Settled(s.makers, k) ==> p.CreatorDone?)
    requires forall r :: r in s.host.procs && r != k ==> r in s'.host.procs && s'.host.procs[r] == s.host.procs[r]
    requires s'.host.procs == s.host.procs || k !in s.sess.lives
    ensures Ownership(s')
  {
    assert forall r :: Fresh(s, r) ==> Fresh(s', r);
    assert forall r :: Settled(s.makers, r) ==> Settled(s'.makers, r);
    assert RegisteredFresh(s') && InsertsFresh(s') && WaitingFresh(s') && CleanedOnce(s');
    forall t | t in s.desk.downs ensures AtStage(s', s.desk.downs[t]) {
      assert AtStage(s, s.desk.downs[t]);
    }
    assert StagesHold(s');
    assert TakenOut(s'.desk, s'.makers);
  }

  lemma PcKeepsIdentity(s: State, s': State, k: nat, p: CreatorPc)
    requires Identity(s) && k in s.makers.creators
    requires s'.issued == s.issued && s'.nextTid == s.nextTid && s'.sess == s.sess && s'.desk == s.desk
    requires s'.makers == Makers(s.makers.creators[k := p], s.makers.nets)
    requires Published(s.makers.creators[k]) ==> Published(p)
    requires Launched(s.makers.creators[k]) ==> Launched(p)
    requires
      || (s'.host.procs == s.host.procs && !p.Boot?)
      || (s'.host.procs.Keys == s.host.procs.Keys + {k} && Launched(p))
    ensures Identity(s')
  {
  }

  lemma PcKeepsProcs(procs: map<nat, Proc>, m: Makers, k: nat, p: CreatorPc)
    requires ProcsHeld(procs, m) && k in m.creators
    requires !m.creators[k].Boot?
    ensures ProcsHeld(procs, Makers(m.creators[k := p], m.nets))
  {
  }

  /** A slot once dropped stays dropped, and no slot appears. */
  ghost predicate PlaceMoves(place: map<nat, Place>, place': map<nat, Place>) {
    && place'.Keys == place.Keys
    && (forall i :: i in place && place[i].Dropped? ==> place'[i].Dropped?)
  }

  lemma PcKeepsDraws(place: map<nat, Place>, place': map<nat, Place>, h: Host, h': Host,
                     creators: map<nat, CreatorPc>, k: nat, p: CreatorPc)
    requires Draws(place, h, creators) && PlaceMoves(place, place')
    requires h'.wins == h.wins && h'.drawn == h.drawn && (h.poolDestroyed ==> h'.poolDestroyed)
    requires k in creators
    requires Pending(p).None? || Pending(p) == Pending(creators[k])
    ensures Draws(place', h', creators[k := p])
  {
  }

  // ----------------------------------------------------------- acquiring

  /** The state after the netns goroutine of ticket `k` has taken a step. */
  function Acquired(s: State, k: nat, mode: Mode, copied: Option<bool>, net: NetPc, ok: bool, late: bool): State {
    var (p, h, net') := AcquireStep(s.pool, s.host, k, net, ok, late);
    SetPc(s.(pool := p, host := h), k, Join(mode, copied, net'))
  }

  lemma AcquireShape(s: State, k: nat, mode: Mode, copied: Option<bool>, net: NetPc, ok: bool, late: bool)
    requires Inv(s) && k in s.makers.creators && s.makers.creators[k] == Join(mode, copied, net)
    ensures var s' := Acquired(s, k, mode, copied, net, ok, late);
      Identity(s') && Ownership(s') && Draining(s'.sess) && ProcsHeld(s'.host.procs, s'.makers)
  {
    var s' := Acquired(s, k, mode, copied, net, ok, late);
    var p := s'.makers.creators[k];
    assert p.Join? && s'.host.procs == s.host.procs;
    PcKeepsIdentity(s, s', k, p);
    PcKeepsOwnership(s, s', k, p);
    PcKeepsProcs(s.host.procs, s.makers, k, p);
  }

  lemma AcquirePlaced(s: State, k: nat, mode: Mode, copied: Option<bool>, net: NetPc, ok: bool, late: bool)
    requires Inv(s) && k in s.makers.creators && s.makers.creators[k] == Join(mode, copied, net)
    ensures var s' := Acquired(s, k, mode, copied, net, ok, late);
      ChannelPlaced(s'.pool) && HoldersPlaced(s'.pool.place, s'.makers)
  {
    if net.TryPool? && ok && s.pool.channel != [] {
      TookPlaced(s.pool, s.host, s.makers, k, mode, copied, late);
    } else {
      NotTookPlaced(s.pool, s.host, s.makers, k, mode, copied, net, ok, late);
    }
  }

  lemma TookPlaced(p: Pool, h: Host, m: Makers, k: nat, mode: Mode, copied: Option<bool>, late: bool)
    requires ChannelPlaced(p) && HoldersPlaced(p.place, m) && p.channel != []
    requires k in m.creators && m.creators[k] == Join(mode, copied, TryPool)
    ensures var (p', h', net') := AcquireStep(p, h, k, TryPool, true, late);
      ChannelPlaced(p') && HoldersPlaced(p'.place, m.(creators := m.creators[k := Join(mode, copied, net')]))
  {
    RecvPlaced(p, k);
    assert p.channel[0] in p.channel;
    TakePlaced(p.place, m, k, Join(mode, copied, NetDone(Some(SlotCfg(p.channel[0])))), p.channel[0]);
  }

  lemma NotTookPlaced(p: Pool, h: Host, m: Makers, k: nat, mode: Mode, copied: Option<bool>, net: NetPc, ok: bool, late: bool)
    requires ChannelPlaced(p) && HoldersPlaced(p.place, m)
    requires k in m.creators && m.creators[k] == Join(mode, copied, net)
    requires !(net.TryPool? && ok && p.channel != [])
    ensures var (p', h', net') := AcquireStep(p, h, k, net, ok, late);
      ChannelPlaced(p') && HoldersPlaced(p'.place, m.(creators := m.creators[k := Join(mode, copied, net')]))
  {
    var (p', h', net') := AcquireStep(p, h, k, net, ok, late);
    assert p' == p;
    PcKeepsPlaces(p.place, m, k, Join(mode, copied, net'));
  }

  lemma TakeKernel(s: State, k: nat, mode: Mode, copied: Option<bool>, ok: bool, late: bool)
    requires k in s.makers.creators && s.makers.creators[k] == Join(mode, copied, TryPool)
    requires KernelOwned(s.pool.place, s.host.kernel, s.makers) && ChannelPlaced(s.pool) && HoldersPlaced(s.pool.place, s.makers)
    requires k !in s.makers.nets
    ensures var s' := Acquired(s, k, mode, copied, TryPool, ok, late);
      KernelOwned(s'.pool.place, s'.host.kernel, s'.makers)
  {
    var s' := Acquired(s, k, mode, copied, TryPool, ok, late);
    CreatorKeepsKernel(s.pool.place, s.host.kernel, s.host.kernel, s.makers, k, s'.makers.creators[k], Sandboxed(k));
    if ok && s.pool.channel != [] { assert s.pool.channel[0] in s.pool.channel; }
  }

  lemma AcquireKernel(s: State, k: nat, mode: Mode, copied: Option<bool>, net: NetPc, ok: bool, late: bool)
    requires Inv(s) && k in s.makers.creators && s.makers.creators[k] == Join(mode, copied, net)
    requires !s.host.poolDestroyed
    ensures var s' := Acquired(s, k, mode, copied, net, ok, late);
      KernelOwned(s'.pool.place, s'.host.kernel, s'.makers)
  {
    var s' := Acquired(s, k, mode, copied, net, ok, late);
    var p := s'.makers.creators[k];
    var kn, place := s.host.kernel, s.pool.place;
    assert CreatorHolds(kn, k, s.makers.creators[k]);
    assert k !in s.makers.nets;
    match net {
      case TryPool => TakeKernel(s, k, mode, copied, ok, late);
      case Bump =>
        CreatorKeepsKernel(place, kn, kn, s.makers, k, p, Sandboxed(k));
      case Setup(stage, n) =>
        SetupKeepsOthers(kn, Sandboxed(k), n, stage, ok, late);
        CreatorKeepsKernel(place, kn, s'.host.kernel, s.makers, k, p, Sandboxed(k));
      case NetDone(_) =>
        CreatorKeepsKernel(place, kn, kn, s.makers, k, p, Sandboxed(k));
    }
  }

  lemma AcquireDraws(place: map<nat, Place>, p: Pool, h: Host, m: Makers, k: nat, mode: Mode, copied: Option<bool>,
                     net: NetPc, ok: bool, late: bool)
    requires k in m.creators && m.creators[k] == Join(mode, copied, net)
    requires p.place == place && (forall i :: i in p.channel ==> i in place && place[i].InChannel?)
    requires Draws(place, h, m.creators)
    requires !h.poolDestroyed ==> KernelOwned(place, h.kernel, m)
    requires AcquireStep(p, h, k, net, ok, late).1.drawn < WRAP32
    ensures var (p', h', net') := AcquireStep(p, h, k, net, ok, late);
      Draws(p'.place, h', m.creators[k := Join(mode, copied, net')])
  {
    var (p', h', net') := AcquireStep(p, h, k, net, ok, late);
    match net {
      case TryPool => TakeDraws(place, p, h, m, k, mode, copied, ok, late);
      case Bump =>
        BumpDraws(place, h, m.creators, k, mode, copied);
      case Setup(stage, n) =>
        if !h.poolDestroyed { assert CreatorHolds(h.kernel, k, m.creators[k]); }
        SetupIgnoresPool(p, Pool(0, [], place), h, k, stage, n, ok, late);
        SetupDraws(place, h, m, k, mode, copied, stage, n, ok, late);
      case NetDone(_) =>
        PcKeepsDraws(place, p'.place, h, h', m.creators, k, Join(mode, copied, net'));
    }
  }

  lemma TakeDraws(place: map<nat, Place>, p: Pool, h: Host, m: Makers, k: nat, mode: Mode, copied: Option<bool>, ok: bool, late: bool)
    requires k in m.creators && m.creators[k] == Join(mode, copied, TryPool)
    requires p.place == place && (forall i :: i in p.channel ==> i in place && place[i].InChannel?)
    requires Draws(place, h, m.creators)
    ensures var (p', h', net') := AcquireStep(p, h, k, TryPool, ok, late);
      Draws(p'.place, h', m.creators[k := Join(mode, copied, net')])
  {
    var (p', h', net') := AcquireStep(p, h, k, TryPool, ok, late);
    if ok && p.channel != [] { assert p.channel[0] in p.channel; }
    PcKeepsDraws(place, p'.place, h, h', m.creators, k, Join(mode, copied, net'));
  }

  lemma SetupIgnoresPool(p: Pool, q: Pool, h: Host, k: nat, stage: Stage, n: nat, ok: bool, late: bool)
    ensures var (p', h', net') := AcquireStep(p, h, k, Setup(stage, n), ok, late);
      p' == p && AcquireStep(q, h, k, Setup(stage, n), ok, late) == (q, h', net')
  {
  }

  /** A draw from the counter is new as long as the counter has not wrapped. */
  lemma BumpDraws(place: map<nat, Place>, h: Host, creators: map<nat, CreatorPc>, k: nat, mode: Mode, copied: Option<bool>)
    requires Draws(place, h, creators) && h.drawn + 1 < WRAP32
    ensures Draws(place, h.(drawn := h.drawn + 1),
                  creators[k := Join(mode, copied, Setup(MakeNs, (h.drawn + 1) % WRAP32))])
  {
    assert Pending(Join(mode, copied, Setup(MakeNs, (h.drawn + 1) % WRAP32))) == Some((MakeNs, h.drawn + 1));
  }

  lemma SetupDraws(place: map<nat, Place>, h: Host, m: Makers, k: nat, mode: Mode, copied: Option<bool>,
                   stage: Stage, n: nat, ok: bool, late: bool)
    requires k in m.creators && m.creators[k] == Join(mode, copied, Setup(stage, n))
    requires Draws(place, h, m.creators)
    requires !h.poolDestroyed ==> forall i :: i in place && !place[i].Dropped? ==> CfgLive(h.kernel, SlotCfg(i))
    ensures var (p', h', net') := AcquireStep(Pool(0, [], place), h, k, Setup(stage, n), ok, late);
      Draws(place, h', m.creators[k := Join(mode, copied, net')])
  {
    var (p', h', net') := AcquireStep(Pool(0, [], place), h, k, Setup(stage, n), ok, late);
    var (kn', res) := SetupStep(h.kernel, Sandboxed(k), n, stage, ok, late);
    assert Pending(m.creators[k]) == Some((stage, n));
    match res {
      case Live =>
        assert forall i :: i in h.wins + [n] <==> i in h.wins || i == n;
      case More(_) =>
        if stage.AddVeth? && !h.poolDestroyed {
          LinkingNeedsFreeName(h.kernel, Sandboxed(k), n, ok, late);
          assert n in place && !place[n].Dropped? ==> CfgLive(h.kernel, SlotCfg(n));
        }
      case Failed =>
        PcKeepsDraws(place, place, h, h', m.creators, k, Join(mode, copied, net'));
    }
  }

  lemma AcquireInv(s: State, k: nat, mode: Mode, copied: Option<bool>, net: NetPc, ok: bool, late: bool)
    requires Inv(s) && k in s.makers.creators && s.makers.creators[k] == Join(mode, copied, net)
    ensures Inv(Acquired(s, k, mode, copied, net, ok, late))
  {
    AcquireShape(s, k, mode, copied, net, ok, late);
    AcquirePlaced(s, k, mode, copied, net, ok, late);
    AcquireNet(s, k, mode, copied, net, ok, late);
  }

  lemma AcquireNet(s: State, k: nat, mode: Mode, copied: Option<bool>, net: NetPc, ok: bool, late: bool)
    requires Inv(s) && k in s.makers.creators && s.makers.creators[k] == Join(mode, copied, net)
    ensures var s' := Acquired(s, k, mode, copied, net, ok, late);
      && (!s'.host.poolDestroyed ==> KernelOwned(s'.pool.place, s'.host.kernel, s'.makers))
      && (s'.host.drawn < WRAP32 ==> Draws(s'.pool.place, s'.host, s'.makers.creators))
  {
    var s' := Acquired(s, k, mode, copied, net, ok, late);
    assert s'.host.poolDestroyed == s.host.poolDestroyed;
    if !s'.host.poolDestroyed { AcquireKernel(s, k, mode, copied, net, ok, late); }
    if s'.host.drawn < WRAP32 { AcquireNumbers(s, k, mode, copied, net, ok, late); }
  }

  lemma AcquireNumbers(s: State, k: nat, mode: Mode, copied: Option<bool>, net: NetPc, ok: bool, late: bool)
    requires Inv(s) && k in s.makers.creators && s.makers.creators[k] == Join(mode, copied, net)
    requires Acquired(s, k, mode, copied, net, ok, late).host.drawn < WRAP32
    ensures var s' := Acquired(s, k, mode, copied, net, ok, late);
      Draws(s'.pool.place, s'.host, s'.makers.creators)
  {
    assert s.host.drawn <= AcquireStep(s.pool, s.host, k, net, ok, late).1.drawn;
    assert Draws(s.pool.place, s.host, s.makers.creators);
    AcquireDraws(s.pool.place, s.pool, s.host, s.makers, k, mode, copied, net, ok, late);
  }

  // ------------------------------------------------------ the other steps

  /** A handler still under way whose step touches nothing but its own pc. */
  lemma PlainInv(s: State, k: nat, p: CreatorPc)
    requires Inv(s) && k in s.makers.creators
    requires var q := s.makers.creators[k];
      && !Published(q) && !q.Boot? && !p.Insert? && !p.Boot?
      && CreatorCfg(p) == CreatorCfg(q)
      && Pending(p) == Pending(q)
      && (Launched(q) ==> Launched(p))
      && (CreatorHolds(s.host.kernel, k, q) ==> CreatorHolds(s.host.kernel, k, p))
    ensures Inv(SetPc(s, k, p))
  {
    var s' := SetPc(s, k, p);
    PcKeepsIdentity(s, s', k, p);
    PcKeepsOwnership(s, s', k, p);
    PcKeepsProcs(s.host.procs, s.makers, k, p);
    PcKeepsPlaces(s.pool.place, s.makers, k, p);
    if !s.host.poolDestroyed {
      CreatorKeepsKernel(s.pool.place, s.host.kernel, s.host.kernel, s.makers, k, p, Sandboxed(k));
    }
    if s.host.drawn < WRAP32 {
      PcKeepsDraws(s.pool.place, s.pool.place, s.host, s.host, s.makers.creators, k, p);
    }
  }

  /** A handler's step on the golden snapshot's network. */
  lemma GoldenInv(s: State, k: nat, kn: Kernel, p: CreatorPc)
    requires Inv(s) && k in s.makers.creators && (s.makers.creators[k].Build? || s.makers.creators[k].Built?)
    requires p.Build? || p.Built? || p.Mkdir? || p.CreatorDone?
    requires !s.host.poolDestroyed ==> KeepsOthers(s.host.kernel, kn, Golden(k)) && CreatorHolds(kn, k, p)
    ensures Inv(SetPc(s.(host := s.host.(kernel := kn)), k, p))
  {
    var s' := SetPc(s.(host := s.host.(kernel := kn)), k, p);
    PcKeepsIdentity(s, s', k, p);
    PcKeepsOwnership(s, s', k, p);
    PcKeepsProcs(s.host.procs, s.makers, k, p);
    PcKeepsPlaces(s.pool.place, s.makers, k, p);
    if !s.host.poolDestroyed {
      CreatorKeepsKernel(s.pool.place, s.host.kernel, kn, s.makers, k, p, Golden(k));
    }
    if s.host.drawn < WRAP32 {
      PcKeepsDraws(s.pool.place, s.pool.place, s.host, s'.host, s.makers.creators, k, p);
    }
  }

  lemma BuildInv(s: State, k: nat, ok: bool, late: bool)
    requires Inv(s) && k in s.makers.creators && s.makers.creators[k].Build?
    ensures Inv(BuildStep(s, k, s.makers.creators[k].stage, ok, late))
  {
    var stage := s.makers.creators[k].stage;
    var (kn, res) := SetupStep(s.host.kernel, Golden(k), GOLDEN_SUBNET, stage, ok, late);
    if !s.host.poolDestroyed {
      assert CreatorHolds(s.host.kernel, k, s.makers.creators[k]);
      SetupKeepsOthers(s.host.kernel, Golden(k), GOLDEN_SUBNET, stage, ok, late);
    }
    match res {
      case More(st) => GoldenInv(s, k, kn, Build(st));
      case Failed => GoldenInv(s, k, kn, CreatorDone);
      case Live => GoldenInv(s, k, kn, Built);
    }
  }

  lemma BuiltInv(s: State, k: nat, ok: bool)
    requires Inv(s) && k in s.makers.creators && s.makers.creators[k].Built?
    ensures var kn := CleanupNet(s.host.kernel, NetCfg(Golden(k), GOLDEN_SUBNET));
      Inv(SetPc(s.(host := s.host.(kernel := kn)), k, if ok then Mkdir(FromGolden) else CreatorDone))
  {
    if !s.host.poolDestroyed {
      assert CreatorHolds(s.host.kernel, k, s.makers.creators[k]);
      CleanupKeepsOthers(s.host.kernel, NetCfg(Golden(k), GOLDEN_SUBNET));
    }
    GoldenInv(s, k, CleanupNet(s.host.kernel, NetCfg(Golden(k), GOLDEN_SUBNET)),
              if ok then Mkdir(FromGolden) else CreatorDone);
  }

  /** Starting the hypervisor, or killing it after a failure. */
  lemma ProcInv(s: State, k: nat, pr: Proc, p: CreatorPc)
    requires Inv(s) && k in s.makers.creators
    requires var q := s.makers.creators[k];
      && (q.Prep? || q.Boot?) && CreatorCfg(p) == CreatorCfg(q)
      && (p.Boot? || p.Release? || p.Discard?)
      && (pr.killed || (p.Boot? && pr.ns == p.cfg.owner))
    ensures Inv(SetPc(SetProc(s, k, pr), k, p))
  {
    var s' := SetPc(SetProc(s, k, pr), k, p);
    PcKeepsIdentity(s, s', k, p);
    PcKeepsOwnership(s, s', k, p);
    assert ProcsHeld(s'.host.procs, s'.makers);
    PcKeepsPlaces(s.pool.place, s.makers, k, p);
    if !s.host.poolDestroyed {
      assert CreatorHolds(s.host.kernel, k, s.makers.creators[k]);
      CreatorKeepsKernel(s.pool.place, s.host.kernel, s.host.kernel, s.makers, k, p, Sandboxed(k));
    }
    if s.host.drawn < WRAP32 {
      PcKeepsDraws(s.pool.place, s.pool.place, s.host, s'.host, s.makers.creators, k, p);
    }
  }

  // ---------------------------------------------------- giving a net back

  lemma CreatorDoneShape(s: State, s': State, k: nat)
    requires Inv(s) && k in s.makers.creators
    requires s.makers.creators[k].Release? || s.makers.creators[k].Discard?
    requires s'.issued == s.issued && s'.nextTid == s.nextTid && s'.sess == s.sess && s'.desk == s.desk
    requires s'.makers == Makers(s.makers.creators[k := CreatorDone], s.makers.nets)
    requires s'.host.procs == s.host.procs
    ensures Identity(s') && Ownership(s') && Draining(s'.sess) && ProcsHeld(s'.host.procs, s'.makers)
  {
    PcKeepsIdentity(s, s', k, CreatorDone);
    PcKeepsOwnership(s, s', k, CreatorDone);
    PcKeepsProcs(s.host.procs, s.makers, k, CreatorDone);
  }

  /** A creator that gives up a configuration never waits for the channel. */
  lemma ReleaseNeverBlocks(s: State, k: nat)
    requires Inv(s) && k in s.makers.creators && s.makers.creators[k].Release?
    ensures !SendBlocks(s.pool, s.makers.creators[k].cfg)
  {
    var c := s.makers.creators[k].cfg;
    assert HeldFor(s.pool.place, k, c, WithCreator(k));
    if c.owner.PoolSlot? { RoomForSlot(s.pool, c.owner.i); }
  }

  lemma ReleasePlaced(p: Pool, h: Host, m: Makers, k: nat)
    requires ChannelPlaced(p) && HoldersPlaced(p.place, m)
    requires k in m.creators && m.creators[k].Release?
    ensures var p' := GiveBack(p, h, m.creators[k].cfg).0;
      && ChannelPlaced(p') && PlaceMoves(p.place, p'.place)
      && HoldersPlaced(p'.place, m.(creators := m.creators[k := CreatorDone]))
  {
    var c := m.creators[k].cfg;
    assert HeldFor(p.place, k, c, WithCreator(k));
    if c.owner.PoolSlot? {
      SendPlaced(p, c.owner.i);
      LeavePlaced(p.place, m, k, CreatorDone, c.owner.i, InChannel);
    } else {
      PcKeepsPlaces(p.place, m, k, CreatorDone);
    }
  }

  lemma ReleaseKernel(p: Pool, h: Host, m: Makers, k: nat)
    requires KernelOwned(p.place, h.kernel, m) && HoldersPlaced(p.place, m)
    requires k in m.creators && m.creators[k].Release? && k !in m.nets
    ensures var (p', h') := GiveBack(p, h, m.creators[k].cfg);
      KernelOwned(p'.place, h'.kernel, m.(creators := m.creators[k := CreatorDone]))
  {
    var c := m.creators[k].cfg;
    assert HeldFor(p.place, k, c, WithCreator(k)) && CreatorHolds(h.kernel, k, m.creators[k]);
    if !c.owner.PoolSlot? { CleanupKeepsOthers(h.kernel, c); }
    CreatorKeepsKernel(p.place, h.kernel, GiveBack(p, h, c).1.kernel, m, k, CreatorDone, Sandboxed(k));
  }

  lemma ReleaseInv(s: State, k: nat)
    requires Inv(s) && k in s.makers.creators && s.makers.creators[k].Release?
    ensures var (p, h) := GiveBack(s.pool, s.host, s.makers.creators[k].cfg);
      Inv(SetPc(s.(pool := p, host := h), k, CreatorDone))
  {
    var (p, h) := GiveBack(s.pool, s.host, s.makers.creators[k].cfg);
    CreatorDoneShape(s, SetPc(s.(pool := p, host := h), k, CreatorDone), k);
    ReleasePlaced(s.pool, s.host, s.makers, k);
    if !s.host.poolDestroyed { ReleaseKernel(s.pool, s.host, s.makers, k); }
    if s.host.drawn < WRAP32 {
      PcKeepsDraws(s.pool.place, p.place, s.host, h, s.makers.creators, k, CreatorDone);
    }
  }

  lemma DiscardPlaced(p: Pool, m: Makers, k: nat)
    requires ChannelPlaced(p) && HoldersPlaced(p.place, m)
    requires k in m.creators && m.creators[k].Discard?
    ensures var p' := Moved(p, m.creators[k].cfg, Dropped);
      && ChannelPlaced(p') && PlaceMoves(p.place, p'.place)
      && HoldersPlaced(p'.place, m.(creators := m.creators[k := CreatorDone]))
  {
    var c := m.creators[k].cfg;
    assert HeldFor(p.place, k, c, WithCreator(k));
    if c.owner.PoolSlot? {
      MovedPlaced(p, c.owner.i, Dropped);
      LeavePlaced(p.place, m, k, CreatorDone, c.owner.i, Dropped);
    } else {
      PcKeepsPlaces(p.place, m, k, CreatorDone);
    }
  }

  lemma DiscardKernel(p: Pool, kn: Kernel, m: Makers, k: nat)
    requires KernelOwned(p.place, kn, m) && HoldersPlaced(p.place, m)
    requires k in m.creators && m.creators[k].Discard? && k !in m.nets
    ensures var c := m.creators[k].cfg;
      KernelOwned(Moved(p, c, Dropped).place, CleanupNet(kn, c), m.(creators := m.creators[k := CreatorDone]))
  {
    var c := m.creators[k].cfg;
    assert HeldFor(p.place, k, c, WithCreator(k)) && CreatorHolds(kn, k, m.creators[k]);
    if c.owner.PoolSlot? {
      DropKeepsKernel(p.place, kn, m, k, c.owner.i, CreatorDone);
    } else {
      CleanupKeepsOthers(kn, c);
      CreatorKeepsKernel(p.place, kn, CleanupNet(kn, c), m, k, CreatorDone, Sandboxed(k));
    }
  }

  lemma DiscardInv(s: State, k: nat)
    requires Inv(s) && k in s.makers.creators && s.makers.creators[k].Discard?
    ensures var c := s.makers.creators[k].cfg;
      Inv(SetPc(s.(pool := Moved(s.pool, c, Dropped),
                   host := s.host.(kernel := CleanupNet(s.host.kernel, c))), k, CreatorDone))
  {
    var c := s.makers.creators[k].cfg;
    var p, h := Moved(s.pool, c, Dropped), s.host.(kernel := CleanupNet(s.host.kernel, c));
    CreatorDoneShape(s, SetPc(s.(pool := p, host := h), k, CreatorDone), k);
    DiscardPlaced(s.pool, s.makers, k);
    if !s.host.poolDestroyed { DiscardKernel(s.pool, s.host.kernel, s.makers, k); }
    if s.host.drawn < WRAP32 {
      PcKeepsDraws(s.pool.place, p.place, s.host, h, s.makers.creators, k, CreatorDone);
    }
  }

  // ---------------------------------------------------- the sandbox object

  lemma PublishShape(s: State, k: nat)
    requires Identity(s) && k in s.makers.creators && s.makers.creators[k].Boot?
    ensures Identity(Publish(s, k, s.makers.creators[k].cfg))
  {
  }

  /** The new object is fresh, and every other stays as it was. */
  lemma PublishFresh(s: State, k: nat)
    requires Identity(s) && Quiet(s.sess) && k in s.makers.creators && s.makers.creators[k].Boot?
    ensures var s' := Publish(s, k, s.makers.creators[k].cfg);
      && Fresh(s', k)
      && (forall r :: Fresh(s, r) ==> Fresh(s', r))
      && (forall p :: AtStage(s, p) && (Busy(p) ==> p.r != k) ==> AtStage(s', p))
  {
    assert k !in s.sess.lives;
  }

  lemma PublishOwnership(s: State, s': State, k: nat)
    requires Ownership(s) && k in s.makers.creators && s.makers.creators[k].Boot?
    requires s'.desk == s.desk.(cleanups := s.desk.cleanups[k := 0])
    requires s'.sess.lives == s.sess.lives[k := Life(Running, 0)]
    requires s'.makers.creators == s.makers.creators[k := Insert]
    requires Fresh(s', k) && (forall r :: Fresh(s, r) ==> Fresh(s', r))
    requires forall p :: AtStage(s, p) && (Busy(p) ==> p.r != k) ==> AtStage(s', p)
    ensures Ownership(s')
  {
    assert RegisteredFresh(s') && InsertsFresh(s') && WaitingFresh(s') && CleanedOnce(s');
    forall t, r | t in s.desk.downs && r in DownRefs(s.desk.downs[t])
      ensures r != k && Settled(s'.makers, r) && r !in s'.desk.registry.Values
    {
      assert Settled(s.makers, r);
    }
    assert TakenOut(s'.desk, s'.makers);
    forall t | t in s.desk.downs ensures AtStage(s', s.desk.downs[t]) {
      var p := s.desk.downs[t];
      if Busy(p) { BusySettled(s.desk, s.makers, t); }
      assert AtStage(s, p);
      assert AtStage(s', p);
    }
    assert StagesHold(s');
  }

  lemma PublishDraining(x: Sessions, k: nat)
    requires Draining(x) && k !in x.lives && k !in x.agents
    requires forall t :: t in x.execs ==> ExecRefs(x.execs[t]) <= x.lives.Keys
    ensures Draining(x.(lives := x.lives[k := Life(Running, 0)], agents := x.agents[k := Agent(true, None)]))
  {
    assert InFlightOn(x.execs, k) == {};
  }

  lemma PublishProcs(s: State, k: nat)
    requires ProcsHeld(s.host.procs, s.makers) && Identity(s) && k in s.makers.creators && s.makers.creators[k].Boot?
    ensures var s' := Publish(s, k, s.makers.creators[k].cfg); ProcsHeld(s'.host.procs, s'.makers)
  {
    assert k !in s.makers.nets;
  }

  lemma PublishPool(p: Pool, m: Makers, k: nat)
    requires ChannelPlaced(p) && HoldersPlaced(p.place, m)
    requires k in m.creators && m.creators[k].Boot? && k !in m.nets
    ensures var c := m.creators[k].cfg; var p' := Moved(p, c, WithSandbox(k));
      && ChannelPlaced(p') && PlaceMoves(p.place, p'.place)
      && HoldersPlaced(p'.place, Makers(m.creators[k := Insert], m.nets[k := c]))
  {
    var c := m.creators[k].cfg;
    assert HeldFor(p.place, k, c, WithCreator(k));
    if c.owner.PoolSlot? { MovedPlaced(p, c.owner.i, WithSandbox(k)); }
    PublishPlaced(p, m, k, c);
  }

  lemma PublishKernel(p: Pool, kn: Kernel, m: Makers, k: nat)
    requires KernelOwned(p.place, kn, m) && HoldersPlaced(p.place, m)
    requires k in m.creators && m.creators[k].Boot? && k !in m.nets
    ensures var c := m.creators[k].cfg;
      KernelOwned(Moved(p, c, WithSandbox(k)).place, kn, Makers(m.creators[k := Insert], m.nets[k := c]))
  {
    assert CreatorHolds(kn, k, m.creators[k]) && HeldFor(p.place, k, m.creators[k].cfg, WithCreator(k));
    CreatorKeepsKernel(p.place, kn, kn, m, k, Insert, Sandboxed(k));
  }

  lemma PublishFront(s: State, k: nat)
    requires Identity(s) && Ownership(s) && Draining(s.sess)
    requires k in s.makers.creators && s.makers.creators[k].Boot?
    ensures var s' := Publish(s, k, s.makers.creators[k].cfg);
      Identity(s') && Ownership(s') && Draining(s'.sess)
  {
    var s' := Publish(s, k, s.makers.creators[k].cfg);
    assert Identity(s') by { PublishShape(s, k); }
    assert Ownership(s') by {
      PublishFresh(s, k);
      PublishOwnership(s, s', k);
    }
    assert Draining(s'.sess) by {
      assert k !in s.sess.lives;
      PublishDraining(s.sess, k);
    }
  }

  lemma PublishBack(s: State, s': State, k: nat)
    requires Inv(s) && k in s.makers.creators && s.makers.creators[k].Boot?
    requires s' == Publish(s, k, s.makers.creators[k].cfg)
    ensures ChannelPlaced(s'.pool) && HoldersPlaced(s'.pool.place, s'.makers)
    ensures ProcsHeld(s'.host.procs, s'.makers)
    ensures !s'.host.poolDestroyed ==> KernelOwned(s'.pool.place, s'.host.kernel, s'.makers)
    ensures s'.host.drawn < WRAP32 ==> Draws(s'.pool.place, s'.host, s'.makers.creators)
  {
    PublishPool(s.pool, s.makers, k);
    PublishProcs(s, k);
    if !s.host.poolDestroyed { PublishKernel(s.pool, s.host.kernel, s.makers, k); }
    if s.host.drawn < WRAP32 {
      PcKeepsDraws(s.pool.place, s'.pool.place, s.host, s.host, s.makers.creators, k, Insert);
    }
  }

  lemma PublishInv(s: State, k: nat)
    requires Inv(s) && k in s.makers.creators && s.makers.creators[k].Boot?
    ensures Inv(Publish(s, k, s.makers.creators[k].cfg))
  {
    PublishFront(s, k);
    PublishBack(s, Publish(s, k, s.makers.creators[k].cfg), k);
  }

  lemma InsertOwnership(s: State, s': State, k: nat)
    requires Ownership(s)
    requires k in s.makers.creators && s.makers.creators[k].Insert?
    requires s' == SetPc(s.(desk := s.desk.(registry := s.desk.registry[k % WRAP64 := k])), k, CreatorDone)
    ensures Ownership(s')
  {
    assert forall r :: Fresh(s, r) ==> Fresh(s', r);
    assert forall r :: Settled(s.makers, r) ==> Settled(s'.makers, r);
    assert RegisteredFresh(s') && InsertsFresh(s') && WaitingFresh(s') && CleanedOnce(s');
    forall t | t in s.desk.downs ensures AtStage(s', s.desk.downs[t]) {
      assert AtStage(s, s.desk.downs[t]);
    }
    assert StagesHold(s');
    assert s'.desk.registry.Values <= s.desk.registry.Values + {k};
    forall t, r | t in s.desk.downs && r in DownRefs(s.desk.downs[t])
      ensures Settled(s'.makers, r) && r !in s'.desk.registry.Values
    {
      assert Settled(s.makers, r);
    }
  }

  /** Once published, a handler holds nothing any more. */
  lemma InsertMakers(place: map<nat, Place>, h: Host, m: Makers, k: nat)
    requires k in m.creators && m.creators[k].Insert?
    requires HoldersPlaced(place, m) && ProcsHeld(h.procs, m)
    ensures var m' := m.(creators := m.creators[k := CreatorDone]);
      && HoldersPlaced(place, m') && ProcsHeld(h.procs, m')
      && (KernelOwned(place, h.kernel, m) ==> KernelOwned(place, h.kernel, m'))
      && (Draws(place, h, m.creators) ==> Draws(place, h, m'.creators))
  {
    PcKeepsProcs(h.procs, m, k, CreatorDone);
    PcKeepsPlaces(place, m, k, CreatorDone);
    if Draws(place, h, m.creators) {
      PcKeepsDraws(place, place, h, h, m.creators, k, CreatorDone);
    }
  }

  function Inserted(s: State, k: nat): State {
    SetPc(s.(desk := s.desk.(registry := s.desk.registry[k % WRAP64 := k])), k, CreatorDone)
  }

  lemma InsertInv(s: State, k: nat)
    requires Inv(s) && k in s.makers.creators && s.makers.creators[k].Insert?
    ensures Inv(Inserted(s, k))
  {
    var s' := Inserted(s, k);
    InsertOwnership(s, s', k);
    assert Identity(s') by { PcKeepsIdentity(s, SetPc(s, k, CreatorDone), k, CreatorDone); }
    InsertMakers(s.pool.place, s.host, s.makers, k);
  }
}
