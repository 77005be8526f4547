/** How far the pool's teardown reaches: on which subnets two live configurations can meet. */
module OrchestratorCollisions {
  import opened Options
  import opened Lifecycle
  import opened Orchestrator
  import opened OrchestratorInv
  import opened OrchestratorSafety
  import opened OrchestratorTheorems

  // ------------------------------------------------ links outside the pool's range

  /** The link a creator counts on, its own configuration's or its setup's. */
  function Claim(k: nat, p: CreatorPc): Option<NetCfg> {
    match p
    case Build(stage) => if Linking(stage) then Some(NetCfg(Golden(k), GOLDEN_SUBNET)) else None
    case Built => Some(NetCfg(Golden(k), GOLDEN_SUBNET))
    case Join(_, _, Setup(stage, n)) => if Linking(stage) then Some(NetCfg(Sandboxed(k), n)) else None
    case _ => CreatorCfg(p)
  }

  /** It is there, unless it is a pool slot's or has a pool slot's number. */
  predicate Backed(size: nat, kn: Kernel, c: NetCfg) {
    !c.owner.PoolSlot? && c.subnet !in Slots(size) ==> Linked(kn, c.subnet, c.owner)
  }

  ghost predicate OutLinked(size: nat, kn: Kernel, m: Makers) {
    && (forall k :: k in m.creators && Claim(k, m.creators[k]).Some? ==> Backed(size, kn, Claim(k, m.creators[k]).value))
    && (forall r :: r in m.nets ==> Backed(size, kn, m.nets[r]))
  }

  /** Links of other owners outside the pool's range are kept. */
  ghost predicate KeepsOut(size: nat, kn: Kernel, kn': Kernel, k: nat) {
    forall n, o :: n !in Slots(size) && Linked(kn, n, o) && o != Golden(k) && o != Sandboxed(k) ==> Linked(kn', n, o)
  }

  lemma SetupLinks(size: nat, kn: Kernel, k: nat, o: Owner, n: nat, stage: Stage, ok: bool, late: bool)
    requires o == Golden(k) || o == Sandboxed(k)
    requires Linking(stage) ==> Backed(size, kn, NetCfg(o, n))
    ensures var (kn', res) := SetupStep(kn, o, n, stage, ok, late);
      && KeepsOut(size, kn, kn', k)
      && ((res.More? && Linking(res.stage)) || res.Live? ==> Backed(size, kn', NetCfg(o, n)))
  {
  }

  lemma CleanupLinks(size: nat, kn: Kernel, k: nat, c: NetCfg)
    requires Backed(size, kn, c) && (c.owner.PoolSlot? ==> c.subnet in Slots(size))
    requires c.owner.PoolSlot? || c.owner == Golden(k) || c.owner == Sandboxed(k)
    ensures KeepsOut(size, kn, CleanupNet(kn, c), k)
  {
  }

  /** A claim is in its ticket's name. */
  lemma ClaimIsOwn(s: State, k: nat)
    requires HoldersPlaced(s.pool.place, s.makers) && k in s.makers.creators
    requires Claim(k, s.makers.creators[k]).Some?
    ensures var c := Claim(k, s.makers.creators[k]).value;
      c.owner == Golden(k) || c.owner == Sandboxed(k) || (c.owner.PoolSlot? && c.subnet in s.pool.place)
  {
    match s.makers.creators[k] {
      case Build(_) =>
      case Built =>
      case Join(_, _, net) => if net.NetDone? { assert HeldFor(s.pool.place, k, net.cfg.value, WithCreator(k)); }
      case Prep(_, c) => assert HeldFor(s.pool.place, k, c, WithCreator(k));
      case Boot(_, c) => assert HeldFor(s.pool.place, k, c, WithCreator(k));
      case Release(c) => assert HeldFor(s.pool.place, k, c, WithCreator(k));
      case Discard(c) => assert HeldFor(s.pool.place, k, c, WithCreator(k));
    }
  }

  lemma NetIsOwn(s: State, r: nat)
    requires HoldersPlaced(s.pool.place, s.makers) && r in s.makers.nets
    ensures s.makers.nets[r].owner == Sandboxed(r)
            || (s.makers.nets[r].owner.PoolSlot? && s.makers.nets[r].subnet in s.pool.place)
  {
    assert HeldFor(s.pool.place, r, s.makers.nets[r], WithSandbox(r));
  }

  // ------------------------------------------------------------- steps

  /** Ticket k moves on; everyone else's claims stay backed. */
  lemma MovedOn(s: State, kn': Kernel, k: nat, p: CreatorPc)
    requires HoldersPlaced(s.pool.place, s.makers) && OutLinked(s.pool.size, s.host.kernel, s.makers)
    requires k !in s.makers.nets && KeepsOut(s.pool.size, s.host.kernel, kn', k)
    requires Claim(k, p).Some? ==> Backed(s.pool.size, kn', Claim(k, p).value)
    ensures OutLinked(s.pool.size, kn', Makers(s.makers.creators[k := p], s.makers.nets))
  {
    var size, kn, m := s.pool.size, s.host.kernel, s.makers;
    forall j | j in m.creators && j != k && Claim(j, m.creators[j]).Some?
      ensures Backed(size, kn', Claim(j, m.creators[j]).value)
    {
      ClaimIsOwn(s, j);
      assert Backed(size, kn, Claim(j, m.creators[j]).value);
    }
    forall r | r in m.nets ensures Backed(size, kn', m.nets[r]) {
      NetIsOwn(s, r);
      assert Backed(size, kn, m.nets[r]);
    }
  }

  /** A creator on its way has no sandbox yet. */
  lemma NoNetYet(s: State, k: nat)
    requires Identity(s) && k in s.makers.creators && !Published(s.makers.creators[k])
    ensures k !in s.makers.nets
  {
  }

  ghost predicate Tidy(s: State) {
    Identity(s) && HoldersPlaced(s.pool.place, s.makers) && s.pool.place.Keys == Slots(s.pool.size)
  }

  ghost predicate Safe(s: State) { OutLinked(s.pool.size, s.host.kernel, s.makers) }

  lemma PlainSafe(s: State, s': State, k: nat, p: CreatorPc)
    requires Tidy(s) && Safe(s) && k in s.makers.creators && !Published(s.makers.creators[k])
    requires s'.makers == Makers(s.makers.creators[k := p], s.makers.nets)
    requires s'.host.kernel == s.host.kernel && s'.pool.size == s.pool.size
    requires Claim(k, p).Some? ==> Claim(k, p) == Claim(k, s.makers.creators[k]) || Claim(k, p).value.owner.PoolSlot?
    ensures Safe(s')
  {
    NoNetYet(s, k);
    MovedOn(s, s.host.kernel, k, p);
  }

  lemma BuildSafe(s: State, k: nat, w: Worker, ok: bool, late: bool)
    requires Tidy(s) && Safe(s) && k in s.makers.creators && s.makers.creators[k].Build?
    ensures Safe(CreateStep(s, k, w, ok, late))
  {
    var stage := s.makers.creators[k].stage;
    var (kn', res) := SetupStep(s.host.kernel, Golden(k), GOLDEN_SUBNET, stage, ok, late);
    SetupLinks(s.pool.size, s.host.kernel, k, Golden(k), GOLDEN_SUBNET, stage, ok, late);
    NoNetYet(s, k);
    MovedOn(s, kn', k, match res case More(st) => Build(st) case Failed => CreatorDone case Live => Built);
  }

  lemma BuiltSafe(s: State, k: nat, w: Worker, ok: bool, late: bool)
    requires Tidy(s) && Safe(s) && k in s.makers.creators && s.makers.creators[k].Built?
    ensures Safe(CreateStep(s, k, w, ok, late))
  {
    var c := NetCfg(Golden(k), GOLDEN_SUBNET);
    assert Backed(s.pool.size, s.host.kernel, Claim(k, s.makers.creators[k]).value);
    CleanupLinks(s.pool.size, s.host.kernel, k, c);
    NoNetYet(s, k);
    MovedOn(s, CleanupNet(s.host.kernel, c), k, if ok then Mkdir(FromGolden) else CreatorDone);
  }

  lemma SetupSafe(s: State, k: nat, ok: bool, late: bool)
    requires Tidy(s) && Safe(s) && k in s.makers.creators
    requires s.makers.creators[k].Join? && s.makers.creators[k].net.Setup?
    ensures Safe(CreateStep(s, k, Netter, ok, late))
  {
    var Join(mode, copied, Setup(stage, n)) := s.makers.creators[k];
    var (kn', res) := SetupStep(s.host.kernel, Sandboxed(k), n, stage, ok, late);
    SetupLinks(s.pool.size, s.host.kernel, k, Sandboxed(k), n, stage, ok, late);
    NoNetYet(s, k);
    MovedOn(s, kn', k, Join(mode, copied,
      match res case More(st) => Setup(st, n) case Failed => NetDone(None) case Live => NetDone(Some(NetCfg(Sandboxed(k), n)))));
  }

  lemma JoinSafe(s: State, k: nat, w: Worker, ok: bool, late: bool)
    requires Tidy(s) && Safe(s) && k in s.makers.creators && s.makers.creators[k].Join?
    ensures Safe(CreateStep(s, k, w, ok, late))
  {
    var Join(mode, copied, net) := s.makers.creators[k];
    var s' := CreateStep(s, k, w, ok, late);
    if w.Netter? && net.Setup? {
      SetupSafe(s, k, ok, late);
    } else {
      JoinIs(s, k, w, ok, late);
      PlainSafe(s, s', k, s'.makers.creators[k]);
    }
  }

  lemma GiveUpSafe(s: State, k: nat, w: Worker, ok: bool, late: bool)
    requires Tidy(s) && Safe(s) && k in s.makers.creators
    requires s.makers.creators[k].Release? || s.makers.creators[k].Discard?
    ensures Safe(CreateStep(s, k, w, ok, late))
  {
    var c := s.makers.creators[k].cfg;
    ClaimIsOwn(s, k);
    assert Backed(s.pool.size, s.host.kernel, Claim(k, s.makers.creators[k]).value);
    CleanupLinks(s.pool.size, s.host.kernel, k, c);
    NoNetYet(s, k);
    MovedOn(s, CleanupNet(s.host.kernel, c), k, CreatorDone);
    MovedOn(s, s.host.kernel, k, CreatorDone);
  }

  lemma PublishClaims(s: State, k: nat, c: NetCfg)
    requires Tidy(s) && Safe(s) && k in s.makers.creators && !Published(s.makers.creators[k])
    requires Claim(k, s.makers.creators[k]) == Some(c)
    ensures OutLinked(s.pool.size, s.host.kernel, Makers(s.makers.creators[k := Insert], s.makers.nets[k := c]))
  {
    NoNetYet(s, k);
    MovedOn(s, s.host.kernel, k, Insert);
    assert Backed(s.pool.size, s.host.kernel, c);
  }

  lemma PublishSafe(s: State, k: nat, w: Worker, ok: bool, late: bool)
    requires Tidy(s) && Safe(s) && k in s.makers.creators && s.makers.creators[k].Boot?
    ensures Safe(CreateStep(s, k, w, ok, late))
  {
    var c := s.makers.creators[k].cfg;
    if ok {
      PublishClaims(s, k, c);
      assert CreateStep(s, k, w, ok, late) == Publish(s, k, c) by { BootOkStep(s, k, w, late); }
    } else {
      FailsOn(s, k, w, late);
      PlainSafe(s, CreateStep(s, k, w, ok, late), k, CreateStep(s, k, w, ok, late).makers.creators[k]);
    }
  }

  lemma FailsOn(s: State, k: nat, w: Worker, late: bool)
    requires k in s.makers.creators && s.makers.creators[k].Boot?
    ensures var s' := CreateStep(s, k, w, false, late);
      && s'.makers == Makers(s.makers.creators[k := s'.makers.creators[k]], s.makers.nets)
      && s'.host.kernel == s.host.kernel && s'.pool.size == s.pool.size
      && Claim(k, s'.makers.creators[k]) == Claim(k, s.makers.creators[k])
  {
  }

  predicate Quick(p: CreatorPc) { p.Ensure? || p.Mkdir? || p.Prep? }

  lemma QuickIs(s: State, k: nat, w: Worker, ok: bool, late: bool)
    requires k in s.makers.creators && Quick(s.makers.creators[k])
    ensures var s' := CreateStep(s, k, w, ok, late);
      && k in s'.makers.creators
      && s'.makers == Makers(s.makers.creators[k := s'.makers.creators[k]], s.makers.nets)
      && s'.host.kernel == s.host.kernel && s'.pool.size == s.pool.size
      && (Claim(k, s'.makers.creators[k]).Some? ==> Claim(k, s'.makers.creators[k]) == Claim(k, s.makers.creators[k]))
  {
  }

  lemma QuickSafe(s: State, k: nat, w: Worker, ok: bool, late: bool)
    requires Tidy(s) && Safe(s) && k in s.makers.creators && Quick(s.makers.creators[k])
    ensures Safe(CreateStep(s, k, w, ok, late))
  {
    QuickIs(s, k, w, ok, late);
    PlainSafe(s, CreateStep(s, k, w, ok, late), k, CreateStep(s, k, w, ok, late).makers.creators[k]);
  }

  lemma DoneSafe(s: State, k: nat)
    requires Safe(s) && k in s.makers.creators
    ensures OutLinked(s.pool.size, s.host.kernel, Makers(s.makers.creators[k := CreatorDone], s.makers.nets))
  {
    forall j | j in s.makers.creators && j != k && Claim(j, s.makers.creators[j]).Some?
      ensures Backed(s.pool.size, s.host.kernel, Claim(j, s.makers.creators[j]).value)
    {
    }
  }

  lemma InsertSafe(s: State, k: nat, w: Worker, ok: bool, late: bool)
    requires Safe(s) && k in s.makers.creators && s.makers.creators[k].Insert?
    ensures Safe(CreateStep(s, k, w, ok, late))
  {
    InsertIs(s, k, w, ok, late);
    DoneSafe(s, k);
  }

  lemma CreateSafe(s: State, k: nat, w: Worker, ok: bool, late: bool)
    requires Tidy(s) && Safe(s) && k in s.makers.creators
    ensures Safe(CreateStep(s, k, w, ok, late))
  {
    var p := s.makers.creators[k];
    if Quick(p) { QuickSafe(s, k, w, ok, late); }
    else if p.Build? { BuildSafe(s, k, w, ok, late); }
    else if p.Built? { BuiltSafe(s, k, w, ok, late); }
    else if p.Join? { JoinSafe(s, k, w, ok, late); }
    else if p.Boot? { PublishSafe(s, k, w, ok, late); }
    else if p.Release? || p.Discard? { GiveUpSafe(s, k, w, ok, late); }
    else if p.Insert? { InsertSafe(s, k, w, ok, late); }
    else { assert CreateStep(s, k, w, ok, late) == s; }
  }

  /** A network is given back; everyone else's claims stay backed. */
  lemma NetGone(s: State, kn': Kernel, r: nat)
    requires HoldersPlaced(s.pool.place, s.makers) && OutLinked(s.pool.size, s.host.kernel, s.makers)
    requires r in s.makers.creators && Claim(r, s.makers.creators[r]).None?
    requires KeepsOut(s.pool.size, s.host.kernel, kn', r)
    ensures OutLinked(s.pool.size, kn', Makers(s.makers.creators, s.makers.nets - {r}))
  {
    var size, kn, m := s.pool.size, s.host.kernel, s.makers;
    forall j | j in m.creators && Claim(j, m.creators[j]).Some? ensures Backed(size, kn', Claim(j, m.creators[j]).value) {
      ClaimIsOwn(s, j);
      assert Backed(size, kn, Claim(j, m.creators[j]).value);
    }
    forall q | q in m.nets && q != r ensures Backed(size, kn', m.nets[q]) {
      NetIsOwn(s, q);
      assert Backed(size, kn, m.nets[q]);
    }
  }

  lemma ReturnClaims(s: State, r: nat)
    requires Tidy(s) && Safe(s) && r in s.makers.nets
    ensures OutLinked(s.pool.size, CleanupNet(s.host.kernel, s.makers.nets[r]), Makers(s.makers.creators, s.makers.nets - {r}))
    ensures OutLinked(s.pool.size, s.host.kernel, Makers(s.makers.creators, s.makers.nets - {r}))
  {
    var c := s.makers.nets[r];
    NetIsOwn(s, r);
    assert Backed(s.pool.size, s.host.kernel, c);
    CleanupLinks(s.pool.size, s.host.kernel, r, c);
    PublishedHasNoClaim(s, r);
    NetGone(s, CleanupNet(s.host.kernel, c), r);
    NetGone(s, s.host.kernel, r);
  }

  lemma PublishedHasNoClaim(s: State, r: nat)
    requires Identity(s) && r in s.makers.nets
    ensures r in s.makers.creators && Claim(r, s.makers.creators[r]).None?
  {
  }

  lemma ReturnIs(s: State, t: nat, timeout: bool, pick: nat)
    requires t in s.desk.downs && DownReady(s, s.desk.downs[t]) && s.desk.downs[t].ReleaseNet?
    ensures var s' := DownStep(s, t, timeout, pick); var r := s.desk.downs[t].r;
      && s'.pool.size == s.pool.size
      && (s'.makers == s.makers || s'.makers == Makers(s.makers.creators, s.makers.nets - {r}))
      && (s'.host.kernel == s.host.kernel
          || (s'.host.kernel == CleanupNet(s.host.kernel, s.makers.nets[r]) && s'.makers != s.makers))
  {
  }

  lemma ReturnSafe(s: State, t: nat, timeout: bool, pick: nat)
    requires Tidy(s) && Safe(s) && t in s.desk.downs && DownReady(s, s.desk.downs[t]) && s.desk.downs[t].ReleaseNet?
    ensures Safe(DownStep(s, t, timeout, pick))
  {
    ReturnIs(s, t, timeout, pick);
    ReturnClaims(s, s.desk.downs[t].r);
  }

  lemma PoolDownSafe(s: State)
    requires Safe(s)
    ensures OutLinked(s.pool.size, DestroyPoolNets(s.host.kernel, s.pool.size), s.makers)
  {
    var size, kn, m := s.pool.size, s.host.kernel, s.makers;
    var kn' := DestroyPoolNets(kn, size);
    forall k | k in m.creators && Claim(k, m.creators[k]).Some? ensures Backed(size, kn', Claim(k, m.creators[k]).value) {
      assert Backed(size, kn, Claim(k, m.creators[k]).value);
    }
    forall r | r in m.nets ensures Backed(size, kn', m.nets[r]) {
      assert Backed(size, kn, m.nets[r]);
    }
  }

  lemma OtherDowns(s: State, t: nat, timeout: bool, pick: nat)
    requires t in s.desk.downs && DownReady(s, s.desk.downs[t])
    requires !s.desk.downs[t].ReleaseNet? && !s.desk.downs[t].DestroyPool?
    ensures var s' := DownStep(s, t, timeout, pick);
      s'.makers == s.makers && s'.host.kernel == s.host.kernel && s'.pool.size == s.pool.size
  {
    match s.desk.downs[t] {
      case Remove(_) =>
      case TakeAll =>
      case Pick(_) =>
      case Begin(_, _) =>
      case Drain(_, _) =>
      case CloseAgent(_, _) =>
      case Kill(_, _) =>
      case Close(_, _) =>
      case DownDone =>
    }
  }

  lemma DownSafe(s: State, t: nat, timeout: bool, pick: nat)
    requires Tidy(s) && Safe(s) && t in s.desk.downs && DownReady(s, s.desk.downs[t])
    ensures Safe(DownStep(s, t, timeout, pick))
  {
    if s.desk.downs[t].DestroyPool? { PoolDownSafe(s); }
    else if s.desk.downs[t].ReleaseNet? { ReturnSafe(s, t, timeout, pick); }
    else { OtherDowns(s, t, timeout, pick); }
  }

  lemma NewCreateSafe(s: State, mode: Mode)
    requires Tidy(s) && Safe(s)
    ensures Safe(Step(s, NewCreate(mode)))
  {
    var k := s.issued + 1;
    TicketUnused(s, k);
    MovedOn(s, s.host.kernel, k, if mode == FromGolden then Ensure else Mkdir(mode));
  }

  lemma TicketUnused(s: State, k: nat)
    requires Identity(s) && k > s.issued
    ensures k !in s.makers.nets
  {
  }

  predicate Bystander(l: Label) { !l.NewCreate? && !l.Create? && !l.Down? }

  lemma BystanderSafe(s: State, l: Label)
    requires Safe(s) && Bystander(l)
    ensures Safe(Step(s, l))
  {
    var s' := Step(s, l);
    assert s'.makers == s.makers && s'.host == s.host && s'.pool == s.pool;
  }

  lemma SafeStep(s: State, l: Label)
    requires Tidy(s) && Safe(s)
    ensures Safe(Step(s, l))
  {
    if Bystander(l) { BystanderSafe(s, l); }
    else if l.NewCreate? { NewCreateSafe(s, l.mode); }
    else if CanStep(s, l) {
      if l.Create? { CreateSafe(s, l.k, l.w, l.ok, l.late); } else { DownSafe(s, l.t, l.timeout, l.pick); }
    }
  }

  lemma {:induction false} SafeRun(size: nat, ls: seq<Label>)
    ensures Safe(Run(Init(size), ls))
    decreases |ls|
  {
    if ls != [] {
      var before := ls[..|ls| - 1];
      SafeRun(size, before);
      InitInv(size);
      RunInv(Init(size), before);
      SafeStep(Run(Init(size), before), ls[|ls| - 1]);
    }
  }

  // ------------------------------------------------------------- the bound

  /** Two live configurations share a subnet only after the pool was torn down, and only
      on a number of the pool's: numbers outside the pool's range stay distinct for ever,
      on-demand and golden snapshot alike. */
  lemma CollisionsBounded(s: State, c: NetCfg, d: NetCfg)
    requires Reachable(s) && LiveCfg(s, c) && LiveCfg(s, d)
    requires c != d && c.subnet == d.subnet
    ensures s.host.poolDestroyed && c.subnet in Slots(s.pool.size)
  {
    ReachableInv(s);
    if !s.host.poolDestroyed {
      LiveSubnetsDistinct(s, c, d);
    } else if c.subnet !in Slots(s.pool.size) {
      var size: nat, ls: seq<Label> :| s == Run(Init(size), ls);
      SafeRun(size, ls);
      LiveIsBacked(s, c);
      LiveIsBacked(s, d);
    }
  }

  lemma LiveIsBacked(s: State, c: NetCfg)
    requires Tidy(s) && Safe(s) && LiveCfg(s, c) && c.subnet !in Slots(s.pool.size)
    ensures Linked(s.host.kernel, c.subnet, c.owner)
  {
    if k :| k in s.makers.creators && CreatorCfg(s.makers.creators[k]) == Some(c) {
      assert Claim(k, s.makers.creators[k]) == Some(c);
      ClaimIsOwn(s, k);
      assert Backed(s.pool.size, s.host.kernel, c);
    } else if k :| k in s.makers.creators && s.makers.creators[k].Built? && c == NetCfg(Golden(k), GOLDEN_SUBNET) {
      assert Claim(k, s.makers.creators[k]) == Some(c);
      assert Backed(s.pool.size, s.host.kernel, c);
    } else if r :| r in s.makers.nets && s.makers.nets[r] == c {
      NetIsOwn(s, r);
      assert Backed(s.pool.size, s.host.kernel, c);
    }
  }
}
