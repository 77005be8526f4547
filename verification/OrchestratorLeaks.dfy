/** Nothing is left over: what every link and every netns name in the kernel is there for,
    and the one thing that makes a name outlive its owner. */
module OrchestratorLeaks {
  import opened Options
  import opened Lifecycle
  import opened Orchestrator
  import opened OrchestratorInv
  import opened OrchestratorNet
  import opened OrchestratorSafety
  import opened OrchestratorTheorems
  import opened OrchestratorCollisions

  // ------------------------------------------------------- what is accounted for

  predicate OfTicket(o: Owner, k: nat) { o == Sandboxed(k) || o == Golden(k) }

  /** The owner whose name a creator has put into the kernel. */
  function NameClaim(k: nat, p: CreatorPc): Option<Owner> {
    match p
    case Build(stage) => if stage.MakeNs? then None else Some(Golden(k))
    case Built => Some(Golden(k))
    case Join(_, _, Setup(stage, _)) => if stage.MakeNs? then None else Some(Sandboxed(k))
    case _ => if CreatorCfg(p).Some? then Some(CreatorCfg(p).value.owner) else None
  }

  predicate SlotKept(place: map<nat, Place>, i: nat) { i in place && !place[i].Dropped? }

  predicate TicketHas(m: Makers, k: nat, c: NetCfg) {
    (k in m.creators && Claim(k, m.creators[k]) == Some(c)) || (k in m.nets && m.nets[k] == c)
  }

  predicate TicketNames(m: Makers, k: nat, o: Owner) {
    (k in m.creators && NameClaim(k, m.creators[k]) == Some(o)) || (k in m.nets && m.nets[k].owner == o)
  }

  /** The link belongs to a slot of the pool that was not dropped, or to the configuration
      or setup of the handler or sandbox it was made for. */
  predicate LinkUsed(place: map<nat, Place>, m: Makers, n: nat, o: Owner) {
    match o
    case PoolSlot(i) => n == i && SlotKept(place, i)
    case Sandboxed(k) => TicketHas(m, k, NetCfg(o, n))
    case Golden(k) => TicketHas(m, k, NetCfg(o, n))
  }

  predicate NameUsed(place: map<nat, Place>, m: Makers, x: NsName, o: Owner) {
    && x == NameOf(o)
    && match o
       case PoolSlot(i) => SlotKept(place, i)
       case Sandboxed(k) => TicketNames(m, k, o)
       case Golden(k) => TicketNames(m, k, o)
  }

  ghost predicate LinksUsed(place: map<nat, Place>, kn: Kernel, m: Makers) {
    forall n :: n in kn.links ==> LinkUsed(place, m, n, kn.links[n])
  }

  ghost predicate NamesUsed(place: map<nat, Place>, kn: Kernel, m: Makers) {
    forall x :: x in kn.named ==> NameUsed(place, m, x, kn.named[x])
  }

  // ------------------------------------------------------- one ticket's entries

  /** The ticket's links are this configuration's. */
  ghost predicate OwnLinks(kn: Kernel, k: nat, c: Option<NetCfg>) {
    forall n :: n in kn.links && OfTicket(kn.links[n], k) ==> c == Some(NetCfg(kn.links[n], n))
  }

  ghost predicate OwnNames(kn: Kernel, k: nat, o: Option<Owner>) {
    forall x :: x in kn.named && OfTicket(kn.named[x], k) ==> o == Some(kn.named[x]) && x == NameOf(kn.named[x])
  }

  /** What is new is the ticket's own. */
  ghost predicate OnlyOwnNew(kn: Kernel, kn': Kernel, k: nat) {
    && (forall n :: n in kn'.links && !OfTicket(kn'.links[n], k) ==> n in kn.links && kn.links[n] == kn'.links[n])
    && (forall x :: x in kn'.named && !OfTicket(kn'.named[x], k) ==> x in kn.named && kn.named[x] == kn'.named[x])
  }

  lemma LinksOfTicket(place: map<nat, Place>, kn: Kernel, m: Makers, k: nat)
    requires LinksUsed(place, kn, m) && k in m.creators && k !in m.nets
    ensures OwnLinks(kn, k, Claim(k, m.creators[k]))
  {
    forall n | n in kn.links && OfTicket(kn.links[n], k)
      ensures Claim(k, m.creators[k]) == Some(NetCfg(kn.links[n], n))
    {
      assert LinkUsed(place, m, n, kn.links[n]);
    }
  }

  lemma NamesOfTicket(place: map<nat, Place>, kn: Kernel, m: Makers, k: nat)
    requires NamesUsed(place, kn, m) && k in m.creators && k !in m.nets
    ensures OwnNames(kn, k, NameClaim(k, m.creators[k]))
  {
    forall x | x in kn.named && OfTicket(kn.named[x], k)
      ensures NameClaim(k, m.creators[k]) == Some(kn.named[x]) && x == NameOf(kn.named[x])
    {
      assert NameUsed(place, m, x, kn.named[x]);
    }
  }

  /** Slots are only given up together with their link and name. */
  ghost predicate SlotsKept(place: map<nat, Place>, place': map<nat, Place>, kn': Kernel) {
    forall i :: SlotKept(place, i) ==>
      SlotKept(place', i) || (i !in kn'.links && PoolNs(i) !in kn'.named)
  }

  /** A ticket moves on; everything else is used as before. */
  lemma LinksMoveOn(place: map<nat, Place>, place': map<nat, Place>, kn: Kernel, kn': Kernel, m: Makers, k: nat, p: CreatorPc)
    requires LinksUsed(place, kn, m) && k !in m.nets
    requires OnlyOwnNew(kn, kn', k) && SlotsKept(place, place', kn') && OwnLinks(kn', k, Claim(k, p))
    ensures LinksUsed(place', kn', Makers(m.creators[k := p], m.nets))
  {
    var m' := Makers(m.creators[k := p], m.nets);
    forall n | n in kn'.links ensures LinkUsed(place', m', n, kn'.links[n]) {
      var o := kn'.links[n];
      if !OfTicket(o, k) {
        assert LinkUsed(place, m, n, o);
        match o {
          case PoolSlot(i) => assert SlotKept(place, i);
          case Sandboxed(j) =>
          case Golden(j) =>
        }
      }
    }
  }

  lemma NamesMoveOn(place: map<nat, Place>, place': map<nat, Place>, kn: Kernel, kn': Kernel, m: Makers, k: nat, p: CreatorPc)
    requires NamesUsed(place, kn, m) && k !in m.nets
    requires OnlyOwnNew(kn, kn', k) && SlotsKept(place, place', kn')
    ensures NamesUsed(place', kn', Makers(m.creators[k := p], m.nets)) <==> OwnNames(kn', k, NameClaim(k, p))
  {
    var m' := Makers(m.creators[k := p], m.nets);
    if OwnNames(kn', k, NameClaim(k, p)) {
      forall x | x in kn'.named ensures NameUsed(place', m', x, kn'.named[x]) {
        var o := kn'.named[x];
        if !OfTicket(o, k) {
          assert NameUsed(place, m, x, o);
          match o {
            case PoolSlot(i) => assert SlotKept(place, i);
            case Sandboxed(j) =>
            case Golden(j) =>
          }
        }
      }
    }
    if NamesUsed(place', kn', m') { NamesOfTicket(place', kn', m', k); }
  }

  // ------------------------------------------------------- setups and cleanups

  /** A failing stage that leaves its name behind: the thread's own namespace could not be
      restored after the name was made, or the configuration failed past the look-up of
      the veth. */
  predicate Forgets(kn: Kernel, o: Owner, n: nat, stage: Stage, ok: bool, late: bool) {
    LateExit(kn, o, n, stage, ok, late) && (stage.Configure? ==> Named(kn, o))
  }

  function LinkAt(o: Owner, n: nat, res: SetupResult): Option<NetCfg> {
    if res.Live? || (res.More? && Linking(res.stage)) then Some(NetCfg(o, n)) else None
  }

  function NameAt(o: Owner, res: SetupResult): Option<Owner> {
    if res.Failed? || (res.More? && res.stage.MakeNs?) then None else Some(o)
  }

  lemma SetupOnlyOwn(kn: Kernel, k: nat, o: Owner, n: nat, stage: Stage, ok: bool, late: bool)
    requires OfTicket(o, k)
    ensures OnlyOwnNew(kn, SetupStep(kn, o, n, stage, ok, late).0, k)
  {
  }

  lemma SetupOwnLinks(kn: Kernel, k: nat, o: Owner, n: nat, stage: Stage, ok: bool, late: bool)
    requires OfTicket(o, k) && OwnLinks(kn, k, if Linking(stage) then Some(NetCfg(o, n)) else None)
    ensures var (kn', res) := SetupStep(kn, o, n, stage, ok, late); OwnLinks(kn', k, LinkAt(o, n, res))
  {
  }

  lemma SetupOwnNames(kn: Kernel, k: nat, o: Owner, n: nat, stage: Stage, ok: bool, late: bool)
    requires OfTicket(o, k) && OwnNames(kn, k, if stage.MakeNs? then None else Some(o))
    ensures var (kn', res) := SetupStep(kn, o, n, stage, ok, late);
      OwnNames(kn', k, NameAt(o, res)) <==> !Forgets(kn, o, n, stage, ok, late)
  {
    var (kn', res) := SetupStep(kn, o, n, stage, ok, late);
    if Forgets(kn, o, n, stage, ok, late) {
      assert NameOf(o) in kn'.named && kn'.named[NameOf(o)] == o;
    }
  }

  /** Cleaning up a configuration leaves none of its entries, and nothing new. */
  lemma CleanupOwnLinks(kn: Kernel, k: nat, c: NetCfg)
    requires OwnLinks(kn, k, Some(c))
    ensures OwnLinks(CleanupNet(kn, c), k, None) && OnlyOwnNew(kn, CleanupNet(kn, c), k)
  {
  }

  lemma CleanupOwnNames(kn: Kernel, k: nat, c: NetCfg)
    requires OwnNames(kn, k, Some(c.owner))
    ensures OwnNames(CleanupNet(kn, c), k, None)
  {
  }

  // ------------------------------------------------------- steps

  ghost predicate AllLinksUsed(s: State) { LinksUsed(s.pool.place, s.host.kernel, s.makers) }

  ghost predicate AllNamesUsed(s: State) { NamesUsed(s.pool.place, s.host.kernel, s.makers) }

  /** The handler's next step is a failing setup stage that forgets its name. */
  predicate ForgetsName(s: State, l: Label) {
    l.Create? && l.k in s.makers.creators &&
    match s.makers.creators[l.k]
    case Build(stage) => Forgets(s.host.kernel, Golden(l.k), GOLDEN_SUBNET, stage, l.ok, l.late)
    case Join(_, _, Setup(stage, n)) => l.w.Netter? && Forgets(s.host.kernel, Sandboxed(l.k), n, stage, l.ok, l.late)
    case _ => false
  }

  /** Links stay used, and names do if and only if none is forgotten. */
  ghost predicate Accounts(s: State, s': State, forgets: bool) {
    && (AllLinksUsed(s) ==> AllLinksUsed(s'))
    && (AllLinksUsed(s) && AllNamesUsed(s) ==> (AllNamesUsed(s') <==> !forgets))
  }

  predicate Working(s: State, k: nat) { k in s.makers.creators && k !in s.makers.nets }

  lemma MovesOn(s: State, s': State, k: nat, p: CreatorPc, forgets: bool)
    requires Working(s, k) && s'.makers == Makers(s.makers.creators[k := p], s.makers.nets)
    requires OnlyOwnNew(s.host.kernel, s'.host.kernel, k) && SlotsKept(s.pool.place, s'.pool.place, s'.host.kernel)
    requires OwnLinks(s.host.kernel, k, Claim(k, s.makers.creators[k])) ==> OwnLinks(s'.host.kernel, k, Claim(k, p))
    requires OwnNames(s.host.kernel, k, NameClaim(k, s.makers.creators[k])) ==>
      (OwnNames(s'.host.kernel, k, NameClaim(k, p)) <==> !forgets)
    ensures Accounts(s, s', forgets)
  {
    var place, kn, m := s.pool.place, s.host.kernel, s.makers;
    if AllLinksUsed(s) {
      LinksOfTicket(place, kn, m, k);
      LinksMoveOn(place, s'.pool.place, kn, s'.host.kernel, m, k, p);
      if AllNamesUsed(s) {
        NamesOfTicket(place, kn, m, k);
        NamesMoveOn(place, s'.pool.place, kn, s'.host.kernel, m, k, p);
      }
    }
  }

  /** A step that leaves the kernel alone and gives up no claim. */
  lemma PlainAccounts(s: State, s': State, k: nat, p: CreatorPc)
    requires Working(s, k) && s'.makers == Makers(s.makers.creators[k := p], s.makers.nets)
    requires s'.host.kernel == s.host.kernel && (forall i :: SlotKept(s.pool.place, i) ==> SlotKept(s'.pool.place, i))
    requires var q := s.makers.creators[k];
      (Claim(k, q).None? || Claim(k, p) == Claim(k, q)) && (NameClaim(k, q).None? || NameClaim(k, p) == NameClaim(k, q))
    ensures Accounts(s, s', false)
  {
    MovesOn(s, s', k, p, false);
  }

  lemma BuildAccounts(s: State, k: nat, w: Worker, ok: bool, late: bool)
    requires Working(s, k) && s.makers.creators[k].Build?
    ensures Accounts(s, CreateStep(s, k, w, ok, late), ForgetsName(s, Create(k, w, ok, late)))
  {
    var stage, kn := s.makers.creators[k].stage, s.host.kernel;
    var (kn', res) := SetupStep(kn, Golden(k), GOLDEN_SUBNET, stage, ok, late);
    var p := match res case More(st) => Build(st) case Failed => CreatorDone case Live => Built;
    SetupOnlyOwn(kn, k, Golden(k), GOLDEN_SUBNET, stage, ok, late);
    if OwnLinks(kn, k, Claim(k, s.makers.creators[k])) {
      SetupOwnLinks(kn, k, Golden(k), GOLDEN_SUBNET, stage, ok, late);
    }
    if OwnNames(kn, k, NameClaim(k, s.makers.creators[k])) {
      SetupOwnNames(kn, k, Golden(k), GOLDEN_SUBNET, stage, ok, late);
    }
    assert Claim(k, p) == LinkAt(Golden(k), GOLDEN_SUBNET, res) && NameClaim(k, p) == NameAt(Golden(k), res);
    MovesOn(s, CreateStep(s, k, w, ok, late), k, p, ForgetsName(s, Create(k, w, ok, late)));
  }

  lemma SetupAccounts(s: State, k: nat, ok: bool, late: bool)
    requires Working(s, k) && s.makers.creators[k].Join? && s.makers.creators[k].net.Setup?
    ensures Accounts(s, CreateStep(s, k, Netter, ok, late), ForgetsName(s, Create(k, Netter, ok, late)))
  {
    var Join(mode, copied, Setup(stage, n)) := s.makers.creators[k];
    var kn := s.host.kernel;
    var (kn', res) := SetupStep(kn, Sandboxed(k), n, stage, ok, late);
    var p := Join(mode, copied,
      match res case More(st) => Setup(st, n) case Failed => NetDone(None) case Live => NetDone(Some(NetCfg(Sandboxed(k), n))));
    SetupOnlyOwn(kn, k, Sandboxed(k), n, stage, ok, late);
    if OwnLinks(kn, k, Claim(k, s.makers.creators[k])) { SetupOwnLinks(kn, k, Sandboxed(k), n, stage, ok, late); }
    if OwnNames(kn, k, NameClaim(k, s.makers.creators[k])) { SetupOwnNames(kn, k, Sandboxed(k), n, stage, ok, late); }
    assert Claim(k, p) == LinkAt(Sandboxed(k), n, res) && NameClaim(k, p) == NameAt(Sandboxed(k), res);
    MovesOn(s, CreateStep(s, k, Netter, ok, late), k, p, ForgetsName(s, Create(k, Netter, ok, late)));
  }

  lemma TakeAccounts(s: State, k: nat, ok: bool, late: bool)
    requires Working(s, k) && s.makers.creators[k].Join? && s.makers.creators[k].net.TryPool?
    requires forall i :: i in s.pool.channel ==> SlotKept(s.pool.place, i)
    ensures Accounts(s, CreateStep(s, k, Netter, ok, late), false)
  {
    var s' := CreateStep(s, k, Netter, ok, late);
    PlainAccounts(s, s', k, s'.makers.creators[k]);
  }

  lemma JoinAccounts(s: State, k: nat, w: Worker, ok: bool, late: bool)
    requires Working(s, k) && s.makers.creators[k].Join?
    requires forall i :: i in s.pool.channel ==> SlotKept(s.pool.place, i)
    ensures Accounts(s, CreateStep(s, k, w, ok, late), ForgetsName(s, Create(k, w, ok, late)))
  {
    var Join(mode, copied, net) := s.makers.creators[k];
    if w.Netter? && net.Setup? {
      SetupAccounts(s, k, ok, late);
    } else if w.Netter? && net.TryPool? {
      TakeAccounts(s, k, ok, late);
    } else {
      var s' := CreateStep(s, k, w, ok, late);
      JoinIs(s, k, w, ok, late);
      PlainAccounts(s, s', k, s'.makers.creators[k]);
    }
  }

  lemma QuickClaims(s: State, k: nat, w: Worker, ok: bool, late: bool)
    requires k in s.makers.creators && (Quick(s.makers.creators[k]) || (s.makers.creators[k].Boot? && !ok))
    ensures var s', q := CreateStep(s, k, w, ok, late), s.makers.creators[k];
      && k in s'.makers.creators
      && s'.makers == Makers(s.makers.creators[k := s'.makers.creators[k]], s.makers.nets)
      && s'.host.kernel == s.host.kernel && s'.pool == s.pool
      && (Claim(k, q).None? || Claim(k, s'.makers.creators[k]) == Claim(k, q))
      && (NameClaim(k, q).None? || NameClaim(k, s'.makers.creators[k]) == NameClaim(k, q))
  {
    match s.makers.creators[k] {
      case Ensure =>
      case Mkdir(_) =>
      case Prep(_, _) =>
      case Boot(_, _) =>
    }
  }

  lemma BuiltAccounts(s: State, k: nat, w: Worker, ok: bool, late: bool)
    requires Working(s, k) && s.makers.creators[k].Built?
    ensures Accounts(s, CreateStep(s, k, w, ok, late), false)
  {
    var s', c, kn := CreateStep(s, k, w, ok, late), NetCfg(Golden(k), GOLDEN_SUBNET), s.host.kernel;
    CleanedUp(s, s', k, c, if ok then Mkdir(FromGolden) else CreatorDone);
  }

  /** A handler cleans up its configuration. */
  lemma CleanedUp(s: State, s': State, k: nat, c: NetCfg, p: CreatorPc)
    requires Working(s, k) && s'.makers == Makers(s.makers.creators[k := p], s.makers.nets)
    requires Claim(k, s.makers.creators[k]) == Some(c) && NameClaim(k, s.makers.creators[k]) == Some(c.owner)
    requires Claim(k, p).None? && NameClaim(k, p).None?
    requires s'.host.kernel == CleanupNet(s.host.kernel, c)
    requires SlotsKept(s.pool.place, s'.pool.place, s'.host.kernel)
    ensures Accounts(s, s', false)
  {
    var kn := s.host.kernel;
    if OwnLinks(kn, k, Some(c)) { CleanupOwnLinks(kn, k, c); }
    if OwnNames(kn, k, Some(c.owner)) { CleanupOwnNames(kn, k, c); }
    CleanupNothingNew(kn, k, c);
    MovesOn(s, s', k, p, false);
  }

  lemma CleanupNothingNew(kn: Kernel, k: nat, c: NetCfg)
    ensures OnlyOwnNew(kn, CleanupNet(kn, c), k)
  {
  }

  lemma ReleaseAccounts(s: State, k: nat, w: Worker, ok: bool, late: bool)
    requires Working(s, k) && s.makers.creators[k].Release?
    ensures Accounts(s, CreateStep(s, k, w, ok, late), false)
  {
    var s', c := CreateStep(s, k, w, ok, late), s.makers.creators[k].cfg;
    ReleaseIs(s, k, w, ok, late);
    if SendBlocks(s.pool, c) {
      assert s' == s;
    } else if c.owner.PoolSlot? {
      NoOwnEntries(s, k);
      MovesOn(s, s', k, CreatorDone, false);
    } else {
      CleanedUp(s, s', k, c, CreatorDone);
    }
  }

  /** A handler with a pool slot has no entries of its own. */
  lemma NoOwnEntries(s: State, k: nat)
    requires k in s.makers.creators
    requires var q := s.makers.creators[k]; q.Release? && q.cfg.owner.PoolSlot?
    ensures OwnLinks(s.host.kernel, k, Claim(k, s.makers.creators[k])) ==> OwnLinks(s.host.kernel, k, None)
    ensures OwnNames(s.host.kernel, k, NameClaim(k, s.makers.creators[k])) ==> OwnNames(s.host.kernel, k, None)
  {
  }

  lemma DiscardAccounts(s: State, k: nat, w: Worker, ok: bool, late: bool)
    requires Working(s, k) && s.makers.creators[k].Discard? && HoldersPlaced(s.pool.place, s.makers)
    ensures Accounts(s, CreateStep(s, k, w, ok, late), false)
  {
    var c := s.makers.creators[k].cfg;
    assert HeldFor(s.pool.place, k, c, WithCreator(k));
    DiscardIs(s, k, w, ok, late);
    CleanedUp(s, CreateStep(s, k, w, ok, late), k, c, CreatorDone);
  }

  // Sandboxes come and go.

  lemma PublishUsed(place: map<nat, Place>, place': map<nat, Place>, kn: Kernel, m: Makers, k: nat, c: NetCfg)
    requires k in m.creators && k !in m.nets && Claim(k, m.creators[k]) == Some(c) && NameClaim(k, m.creators[k]) == Some(c.owner)
    requires forall i :: SlotKept(place, i) ==> SlotKept(place', i)
    ensures LinksUsed(place, kn, m) ==> LinksUsed(place', kn, Makers(m.creators[k := Insert], m.nets[k := c]))
    ensures NamesUsed(place, kn, m) ==> NamesUsed(place', kn, Makers(m.creators[k := Insert], m.nets[k := c]))
  {
    var m' := Makers(m.creators[k := Insert], m.nets[k := c]);
    forall n | n in kn.links && LinkUsed(place, m, n, kn.links[n]) ensures LinkUsed(place', m', n, kn.links[n]) {
      LinkStill(place, place', m, k, c, n, kn.links[n]);
    }
    forall x | x in kn.named && NameUsed(place, m, x, kn.named[x]) ensures NameUsed(place', m', x, kn.named[x]) {
      NameStill(place, place', m, k, c, x, kn.named[x]);
    }
  }

  lemma LinkStill(place: map<nat, Place>, place': map<nat, Place>, m: Makers, k: nat, c: NetCfg, n: nat, o: Owner)
    requires k in m.creators && k !in m.nets && Claim(k, m.creators[k]) == Some(c)
    requires (forall i :: SlotKept(place, i) ==> SlotKept(place', i)) && LinkUsed(place, m, n, o)
    ensures LinkUsed(place', Makers(m.creators[k := Insert], m.nets[k := c]), n, o)
  {
    match o {
      case PoolSlot(i) => assert SlotKept(place, i);
      case Sandboxed(j) =>
      case Golden(j) =>
    }
  }

  lemma NameStill(place: map<nat, Place>, place': map<nat, Place>, m: Makers, k: nat, c: NetCfg, x: NsName, o: Owner)
    requires k in m.creators && k !in m.nets && NameClaim(k, m.creators[k]) == Some(c.owner)
    requires (forall i :: SlotKept(place, i) ==> SlotKept(place', i)) && NameUsed(place, m, x, o)
    ensures NameUsed(place', Makers(m.creators[k := Insert], m.nets[k := c]), x, o)
  {
    match o {
      case PoolSlot(i) => assert SlotKept(place, i);
      case Sandboxed(j) =>
      case Golden(j) =>
    }
  }

  lemma BootAccounts(s: State, k: nat, w: Worker, ok: bool, late: bool)
    requires Working(s, k) && s.makers.creators[k].Boot? && HoldersPlaced(s.pool.place, s.makers)
    ensures Accounts(s, CreateStep(s, k, w, ok, late), false)
  {
    var s', c := CreateStep(s, k, w, ok, late), s.makers.creators[k].cfg;
    if ok {
      BootOkStep(s, k, w, late);
      assert HeldFor(s.pool.place, k, c, WithCreator(k));
      PublishUsed(s.pool.place, s'.pool.place, s.host.kernel, s.makers, k, c);
    } else {
      QuickClaims(s, k, w, ok, late);
      PlainAccounts(s, s', k, s'.makers.creators[k]);
    }
  }

  lemma InsertAccounts(s: State, k: nat, w: Worker, ok: bool, late: bool)
    requires k in s.makers.creators && s.makers.creators[k].Insert?
    ensures Accounts(s, CreateStep(s, k, w, ok, late), false)
  {
    InsertIs(s, k, w, ok, late);
    DoneUsed(s.pool.place, s.host.kernel, s.makers, k);
  }

  lemma DoneUsed(place: map<nat, Place>, kn: Kernel, m: Makers, k: nat)
    requires k in m.creators && m.creators[k].Insert?
    ensures LinksUsed(place, kn, m) ==> LinksUsed(place, kn, Makers(m.creators[k := CreatorDone], m.nets))
    ensures NamesUsed(place, kn, m) ==> NamesUsed(place, kn, Makers(m.creators[k := CreatorDone], m.nets))
  {
    var m' := Makers(m.creators[k := CreatorDone], m.nets);
    forall n | n in kn.links && LinkUsed(place, m, n, kn.links[n]) ensures LinkUsed(place, m', n, kn.links[n]) {
    }
    forall x | x in kn.named && NameUsed(place, m, x, kn.named[x]) ensures NameUsed(place, m', x, kn.named[x]) {
    }
  }

  lemma CreateAccounts(s: State, k: nat, w: Worker, ok: bool, late: bool)
    requires Tidy(s) && ChannelPlaced(s.pool) && k in s.makers.creators
    ensures Accounts(s, CreateStep(s, k, w, ok, late), ForgetsName(s, Create(k, w, ok, late)))
  {
    var p := s.makers.creators[k];
    if !Published(p) { NoNetYet(s, k); }
    if Quick(p) {
      QuickClaims(s, k, w, ok, late);
      PlainAccounts(s, CreateStep(s, k, w, ok, late), k, CreateStep(s, k, w, ok, late).makers.creators[k]);
    }
    else if p.Build? { BuildAccounts(s, k, w, ok, late); }
    else if p.Built? { BuiltAccounts(s, k, w, ok, late); }
    else if p.Join? { JoinAccounts(s, k, w, ok, late); }
    else if p.Boot? { BootAccounts(s, k, w, ok, late); }
    else if p.Release? { ReleaseAccounts(s, k, w, ok, late); }
    else if p.Discard? { DiscardAccounts(s, k, w, ok, late); }
    else if p.Insert? { InsertAccounts(s, k, w, ok, late); }
    else { assert CreateStep(s, k, w, ok, late) == s; }
  }

  // ------------------------------------------------------- teardown

  /** A sandbox's configuration goes, and its entries with it. */
  lemma SandboxGone(place: map<nat, Place>, kn: Kernel, m: Makers, r: nat)
    requires r in m.nets && r in m.creators && Published(m.creators[r]) && !m.nets[r].owner.PoolSlot?
    ensures LinksUsed(place, kn, m) ==> LinksUsed(place, CleanupNet(kn, m.nets[r]), Makers(m.creators, m.nets - {r}))
    ensures NamesUsed(place, kn, m) ==> NamesUsed(place, CleanupNet(kn, m.nets[r]), Makers(m.creators, m.nets - {r}))
  {
    var kn', m' := CleanupNet(kn, m.nets[r]), Makers(m.creators, m.nets - {r});
    forall n | n in kn'.links && LinkUsed(place, m, n, kn.links[n]) ensures LinkUsed(place, m', n, kn'.links[n]) {
    }
    forall x | x in kn'.named && NameUsed(place, m, x, kn.named[x]) ensures NameUsed(place, m', x, kn'.named[x]) {
    }
  }

  /** A slot goes back into the channel, and keeps its entries. */
  lemma SlotReturned(place: map<nat, Place>, kn: Kernel, m: Makers, r: nat, i: nat)
    requires r in m.nets && m.nets[r] == SlotCfg(i)
    ensures LinksUsed(place, kn, m) ==> LinksUsed(place[i := InChannel], kn, Makers(m.creators, m.nets - {r}))
    ensures NamesUsed(place, kn, m) ==> NamesUsed(place[i := InChannel], kn, Makers(m.creators, m.nets - {r}))
  {
    var place', m' := place[i := InChannel], Makers(m.creators, m.nets - {r});
    forall n | n in kn.links && LinkUsed(place, m, n, kn.links[n]) ensures LinkUsed(place', m', n, kn.links[n]) {
    }
    forall x | x in kn.named && NameUsed(place, m, x, kn.named[x]) ensures NameUsed(place', m', x, kn.named[x]) {
    }
  }

  lemma PoolGone(size: nat, place: map<nat, Place>, kn: Kernel, m: Makers)
    ensures LinksUsed(place, kn, m) ==> LinksUsed(place, DestroyPoolNets(kn, size), m)
    ensures NamesUsed(place, kn, m) ==> NamesUsed(place, DestroyPoolNets(kn, size), m)
  {
    var kn' := DestroyPoolNets(kn, size);
    forall n | n in kn'.links && LinkUsed(place, m, n, kn.links[n]) ensures LinkUsed(place, m, n, kn'.links[n]) {
    }
    forall x | x in kn'.named && NameUsed(place, m, x, kn.named[x]) ensures NameUsed(place, m, x, kn'.named[x]) {
    }
  }

  lemma GivenBack(s: State, t: nat, timeout: bool, pick: nat)
    requires t in s.desk.downs && DownReady(s, s.desk.downs[t]) && s.desk.downs[t].ReleaseNet?
    ensures var s', c, r := DownStep(s, t, timeout, pick), s.makers.nets[s.desk.downs[t].r], s.desk.downs[t].r;
      if SendBlocks(s.pool, c) then s' == s
      else
        && s'.makers == Makers(s.makers.creators, s.makers.nets - {r})
        && s'.pool.place == (if c.owner.PoolSlot? then s.pool.place[c.owner.i := InChannel] else s.pool.place)
        && s'.host.kernel == (if c.owner.PoolSlot? then s.host.kernel else CleanupNet(s.host.kernel, c))
  {
  }

  lemma GiveBackAccounts(s: State, t: nat, timeout: bool, pick: nat)
    requires Tidy(s) && t in s.desk.downs && DownReady(s, s.desk.downs[t]) && s.desk.downs[t].ReleaseNet?
    ensures Accounts(s, DownStep(s, t, timeout, pick), false)
  {
    var r := s.desk.downs[t].r;
    var c := s.makers.nets[r];
    GivenBack(s, t, timeout, pick);
    assert HeldFor(s.pool.place, r, c, WithSandbox(r));
    if !SendBlocks(s.pool, c) {
      if c.owner.PoolSlot? {
        SlotReturned(s.pool.place, s.host.kernel, s.makers, r, c.owner.i);
      } else {
        SandboxGone(s.pool.place, s.host.kernel, s.makers, r);
      }
    }
  }

  lemma DownAccounts(s: State, t: nat, timeout: bool, pick: nat)
    requires Tidy(s) && t in s.desk.downs && DownReady(s, s.desk.downs[t])
    ensures Accounts(s, DownStep(s, t, timeout, pick), false)
  {
    if s.desk.downs[t].DestroyPool? {
      PoolGone(s.pool.size, s.pool.place, s.host.kernel, s.makers);
    } else if s.desk.downs[t].ReleaseNet? {
      GiveBackAccounts(s, t, timeout, pick);
    } else {
      OtherDowns(s, t, timeout, pick);
      SamePlaces(s, t, timeout, pick);
    }
  }

  lemma SamePlaces(s: State, t: nat, timeout: bool, pick: nat)
    requires t in s.desk.downs && DownReady(s, s.desk.downs[t])
    requires !s.desk.downs[t].ReleaseNet? && !s.desk.downs[t].DestroyPool?
    ensures DownStep(s, t, timeout, pick).pool == s.pool
  {
    match s.desk.downs[t] {
      case Remove(_) =>
      case TakeAll =>
      case Pick(_) =>
      case Begin(_, _) =>
      case Drain(_, _) =>
      case CloseAgent(_, _) =>
      case Kill(_, _) =>
      case Close(_, _) =>
      case DownDone =>
    }
  }

  // ------------------------------------------------------- every run

  lemma NewUsed(place: map<nat, Place>, kn: Kernel, m: Makers, k: nat, p: CreatorPc)
    requires k !in m.creators
    ensures LinksUsed(place, kn, m) ==> LinksUsed(place, kn, Makers(m.creators[k := p], m.nets))
    ensures NamesUsed(place, kn, m) ==> NamesUsed(place, kn, Makers(m.creators[k := p], m.nets))
  {
    var m' := Makers(m.creators[k := p], m.nets);
    forall n | n in kn.links && LinkUsed(place, m, n, kn.links[n]) ensures LinkUsed(place, m', n, kn.links[n]) {
    }
    forall x | x in kn.named && NameUsed(place, m, x, kn.named[x]) ensures NameUsed(place, m', x, kn.named[x]) {
    }
  }

  lemma StepAccounts(s: State, l: Label)
    requires Tidy(s) && ChannelPlaced(s.pool)
    ensures Accounts(s, Step(s, l), ForgetsName(s, l))
  {
    if Bystander(l) {
      var s' := Step(s, l);
      assert s'.makers == s.makers && s'.host == s.host && s'.pool == s.pool;
    } else if l.NewCreate? {
      NewUsed(s.pool.place, s.host.kernel, s.makers, s.issued + 1, if l.mode == FromGolden then Ensure else Mkdir(l.mode));
    } else if CanStep(s, l) {
      if l.Create? { CreateAccounts(s, l.k, l.w, l.ok, l.late); } else { DownAccounts(s, l.t, l.timeout, l.pick); }
    }
  }

  lemma InitUsed(size: nat)
    ensures AllLinksUsed(Init(size)) && AllNamesUsed(Init(size))
  {
    var s := Init(size);
    forall x | x in s.host.kernel.named ensures NameUsed(s.pool.place, s.makers, x, s.host.kernel.named[x]) {
      assert x in (set i | i in Slots(size) :: PoolNs(i)) && x.PoolNs?;
    }
  }

  lemma {:induction false} LinksOfRun(size: nat, ls: seq<Label>)
    ensures Inv(Run(Init(size), ls)) && AllLinksUsed(Run(Init(size), ls))
    decreases |ls|
  {
    InitInv(size);
    RunInv(Init(size), ls);
    if ls == [] {
      InitUsed(size);
    } else {
      var before := ls[..|ls| - 1];
      LinksOfRun(size, before);
      StepAccounts(Run(Init(size), before), ls[|ls| - 1]);
    }
  }

  // ------------------------------------------------------- theorems

  /** No link is ever left over: whatever fails, wherever, and however far the counters have
      gone, each link in the kernel belongs to a kept slot, a setup in progress, or a
      configuration that a handler or a sandbox still holds. */
  lemma NoStrayLinks(s: State)
    requires Reachable(s)
    ensures AllLinksUsed(s)
  {
    var size: nat, ls: seq<Label> :| s == Run(Init(size), ls);
    LinksOfRun(size, ls);
  }

  /** And the first name to be left over is left by one of the two forgetful exits, which
      always leaves one. */
  lemma ForgettingIsTheLeak(s: State, l: Label)
    requires Reachable(s) && AllNamesUsed(s)
    ensures AllNamesUsed(Step(s, l)) <==> !ForgetsName(s, l)
  {
    ReachableInv(s);
    NoStrayLinks(s);
    StepAccounts(s, l);
  }

  /** Without such an exit a whole run leaves neither. */
  lemma {:induction false} NoStrayNames(size: nat, ls: seq<Label>)
    requires forall i :: 0 <= i < |ls| ==> !ForgetsName(Run(Init(size), ls[..i]), ls[i])
    ensures AllNamesUsed(Run(Init(size), ls))
    decreases |ls|
  {
    if ls == [] {
      InitUsed(size);
    } else {
      var before := ls[..|ls| - 1];
      assert forall i :: 0 <= i < |before| ==> before[..i] == ls[..i] && before[i] == ls[i];
      NoStrayNames(size, before);
      ForgettingIsTheLeak(Run(Init(size), before), ls[|ls| - 1]);
    }
  }

  // ------------------------------------------------------- what a leftover name does

  /** A name that was made for a ticket and that nothing of the ticket's uses. */
  predicate Stray(s: State, x: NsName) {
    && x in s.host.kernel.named && x == NameOf(s.host.kernel.named[x])
    && match s.host.kernel.named[x]
       case PoolSlot(_) => false
       case Sandboxed(k) => !TicketNames(s.makers, k, Sandboxed(k))
       case Golden(k) => !TicketNames(s.makers, k, Golden(k))
  }

  /** The creator of a step and the sandboxes afterwards. */
  lemma MakersAfter(s: State, k: nat, w: Worker, ok: bool, late: bool)
    requires k in s.makers.creators
    ensures var m, m' := s.makers, CreateStep(s, k, w, ok, late).makers;
      && k in m'.creators && m'.creators == m.creators[k := m'.creators[k]]
      && (m'.nets == m.nets || (m.creators[k].Boot? && m'.nets == m.nets[k := m.creators[k].cfg]))
  {
    match s.makers.creators[k] {
      case Ensure =>
      case Build(_) =>
      case Built =>
      case Mkdir(_) =>
      case Join(_, _, _) => JoinIs(s, k, w, ok, late);
      case Prep(_, _) =>
      case Boot(_, _) => if ok { BootOkStep(s, k, w, late); }
      case Release(_) => ReleaseIs(s, k, w, ok, late);
      case Discard(_) =>
      case Insert =>
      case CreatorDone =>
    }
  }

  /** A creator comes to use a name only by making it. */
  lemma NameIsMade(s: State, k: nat, w: Worker, ok: bool, late: bool, o: Owner)
    requires k in s.makers.creators && OfTicket(o, k) && NameClaim(k, s.makers.creators[k]) != Some(o)
    requires NameOf(o) in s.host.kernel.named
    ensures var m' := CreateStep(s, k, w, ok, late).makers;
      k in m'.creators && NameClaim(k, m'.creators[k]) != Some(o)
  {
    match s.makers.creators[k] {
      case Ensure =>
      case Build(_) =>
      case Built =>
      case Mkdir(_) =>
      case Join(_, _, _) => JoinMakesName(s, k, w, ok, late, o);
      case Prep(_, _) =>
      case Boot(_, _) => if ok { BootOkStep(s, k, w, late); }
      case Release(_) => ReleaseIs(s, k, w, ok, late);
      case Discard(_) =>
      case Insert =>
      case CreatorDone =>
    }
  }

  lemma JoinMakesName(s: State, k: nat, w: Worker, ok: bool, late: bool, o: Owner)
    requires k in s.makers.creators && OfTicket(o, k) && NameClaim(k, s.makers.creators[k]) != Some(o)
    requires NameOf(o) in s.host.kernel.named && s.makers.creators[k].Join?
    ensures var m' := CreateStep(s, k, w, ok, late).makers;
      k in m'.creators && NameClaim(k, m'.creators[k]) != Some(o)
  {
    JoinIs(s, k, w, ok, late);
    var Join(mode, copied, net) := s.makers.creators[k];
    match w {
      case Copier =>
      case Main =>
      case Netter =>
        match net {
          case TryPool =>
          case Bump =>
          case Setup(_, _) =>
          case NetDone(_) =>
        }
    }
  }

  /** What the ticket itself does while its old name is in the way. */
  lemma OwnStepKeeps(s: State, k: nat, w: Worker, ok: bool, late: bool, o: Owner)
    requires k in s.makers.creators && OfTicket(o, k) && NameClaim(k, s.makers.creators[k]) != Some(o)
    requires Named(s.host.kernel, o) && ActingFor(s, Create(k, w, ok, late)) == o
    requires CreatorCfg(s.makers.creators[k]).Some? ==> !CreatorCfg(s.makers.creators[k]).value.owner.Golden?
    requires HoldersPlaced(s.pool.place, s.makers)
    ensures Named(CreateStep(s, k, w, ok, late).host.kernel, o)
  {
    match s.makers.creators[k] {
      case Ensure =>
      case Build(_) =>
      case Mkdir(_) =>
      case Join(_, _, _) => OwnJoinKeeps(s, k, w, ok, late, o);
      case Prep(_, _) =>
      case Boot(_, _) => if ok { BootOkStep(s, k, w, late); }
      case Release(c) =>
        assert HeldFor(s.pool.place, k, c, WithCreator(k));
        ReleaseIs(s, k, w, ok, late);
      case Insert =>
      case CreatorDone =>
      case _ =>
    }
  }

  lemma OwnJoinKeeps(s: State, k: nat, w: Worker, ok: bool, late: bool, o: Owner)
    requires k in s.makers.creators && s.makers.creators[k].Join?
    requires o == Sandboxed(k) && NameClaim(k, s.makers.creators[k]) != Some(o) && Named(s.host.kernel, o)
    ensures Named(CreateStep(s, k, w, ok, late).host.kernel, o)
  {
    JoinIs(s, k, w, ok, late);
    var Join(mode, copied, net) := s.makers.creators[k];
    match w {
      case Copier =>
      case Main =>
      case Netter =>
        match net {
          case TryPool =>
          case Bump =>
          case Setup(stage, n) => assert stage.MakeNs?;
          case NetDone(_) =>
        }
    }
  }

  function TicketOf(o: Owner): nat {
    match o
    case PoolSlot(_) => 0
    case Sandboxed(k) => k
    case Golden(k) => k
  }

  lemma CreateKeepsStray(s: State, k: nat, w: Worker, ok: bool, late: bool, x: NsName)
    requires Reachable(s) && !s.host.poolDestroyed && !Step(s, Create(k, w, ok, late)).host.poolDestroyed
    requires k in s.makers.creators && Stray(s, x)
    ensures Stray(Step(s, Create(k, w, ok, late)), x)
  {
    ReachableInv(s);
    NoForeignDeletion(s, Create(k, w, ok, late));
    if TicketOf(s.host.kernel.named[x]) == k {
      OwnCreateKeeps(s, k, w, ok, late, x);
    } else {
      OtherCreateKeeps(s, k, w, ok, late, x);
    }
  }

  lemma OwnCreateKeeps(s: State, k: nat, w: Worker, ok: bool, late: bool, x: NsName)
    requires HoldersPlaced(s.pool.place, s.makers) && k in s.makers.creators
    requires Stray(s, x) && TicketOf(s.host.kernel.named[x]) == k
    requires var l := Create(k, w, ok, late);
      KeepsOthers(s.host.kernel, CreateStep(s, k, w, ok, late).host.kernel, ActingFor(s, l))
    ensures Stray(CreateStep(s, k, w, ok, late), x)
  {
    var o := s.host.kernel.named[x];
    if ActingFor(s, Create(k, w, ok, late)) == o { OwnActKeeps(s, k, w, ok, late, o); }
    MakersAfter(s, k, w, ok, late);
    NameIsMade(s, k, w, ok, late, o);
  }

  lemma OwnActKeeps(s: State, k: nat, w: Worker, ok: bool, late: bool, o: Owner)
    requires k in s.makers.creators && OfTicket(o, k) && NameClaim(k, s.makers.creators[k]) != Some(o)
    requires Named(s.host.kernel, o) && ActingFor(s, Create(k, w, ok, late)) == o
    requires HoldersPlaced(s.pool.place, s.makers)
    ensures Named(CreateStep(s, k, w, ok, late).host.kernel, o)
  {
    if CreatorCfg(s.makers.creators[k]).Some? {
      assert HeldFor(s.pool.place, k, CreatorCfg(s.makers.creators[k]).value, WithCreator(k));
    }
    OwnStepKeeps(s, k, w, ok, late, o);
  }

  lemma OtherCreateKeeps(s: State, k: nat, w: Worker, ok: bool, late: bool, x: NsName)
    requires HoldersPlaced(s.pool.place, s.makers) && k in s.makers.creators
    requires Stray(s, x) && TicketOf(s.host.kernel.named[x]) != k
    requires var l := Create(k, w, ok, late);
      KeepsOthers(s.host.kernel, CreateStep(s, k, w, ok, late).host.kernel, ActingFor(s, l))
    ensures Stray(CreateStep(s, k, w, ok, late), x)
  {
    MakersAfter(s, k, w, ok, late);
    ActsForItsTicket(s, k, w, ok, late);
  }

  lemma ActsForItsTicket(s: State, k: nat, w: Worker, ok: bool, late: bool)
    requires HoldersPlaced(s.pool.place, s.makers) && k in s.makers.creators
    ensures var o := ActingFor(s, Create(k, w, ok, late)); OfTicket(o, k) || o.PoolSlot?
  {
    if s.makers.creators[k].Discard? {
      assert HeldFor(s.pool.place, k, s.makers.creators[k].cfg, WithCreator(k));
    }
  }

  lemma ReturnKeepsStray(s: State, t: nat, timeout: bool, pick: nat, x: NsName)
    requires HoldersPlaced(s.pool.place, s.makers) && Stray(s, x)
    requires t in s.desk.downs && DownReady(s, s.desk.downs[t]) && s.desk.downs[t].ReleaseNet?
    requires var r := s.desk.downs[t].r;
      KeepsOthers(s.host.kernel, DownStep(s, t, timeout, pick).host.kernel, Sandboxed(r))
    ensures Stray(DownStep(s, t, timeout, pick), x)
  {
    var r, o := s.desk.downs[t].r, s.host.kernel.named[x];
    GivenBack(s, t, timeout, pick);
    assert HeldFor(s.pool.place, r, s.makers.nets[r], WithSandbox(r));
    if o == Sandboxed(r) {
      assert s.makers.nets[r].owner.PoolSlot?;
    }
  }

  lemma DownKeepsStray(s: State, t: nat, timeout: bool, pick: nat, x: NsName)
    requires Reachable(s) && !s.host.poolDestroyed && !Step(s, Down(t, timeout, pick)).host.poolDestroyed
    requires Stray(s, x) && CanStep(s, Down(t, timeout, pick))
    ensures Stray(Step(s, Down(t, timeout, pick)), x)
  {
    ReachableInv(s);
    if s.desk.downs[t].ReleaseNet? {
      NoForeignDeletion(s, Down(t, timeout, pick));
      ReturnKeepsStray(s, t, timeout, pick, x);
    } else if !s.desk.downs[t].DestroyPool? {
      OtherDowns(s, t, timeout, pick);
    }
  }

  /** Until the pool's teardown a leftover name stays, whatever the server does. */
  lemma StrayStays(s: State, l: Label, x: NsName)
    requires Reachable(s) && Stray(s, x) && !Step(s, l).host.poolDestroyed && !s.host.poolDestroyed
    ensures Stray(Step(s, l), x)
  {
    if Bystander(l) {
      assert Step(s, l).makers == s.makers && Step(s, l).host == s.host;
    } else if l.NewCreate? {
      ReachableInv(s);
    } else if CanStep(s, l) {
      if l.Create? { CreateKeepsStray(s, l.k, l.w, l.ok, l.late, x); } else { DownKeepsStray(s, l.t, l.timeout, l.pick, x); }
    }
  }

  /** And keeps others of that name from being made: a golden snapshot can no longer be
      built once the golden netns is left over. */
  lemma StrayBlocks(s: State, k: nat, w: Worker, ok: bool, late: bool)
    requires k in s.makers.creators && s.makers.creators[k] == Build(MakeNs) && Stray(s, GoldenNs)
    ensures CreateStep(s, k, w, ok, late).makers.creators[k] == CreatorDone
  {
  }

  ghost predicate PoolUp(s: State, ls: seq<Label>) {
    forall i :: 0 <= i <= |ls| ==> !Run(s, ls[..i]).host.poolDestroyed
  }

  /** One forgotten golden name, and for as long as the server serves no create can finish
      a golden network again. */
  lemma {:induction false} ForgottenForEver(s: State, ls: seq<Label>, x: NsName)
    requires Reachable(s) && Stray(s, x) && PoolUp(s, ls)
    ensures Reachable(Run(s, ls)) && Stray(Run(s, ls), x)
    decreases |ls|
  {
    assert ls[..|ls|] == ls;
    if ls != [] {
      var before := ls[..|ls| - 1];
      assert forall i :: 0 <= i <= |before| ==> before[..i] == ls[..i];
      ForgottenForEver(s, before, x);
      StrayStays(Run(s, before), ls[|ls| - 1], x);
      ReachableStep(Run(s, before), ls[|ls| - 1]);
    }
  }

  /** The first create finds no golden snapshot and sets out to build one. */
  lemma FirstBuild(size: nat) returns (s: State)
    ensures Reachable(s) && AllNamesUsed(s) && 1 in s.makers.creators && s.makers.creators[1] == Build(MakeNs)
    ensures GoldenNs !in s.host.kernel.named && 1 !in s.makers.nets
  {
    var s0, a, b := Init(size), NewCreate(FromGolden), Create(1, Main, false, false);
    assert s0 == Run(s0, []);
    InitUsed(size);
    ReachableStep(s0, a);
    ForgettingIsTheLeak(s0, a);
    var s1 := Step(s0, a);
    ReachableStep(s1, b);
    ForgettingIsTheLeak(s1, b);
    s := Step(s1, b);
  }

  lemma BuildForgets(s: State, k: nat)
    requires k in s.makers.creators && s.makers.creators[k] == Build(MakeNs) && k !in s.makers.nets
    requires GoldenNs !in s.host.kernel.named
    ensures ForgetsName(s, Create(k, Main, false, true)) && Stray(Step(s, Create(k, Main, false, true)), GoldenNs)
  {
  }

  /** It does happen: there it makes the name and cannot get back to its own namespace. */
  lemma ForgettingHappens(size: nat)
    ensures exists s, l :: Reachable(s) && AllNamesUsed(s) && ForgetsName(s, l) && Stray(Step(s, l), GoldenNs)
  {
    var s := FirstBuild(size);
    BuildForgets(s, 1);
  }
}
