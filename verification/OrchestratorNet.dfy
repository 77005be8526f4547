/** What network setup, cleanup and slot movements do to the kernel and the pool. */
module OrchestratorNet {
  import opened Options
  import opened Orchestrator
  import opened OrchestratorInv

  /** Nothing that carries another owner's mark is taken away. */
  ghost predicate KeepsOthers(kn: Kernel, kn': Kernel, o: Owner) {
    && (forall n :: n in kn.links && kn.links[n] != o ==> n in kn'.links && kn'.links[n] == kn.links[n])
    && (forall name :: name in kn.named && kn.named[name] != o ==>
          name in kn'.named && kn'.named[name] == kn.named[name])
    && (kn.peer.Some? && kn.peer != Some(o) ==> kn'.peer == kn.peer)
  }

  /** A setup stage, rollback included, touches only its own owner's entries, finds
      its own peer end, and succeeds only on a subnet that is an octet. */
  lemma SetupKeepsOthers(kn: Kernel, o: Owner, n: nat, stage: Stage, ok: bool, late: bool)
    requires StageHolds(kn, o, n, stage)
    ensures var (kn', res) := SetupStep(kn, o, n, stage, ok, late);
      && KeepsOthers(kn, kn', o)
      && (res.More? ==> StageHolds(kn', o, n, res.stage))
      && (res.Live? ==> CfgLive(kn', NetCfg(o, n)) && n <= MAX_OCTET && stage.Configure?)
  {
  }

  /** The two failing exits that leave the netns name in the kernel. */
  predicate LateExit(kn: Kernel, o: Owner, n: nat, stage: Stage, ok: bool, late: bool) {
    !ok && late && ((stage.MakeNs? && NameOf(o) !in kn.named) || (stage.Configure? && n <= MAX_OCTET))
  }

  /** What a failing stage leaves behind of the setup that reached it: no link, no peer
      end, and no name unless the exit is one of the two that forget it.  A link that was
      there before the veth was refused stays, and so does a name found taken. */
  lemma FailedStageLeaves(kn: Kernel, o: Owner, n: nat, stage: Stage, ok: bool, late: bool)
    requires StageHolds(kn, o, n, stage) && SetupStep(kn, o, n, stage, ok, late).1.Failed?
    ensures var kn' := SetupStep(kn, o, n, stage, ok, late).0;
      && (stage.MovePeer? || stage.Configure? ==> n !in kn'.links && kn'.peer != Some(o))
      && (stage.MakeNs? || stage.AddVeth? ==> kn'.links == kn.links && kn'.peer == kn.peer)
      && (stage.MakeNs? && !LateExit(kn, o, n, stage, ok, late) ==> kn' == kn)
      && (!stage.MakeNs? ==> (NameOf(o) in kn'.named <==> LateExit(kn, o, n, stage, ok, late)))
      && (LateExit(kn, o, n, stage, ok, late) ==> NameOf(o) in kn'.named && kn'.named[NameOf(o)] == o)
      && (forall j :: j in kn.links && j != n ==> j in kn'.links && kn'.links[j] == kn.links[j])
      && (forall j :: j in kn'.links ==> j in kn.links)
      && (forall m :: m in kn.named && m != NameOf(o) ==> m in kn'.named && kn'.named[m] == kn.named[m])
      && (forall m :: m in kn'.named && m != NameOf(o) ==> m in kn.named)
  {
  }

  /** A stage goes on exactly when its calls work and what it wants to make is not there. */
  lemma StageGoesOn(kn: Kernel, o: Owner, n: nat, stage: Stage, ok: bool, late: bool)
    requires StageHolds(kn, o, n, stage)
    ensures !SetupStep(kn, o, n, stage, ok, late).1.Failed? <==>
      && ok
      && (stage.MakeNs? ==> NameOf(o) !in kn.named)
      && (stage.AddVeth? ==> n !in kn.links && kn.peer.None?)
      && (stage.Configure? ==> n <= MAX_OCTET)
  {
  }

  lemma CleanupKeepsOthers(kn: Kernel, c: NetCfg)
    requires CfgLive(kn, c)
    ensures KeepsOthers(kn, CleanupNet(kn, c), c.owner)
  {
  }

  /** The veth can only be created when no one has the subnet's name. */
  lemma LinkingNeedsFreeName(kn: Kernel, o: Owner, n: nat, ok: bool, late: bool)
    ensures SetupStep(kn, o, n, AddVeth, ok, late).1.More? ==> n !in kn.links
  {
  }

  predicate OwnerFor(k: nat, o: Owner) { o == Sandboxed(k) || o == Golden(k) }

  /** A creator that works on its own configuration disturbs no one else's. */
  lemma CreatorKeepsKernel(place: map<nat, Place>, kn: Kernel, kn': Kernel, m: Makers, k: nat, p: CreatorPc, o: Owner)
    requires KernelOwned(place, kn, m) && HoldersPlaced(place, m)
    requires KeepsOthers(kn, kn', o) && OwnerFor(k, o)
    requires CreatorHolds(kn', k, p)
    requires k in m.creators && k !in m.nets
    ensures KernelOwned(place, kn', Makers(m.creators[k := p], m.nets))
  {
    var m' := Makers(m.creators[k := p], m.nets);
    forall j | j in m.creators && j != k ensures CreatorHolds(kn', j, m.creators[j]) {
      assert CreatorHolds(kn, j, m.creators[j]);
    }
    forall r | r in m.nets && !m.nets[r].owner.PoolSlot? ensures CfgLive(kn', m.nets[r]) {
      assert CfgLive(kn, m.nets[r]) && HeldFor(place, r, m.nets[r], WithSandbox(r));
    }
    forall i | i in place && !place[i].Dropped? ensures CfgLive(kn', SlotCfg(i)) {
      assert CfgLive(kn, SlotCfg(i));
    }
  }

  /** Dropping a slot the cold-boot way: its own link and name go, nothing else. */
  lemma DropKeepsKernel(place: map<nat, Place>, kn: Kernel, m: Makers, k: nat, i: nat, p: CreatorPc)
    requires KernelOwned(place, kn, m) && HoldersPlaced(place, m)
    requires i in place && !place[i].Dropped? && k in m.creators && k !in m.nets
    requires CreatorHolds(CleanupNet(kn, SlotCfg(i)), k, p)
    ensures KernelOwned(place[i := Dropped], CleanupNet(kn, SlotCfg(i)), Makers(m.creators[k := p], m.nets))
  {
    var kn' := CleanupNet(kn, SlotCfg(i));
    CleanupKeepsOthers(kn, SlotCfg(i));
    forall j | j in m.creators && j != k ensures CreatorHolds(kn', j, m.creators[j]) {
      assert CreatorHolds(kn, j, m.creators[j]);
    }
    forall j | j in place && j != i && !place[j].Dropped? ensures CfgLive(kn', SlotCfg(j)) {
      assert CfgLive(kn, SlotCfg(j));
    }
  }

  /** Releasing a sandbox's own configuration. */
  lemma SandboxKeepsKernel(place: map<nat, Place>, kn: Kernel, m: Makers, r: nat)
    requires KernelOwned(place, kn, m) && HoldersPlaced(place, m)
    requires r in m.nets && m.nets[r].owner == Sandboxed(r)
    requires r in m.creators && m.creators[r].CreatorDone?
    ensures KernelOwned(place, CleanupNet(kn, m.nets[r]), Makers(m.creators, m.nets - {r}))
  {
    var kn' := CleanupNet(kn, m.nets[r]);
    CleanupKeepsOthers(kn, m.nets[r]);
    forall j | j in m.creators ensures CreatorHolds(kn', j, m.creators[j]) {
      assert CreatorHolds(kn, j, m.creators[j]);
      if CreatorCfg(m.creators[j]).Some? {
        assert HeldFor(place, j, CreatorCfg(m.creators[j]).value, WithCreator(j));
      }
    }
    forall q | q in m.nets && q != r && !m.nets[q].owner.PoolSlot? ensures CfgLive(kn', m.nets[q]) {
      assert CfgLive(kn, m.nets[q]) && HeldFor(place, q, m.nets[q], WithSandbox(q));
    }
    forall i | i in place && !place[i].Dropped? ensures CfgLive(kn', SlotCfg(i)) {
      assert CfgLive(kn, SlotCfg(i));
    }
  }

  // ------------------------------------------------------ slot movements

  /** A pc change that leaves the held configuration alone, or changes it among none
      and the ticket's own, moves no slot. */
  lemma PcKeepsPlaces(place: map<nat, Place>, m: Makers, k: nat, p: CreatorPc)
    requires HoldersPlaced(place, m) && k in m.creators
    requires
      || CreatorCfg(p) == CreatorCfg(m.creators[k])
      || ((CreatorCfg(p).Some? ==> CreatorCfg(p).value.owner == Sandboxed(k))
          && (CreatorCfg(m.creators[k]).Some? ==> !CreatorCfg(m.creators[k]).value.owner.PoolSlot?))
    ensures HoldersPlaced(place, m.(creators := m.creators[k := p]))
  {
  }

  lemma TakePlaced(place: map<nat, Place>, m: Makers, k: nat, p: CreatorPc, i: nat)
    requires HoldersPlaced(place, m) && k in m.creators
    requires CreatorCfg(m.creators[k]).None? && CreatorCfg(p) == Some(SlotCfg(i))
    requires i in place && place[i].InChannel?
    ensures HoldersPlaced(place[i := WithCreator(k)], m.(creators := m.creators[k := p]))
  {
  }

  lemma LeavePlaced(place: map<nat, Place>, m: Makers, k: nat, p: CreatorPc, i: nat, to: Place)
    requires HoldersPlaced(place, m) && k in m.creators
    requires CreatorCfg(m.creators[k]) == Some(SlotCfg(i)) && CreatorCfg(p).None?
    requires to.InChannel? || to.Dropped?
    ensures HoldersPlaced(place[i := to], m.(creators := m.creators[k := p]))
    ensures i in place && place[i] == WithCreator(k)
  {
  }

  lemma PublishPlaced(p: Pool, m: Makers, k: nat, c: NetCfg)
    requires HoldersPlaced(p.place, m) && k in m.creators && k !in m.nets
    requires CreatorCfg(m.creators[k]) == Some(c)
    ensures HoldersPlaced(Moved(p, c, WithSandbox(k)).place, Makers(m.creators[k := Insert], m.nets[k := c]))
  {
    var place := Moved(p, c, WithSandbox(k)).place;
    assert HeldFor(p.place, k, c, WithCreator(k));
    forall r | r in m.nets ensures HeldFor(place, r, m.nets[r], WithSandbox(r)) {
      assert HeldFor(p.place, r, m.nets[r], WithSandbox(r));
    }
    forall j | j in m.creators && j != k && CreatorCfg(m.creators[j]).Some?
      ensures HeldFor(place, j, CreatorCfg(m.creators[j]).value, WithCreator(j))
    {
      assert HeldFor(p.place, j, CreatorCfg(m.creators[j]).value, WithCreator(j));
    }
  }

  lemma ReturnPlaced(place: map<nat, Place>, m: Makers, r: nat)
    requires HoldersPlaced(place, m) && r in m.nets
    ensures match m.nets[r].owner
      case PoolSlot(i) =>
        && i in place && place[i] == WithSandbox(r)
        && HoldersPlaced(place[i := InChannel], m.(nets := m.nets - {r}))
      case _ => HoldersPlaced(place, m.(nets := m.nets - {r}))
  {
    assert HeldFor(place, r, m.nets[r], WithSandbox(r));
  }

  /** A sequence without duplicates is no longer than a set its elements come from. */
  lemma {:induction false} Pigeonhole(q: seq<nat>, u: set<nat>)
    requires NoDuplicates(q) && forall i :: i in q ==> i in u
    ensures |q| <= |u|
    decreases |q|
  {
    if q != [] {
      var last := q[|q| - 1];
      assert forall i :: i in q[..|q| - 1] ==> i in q && i in u - {last};
      Pigeonhole(q[..|q| - 1], u - {last});
    }
  }

  lemma {:induction false} SlotsCount(size: nat)
    ensures |Slots(size)| == size
  {
    if size > 0 {
      SlotsCount(size - 1);
      assert forall i :: IsSlot(size, i) <==> IsSlot(size - 1, i) || i == size;
      assert Slots(size) == Slots(size - 1) + {size};
    }
  }

  /** With slot `i` outside, the channel has room for it. */
  lemma RoomForSlot(p: Pool, i: nat)
    requires ChannelPlaced(p) && i in p.place && !p.place[i].InChannel?
    ensures |p.channel| < p.size
    ensures !SendBlocks(p, SlotCfg(i))
  {
    SlotsCount(p.size);
    Pigeonhole(p.channel, Slots(p.size) - {i});
  }

  lemma SendPlaced(p: Pool, i: nat)
    requires ChannelPlaced(p) && i in p.place && !p.place[i].InChannel?
    ensures ChannelPlaced(Pool(p.size, p.channel + [i], p.place[i := InChannel]))
  {
    var q := p.channel + [i];
    assert forall j :: j in q <==> j in p.channel || j == i;
  }

  lemma RecvPlaced(p: Pool, k: nat)
    requires ChannelPlaced(p) && p.channel != []
    ensures p.channel[0] in p.place
    ensures ChannelPlaced(Pool(p.size, p.channel[1..], p.place[p.channel[0] := WithCreator(k)]))
  {
    assert p.channel == [p.channel[0]] + p.channel[1..];
    assert p.channel[0] in p.channel;
    assert forall j :: j in p.channel[1..] ==> j in p.channel && j != p.channel[0];
  }

  lemma MovedPlaced(p: Pool, i: nat, to: Place)
    requires ChannelPlaced(p) && i in p.place && !p.place[i].InChannel? && !to.InChannel?
    ensures ChannelPlaced(p.(place := p.place[i := to]))
  {
  }
}
