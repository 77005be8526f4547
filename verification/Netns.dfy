/** Creating and removing per-sandbox networks, one after another: netns.go. */
module Netns {
  import opened Options
  import opened Orchestrator

  /** How the foreign calls of one setup end, in their order. */
  datatype Calls = Calls(created: bool, restored: bool, added: bool, moved: bool, found: bool, configured: bool)

  predicate Works(w: Calls) {
    w.created && w.restored && w.added && w.moved && w.found && w.configured
  }

  /** The two exits after which the netns keeps its name: the thread's own namespace could
      not be restored, or the configuration failed past the look-up of the veth. */
  predicate LeavesName(kn: Kernel, o: Owner, n: nat, w: Calls) {
    && w.created && NameOf(o) !in kn.named
    && (!w.restored
        || (w.added && n !in kn.links && kn.peer.None? && w.moved && w.found && n <= MAX_OCTET && !w.configured))
  }

  /** The root namespace as the process sees it. */
  class RootNs {
    var links: map<nat, Owner>
    var peer: Option<Owner>
    var named: map<NsName, Owner>

    function View(): Kernel
      reads this
    {
      Kernel(links, peer, named)
    }

    constructor ()
      ensures View() == Kernel(map[], None, map[])
    {
      links, peer, named := map[], None, map[];
    }

    method DeleteNamed(name: NsName)
      modifies this`named
      ensures View() == DeleteName(old(View()), name)
    {
      named := named - {name};
    }

    method LinkDel(n: nat)
      modifies this`links, this`peer
      ensures View() == DeleteLink(old(View()), n)
    {
      if n in links {
        if peer == Some(links[n]) { peer := None; }
        links := links - {n};
      }
    }

    /** Each stage says what it leaves, and is the transition the concurrent model takes
        for these results of the foreign calls in it. */
    method MakeNamed(o: Owner, n: nat, created: bool, restored: bool) returns (res: SetupResult)
      modifies this`named
      ensures res == if created && restored && NameOf(o) !in old(named) then More(AddVeth) else Failed
      ensures named == if created && NameOf(o) !in old(named) then old(named)[NameOf(o) := o] else old(named)
      ensures (View(), res) == SetupStep(old(View()), o, n, MakeNs, created && restored, created)
    {
      if !created || NameOf(o) in named { return Failed; }
      named := named[NameOf(o) := o];
      if !restored { return Failed; }
      res := More(AddVeth);
    }

    method AddVethPair(o: Owner, n: nat, added: bool) returns (res: SetupResult)
      modifies this
      ensures res == if added && n !in old(links) && old(peer).None? then More(MovePeer) else Failed
      ensures res.More? ==> View() == Kernel(old(links)[n := o], Some(o), old(named))
      ensures res.Failed? ==> View() == Kernel(old(links), old(peer), old(named) - {NameOf(o)})
      ensures (View(), res) == SetupStep(old(View()), o, n, AddVeth, added, false)
    {
      if !added || n in links || peer.Some? {
        DeleteNamed(NameOf(o));
        return Failed;
      }
      links, peer := links[n := o], Some(o);
      res := More(MovePeer);
    }

    method MovePeerIn(o: Owner, n: nat, moved: bool) returns (res: SetupResult)
      modifies this
      ensures res == if moved && old(peer).Some? then More(Configure) else Failed
      ensures res.More? ==> View() == Kernel(old(links), None, old(named))
      ensures res.Failed? ==> links == old(links) - {n} && named == old(named) - {NameOf(o)}
      ensures (View(), res) == SetupStep(old(View()), o, n, MovePeer, moved, false)
    {
      if !moved || peer.None? {
        DeleteNamed(NameOf(o));
        LinkDel(n);
        return Failed;
      }
      peer := None;
      res := More(Configure);
    }

    method ConfigureSides(o: Owner, n: nat, found: bool, configured: bool) returns (res: SetupResult)
      modifies this
      ensures res == if found && configured && n <= MAX_OCTET then Live else Failed
      ensures res.Live? ==> View() == old(View())
      ensures res.Failed? ==> links == old(links) - {n}
      ensures res.Failed? ==> named == if found && n <= MAX_OCTET then old(named) else old(named) - {NameOf(o)}
      ensures (View(), res) == SetupStep(old(View()), o, n, Configure, found && configured, found)
    {
      var cleanupVeth := true;
      if !found || n > MAX_OCTET {
        DeleteNamed(NameOf(o));
        res := Failed;
      } else if !configured {
        res := Failed;
      } else {
        cleanupVeth := false;
        res := Live;
      }
      if cleanupVeth { LinkDel(n); }
    }

    /** setupSandboxNetnsAndRouting for given results of its foreign calls.  It succeeds if
        and only if all of them do, the subnet is a free octet, the name is free and the
        fixed peer name is; success adds exactly the owner's link and name.  A failure
        leaves the kernel as it was, except for the owner's name on the two exits that
        forget it. */
    method Setup(o: Owner, n: nat, w: Calls) returns (cfg: Option<NetCfg>)
      modifies this
      ensures cfg.Some? <==>
        Works(w) && n <= MAX_OCTET && n !in old(links) && NameOf(o) !in old(named) && old(peer).None?
      ensures cfg.Some? ==>
        cfg.value == NetCfg(o, n) && View() == Kernel(old(links)[n := o], None, old(named)[NameOf(o) := o])
      ensures cfg.None? && !LeavesName(old(View()), o, n, w) ==> View() == old(View())
      ensures cfg.None? && LeavesName(old(View()), o, n, w) ==>
        View() == Kernel(old(links), old(peer), old(named)[NameOf(o) := o])
    {
      var res := MakeNamed(o, n, w.created, w.restored);
      if res.Failed? { return None; }
      res := AddVethPair(o, n, w.added);
      if res.Failed? {
        assert named == old(named);
        return None;
      }
      res := MovePeerIn(o, n, w.moved);
      if res.Failed? {
        assert links == old(links) && named == old(named);
        return None;
      }
      res := ConfigureSides(o, n, w.found, w.configured);
      if res.Failed? {
        assert links == old(links);
        assert NameOf(o) in named || named == old(named);
        return None;
      }
      cfg := Some(NetCfg(o, n));
    }

    /** cleanupSandboxNetnsAndRouting, every call in it succeeding: the link and the name
        go, and nothing else. */
    method Cleanup(c: NetCfg)
      modifies this
      ensures links == old(links) - {c.subnet} && named == old(named) - {NameOf(c.owner)}
      ensures View() == CleanupNet(old(View()), c)
    {
      LinkDel(c.subnet);
      DeleteNamed(NameOf(c.owner));
    }
  }

  /** All that a cleanup takes away. */
  lemma CleanupTakesItsOwn(kn: Kernel, c: NetCfg)
    ensures var kn' := CleanupNet(kn, c);
      && c.subnet !in kn'.links && NameOf(c.owner) !in kn'.named
      && (forall n :: n in kn.links && n != c.subnet ==> n in kn'.links && kn'.links[n] == kn.links[n])
      && (forall n :: n in kn'.links ==> n in kn.links)
      && (forall m :: m in kn.named && m != NameOf(c.owner) ==> m in kn'.named && kn'.named[m] == kn.named[m])
      && (forall m :: m in kn'.named ==> m in kn.named)
      && (kn'.peer == kn.peer || (kn'.peer.None? && c.subnet in kn.links && kn.peer == Some(kn.links[c.subnet])))
  {
  }

  /** The kernel after a successful setup on its own. */
  function WithNet(kn: Kernel, c: NetCfg): Kernel {
    Kernel(kn.links[c.subnet := c.owner], kn.peer, kn.named[NameOf(c.owner) := c.owner])
  }

  /** What a successful setup adds, the matching cleanup takes away again. */
  lemma CleanupUndoesSetup(kn: Kernel, c: NetCfg)
    requires c.subnet !in kn.links && NameOf(c.owner) !in kn.named && kn.peer.None?
    ensures CleanupNet(WithNet(kn, c), c) == kn
  {
    assert CleanupNet(WithNet(kn, c), c).links == kn.links;
    assert CleanupNet(WithNet(kn, c), c).named == kn.named;
  }
}
