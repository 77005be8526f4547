/** The pool of prepared network slots, and the pool-then-on-demand policy. */
module Pools {
  import opened Options
  import opened Orchestrator
  import opened OrchestratorInv
  import opened Channels
  import opened Netns

  /** Slots 1 to n, in order. */
  function FirstSlots(n: nat): seq<NetCfg> {
    seq(n, (i: nat) => SlotCfg(i + 1))
  }

  /** Links and names that are not of the pool's numbers are as they were. */
  ghost predicate Beyond(size: nat, kn: Kernel, kn': Kernel) {
    && (forall n :: !(1 <= n <= size) ==> (n in kn'.links <==> n in kn.links))
    && (forall n :: n in kn.links && n in kn'.links && !(1 <= n <= size) ==> kn'.links[n] == kn.links[n])
    && (forall m: NsName :: !(m.PoolNs? && 1 <= m.i <= size) ==> (m in kn'.named <==> m in kn.named))
    && (forall m: NsName :: m in kn.named && m in kn'.named && !(m.PoolNs? && 1 <= m.i <= size) ==> kn'.named[m] == kn.named[m])
  }

  class NetnsPool {
    const size: nat
    const ch: Channel<NetCfg>
    const root: RootNs
    var all: seq<NetCfg>
    var started: bool

    ghost predicate Valid()
      reads this, ch
    {
      ch.Valid() && ch.slots.Length == size
    }

    ghost function Offered(): seq<NetCfg>
      requires Valid()
      reads this, ch, ch.slots
    {
      ch.Contents()
    }

    constructor (root: RootNs, size: nat)
      ensures Valid() && fresh(ch) && fresh(ch.slots)
      ensures this.root == root && this.size == size
      ensures all == [] && !started && Offered() == []
    {
      this.root, this.size := root, size;
      ch := new Channel<NetCfg>(size);
      all, started := [], false;
    }

    /** One entry: what an earlier run left of it is cleaned up first. */
    method MakeEntry(i: nat, w: Calls) returns (cfg: Option<NetCfg>)
      requires 1 <= i
      modifies root
      ensures cfg.Some? ==> cfg.value == SlotCfg(i) && Works(w) && i <= MAX_OCTET && CfgLive(root.View(), SlotCfg(i))
      ensures cfg.None? ==> !Works(w) || i > MAX_OCTET || old(root.peer).Some?
      ensures cfg.None? ==> i !in root.links
      ensures cfg.None? && w.restored && (w.configured || !w.found) ==> PoolNs(i) !in root.named
      ensures forall m: NsName :: m != PoolNs(i) ==> (m in root.named <==> m in old(root.named))
      ensures forall m: NsName :: m != PoolNs(i) && m in root.named ==> root.named[m] == old(root.named[m])
      ensures root.peer.Some? ==> old(root.peer).Some?
      ensures forall n :: n != i ==> (n in root.links <==> n in old(root.links))
      ensures forall n :: n != i && n in root.links ==> root.links[n] == old(root.links[n])
      ensures forall c: NetCfg :: c.owner.PoolSlot? && c.owner.i != i && c.subnet != i && CfgLive(old(root.View()), c) ==>
        CfgLive(root.View(), c)
    {
      root.Cleanup(SlotCfg(i));
      cfg := root.Setup(PoolSlot(i), i, w);
    }

    /** Init, for given results of the foreign calls of each setup.  It succeeds if and only
        if all of them do, the fixed peer name is free and every number is an octet; then
        all slots 1..size are configured and on offer in order.  A failed init keeps the
        slots made before the failing one; a second call does nothing and reports
        success. */
    method Init(calls: seq<Calls>) returns (ok: bool)
      requires Valid() && |calls| == size
      requires !started ==> all == [] && Offered() == []
      modifies this`all, this`started, ch, ch.slots, root
      ensures Valid() && started
      ensures old(started) ==>
        ok && all == old(all) && Offered() == old(Offered()) && root.View() == old(root.View())
      ensures !old(started) ==> Offered() == all && |all| <= size && all == FirstSlots(|all|)
      ensures !old(started) ==> forall c :: c in all ==> CfgLive(root.View(), c)
      ensures !old(started) ==>
        forall i :: 0 <= i < |all| ==> all[i] == NetCfg(PoolSlot(i + 1), i + 1) && Works(calls[i])
      ensures !old(started) ==> (ok <==> |all| == size) && (ok ==> size <= MAX_OCTET)
      ensures !old(started) && !ok ==>
        !Works(calls[|all|]) || |all| >= MAX_OCTET || old(root.peer).Some?
      ensures !old(started) && !ok ==> |all| + 1 !in root.links
      ensures Beyond(size, old(root.View()), root.View())
    {
      if started { return true; }
      started := true;
      assert all == FirstSlots(0);
      ok := Fill(calls);
    }

    /** Init's loop. */
    method Fill(calls: seq<Calls>) returns (ok: bool)
      requires Made() && all == [] && |calls| == size
      modifies this`all, ch, ch.slots, root
      ensures Made() && |all| <= size && (ok <==> |all| == size) && (ok ==> size <= MAX_OCTET)
      ensures forall k :: 0 <= k < |all| ==> Works(calls[k])
      ensures !ok ==> !Works(calls[|all|]) || |all| >= MAX_OCTET || old(root.peer).Some?
      ensures !ok ==> |all| + 1 !in root.links
      ensures Beyond(size, old(root.View()), root.View())
    {
      ghost var kernel := root.View();
      while |all| < size
        invariant Made() && |all| <= size && |all| <= MAX_OCTET
        invariant forall k :: 0 <= k < |all| ==> Works(calls[k])
        invariant root.peer.Some? ==> old(root.peer).Some?
        invariant Beyond(size, kernel, root.View())
        decreases size - |all|
      {
        var made := NextEntry(calls[|all|], kernel);
        if !made { return false; }
      }
      ok := true;
    }

    /** Slots 1, 2, .. are configured and on offer in order. */
    ghost predicate Made()
      reads this, ch, ch.slots, root
    {
      && Valid() && started && all == FirstSlots(|all|) && Offered() == all
      && forall c :: c in all ==> c.owner.PoolSlot? && c.owner.i == c.subnet <= |all| && CfgLive(root.View(), c)
    }

    /** One turn of Init's loop. */
    method NextEntry(w: Calls, ghost kernel: Kernel) returns (made: bool)
      requires Made() && |all| < size && Beyond(size, kernel, root.View())
      modifies this`all, ch, ch.slots, root
      ensures Made()
      ensures all == if made then old(all) + [SlotCfg(|old(all)| + 1)] else old(all)
      ensures made ==> Works(w) && |all| <= MAX_OCTET
      ensures !made ==> (!Works(w) || |all| >= MAX_OCTET || old(root.peer).Some?) && |all| + 1 !in root.links
      ensures root.peer.Some? ==> old(root.peer).Some?
      ensures Beyond(size, kernel, root.View())
    {
      var i := |all| + 1;
      var cfg := MakeEntry(i, w);
      made := cfg.Some?;
      if made {
        all := all + [cfg.value];
        var sent := ch.TrySend(cfg.value);
        assert FirstSlots(i) == FirstSlots(i - 1) + [SlotCfg(i)];
      }
    }

    /** Acquire: the oldest slot on offer, unless there is none or the wait for it times
        out; then nothing is taken. */
    method Acquire(timedOut: bool) returns (cfg: Option<NetCfg>)
      requires Valid()
      modifies ch
      ensures Valid()
      ensures cfg.Some? <==> !timedOut && old(Offered()) != []
      ensures cfg.Some? ==> cfg.value == old(Offered())[0] && Offered() == old(Offered())[1..]
      ensures cfg.None? ==> Offered() == old(Offered())
    {
      if timedOut { return None; }
      var ok, c := ch.TryRecv();
      cfg := if ok then Some(c) else None;
    }

    /** Release; false when the send would have to wait for room. */
    method Release(c: NetCfg) returns (sent: bool)
      requires Valid()
      modifies ch, ch.slots
      ensures Valid()
      ensures sent == (|old(Offered())| < size)
      ensures Offered() == if sent then old(Offered()) + [c] else old(Offered())
    {
      sent := ch.TrySend(c);
    }

    /** Destroy: cleans up every slot ever initialised, on offer or not. */
    method Destroy()
      requires Valid()
      modifies root
      ensures forall c :: c in all ==> c.subnet !in root.links && NameOf(c.owner) !in root.named
      ensures forall n :: n in root.links ==> n in old(root.links) && root.links[n] == old(root.links[n])
      ensures forall n :: n in old(root.links) && (forall c :: c in all ==> c.subnet != n) ==> n in root.links
      ensures forall name :: name in root.named ==> name in old(root.named) && root.named[name] == old(root.named[name])
      ensures forall name :: name in old(root.named) && (forall c :: c in all ==> NameOf(c.owner) != name) ==>
        name in root.named
    {
      var i := 0;
      while i < |all|
        invariant 0 <= i <= |all|
        invariant forall c :: c in all[..i] ==> c.subnet !in root.links && NameOf(c.owner) !in root.named
        invariant forall n :: n in root.links ==> n in old(root.links) && root.links[n] == old(root.links[n])
        invariant forall n :: n in old(root.links) && (forall c :: c in all ==> c.subnet != n) ==> n in root.links
        invariant forall name :: name in root.named ==>
          name in old(root.named) && root.named[name] == old(root.named[name])
        invariant forall name :: name in old(root.named) && (forall c :: c in all ==> NameOf(c.owner) != name) ==>
          name in root.named
      {
        assert all[..i + 1] == all[..i] + [all[i]] && all[i] in all;
        root.Cleanup(all[i]);
        i := i + 1;
      }
    }
  }

  /** acquireNetns and releaseNetns. */
  class Allocator {
    const pool: NetnsPool
    const root: RootNs
    var nextSubnet: nat   // uint32

    ghost predicate Valid()
      reads this, pool, pool.ch
    {
      pool.Valid() && pool.root == root && nextSubnet < WRAP32
    }

    constructor (pool: NetnsPool, root: RootNs)
      requires pool.Valid() && pool.root == root
      ensures Valid() && this.pool == pool && this.root == root && nextSubnet == 0
    {
      this.pool, this.root, nextSubnet := pool, root, 0;
    }

    /** The pool first; only when that has nothing in time, a fresh number from the wrapping
        counter and a setup of its own.  A pool slot costs no number and touches no link. */
    method Acquire(ticket: nat, timedOut: bool, w: Calls) returns (cfg: Option<NetCfg>)
      requires Valid()
      modifies this`nextSubnet, pool.ch, root
      ensures Valid()
      ensures !timedOut && old(pool.Offered()) != [] ==>
        && cfg == Some(old(pool.Offered())[0]) && pool.Offered() == old(pool.Offered())[1..]
        && nextSubnet == old(nextSubnet) && root.View() == old(root.View())
      ensures timedOut || old(pool.Offered()) == [] ==>
        && nextSubnet == (old(nextSubnet) + 1) % WRAP32 && pool.Offered() == old(pool.Offered())
        && (cfg.Some? <==> Works(w) && nextSubnet <= MAX_OCTET && nextSubnet !in old(root.links)
                           && SandboxNs(ticket % WRAP64) !in old(root.named) && old(root.peer).None?)
        && (cfg.Some? ==> cfg.value == NetCfg(Sandboxed(ticket), nextSubnet)
                          && root.links == old(root.links)[nextSubnet := Sandboxed(ticket)]
                          && root.named == old(root.named)[SandboxNs(ticket % WRAP64) := Sandboxed(ticket)])
        && (cfg.None? && !LeavesName(old(root.View()), Sandboxed(ticket), nextSubnet, w) ==> root.View() == old(root.View()))
        && (cfg.None? ==> root.links == old(root.links)
                          && root.named - {SandboxNs(ticket % WRAP64)} == old(root.named) - {SandboxNs(ticket % WRAP64)})
    {
      cfg := pool.Acquire(timedOut);
      if cfg.Some? { return; }
      nextSubnet := (nextSubnet + 1) % WRAP32;
      cfg := root.Setup(Sandboxed(ticket), nextSubnet, w);
    }

    /** Pooled slots go back to the channel, untouched; others are dismantled. */
    method Release(c: NetCfg) returns (done: bool)
      requires Valid()
      modifies pool.ch, pool.ch.slots, root
      ensures Valid()
      ensures c.owner.PoolSlot? ==>
        && done == (|old(pool.Offered())| < pool.size)
        && pool.Offered() == (if done then old(pool.Offered()) + [c] else old(pool.Offered()))
        && root.View() == old(root.View())
      ensures !c.owner.PoolSlot? ==>
        && done && pool.Offered() == old(pool.Offered()) && root.View() == CleanupNet(old(root.View()), c)
        && root.links == old(root.links) - {c.subnet} && root.named == old(root.named) - {NameOf(c.owner)}
    {
      if c.owner.PoolSlot? {
        done := pool.Release(c);
      } else {
        root.Cleanup(c);
        done := true;
      }
    }
  }
}
