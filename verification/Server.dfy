/** The sandbox and server objects: one handler at a time. */
module Servers {
  import opened Options
  import opened Lifecycle
  import opened Orchestrator
  import opened Pools

  class Sandbox {
    var state: Phase
    var inFlightExec: nat
    var hasAgent: bool
    var killed: bool
    var netns: Option<NetCfg>

    function View(): Life
      reads this
    {
      Life(state, inFlightExec)
    }

    constructor (c: NetCfg)
      ensures View() == Life(Running, 0) && hasAgent && !killed && netns == Some(c)
    {
      state, inFlightExec, hasAgent, killed, netns := Running, 0, true, false, Some(c);
    }

    method TryStartExec() returns (admitted: bool)
      modifies this`inFlightExec
      ensures (View(), admitted) == Lifecycle.TryStartExec(old(View()))
    {
      if state != Running { return false; }
      inFlightExec := inFlightExec + 1;
      admitted := true;
    }

    method FinishExec()
      modifies this`inFlightExec
      ensures View() == Lifecycle.FinishExec(old(View()))
    {
      if inFlightExec > 0 { inFlightExec := inFlightExec - 1; }
    }

    method BeginDestroy() returns (mine: bool)
      modifies this`state
      ensures (View(), mine) == Lifecycle.BeginDestroy(old(View()))
    {
      if state != Running { return false; }
      state := Closing;
      mine := true;
    }

    method FinishDestroy()
      modifies this`state
      ensures View() == Lifecycle.FinishDestroy(old(View()))
    {
      state := Closed;
    }

    /** While the caller sleeps other handlers run: `ended` execs come to their end, and
        none is admitted once the sandbox is closing. */
    method OthersRun(ended: nat)
      requires state != Running
      modifies this`inFlightExec
      ensures inFlightExec == if ended < old(inFlightExec) then old(inFlightExec) - ended else 0
    {
      inFlightExec := if ended < inFlightExec then inFlightExec - ended else 0;
    }

    /** The polling loop over the in-flight counter.  `ends` says how many execs end during
        each sleep before the deadline: the drain succeeds if and only if all do. */
    method WaitForExecDrain(ends: seq<nat>) returns (drained: bool)
      requires state != Running
      modifies this`inFlightExec
      ensures drained <==> old(inFlightExec) <= Total(ends)
      ensures inFlightExec == if drained then 0 else old(inFlightExec) - Total(ends)
    {
      var k := 0;
      while true
        invariant 0 <= k <= |ends|
        invariant inFlightExec == if Total(ends[..k]) < old(inFlightExec) then old(inFlightExec) - Total(ends[..k]) else 0
        decreases |ends| - k
      {
        if inFlightExec == 0 {
          TotalGrows(ends, k);
          return true;
        }
        if k == |ends| {
          assert ends[..k] == ends;
          return false;
        }
        OthersRun(ends[k]);
        assert ends[..k + 1][..k] == ends[..k];
        k := k + 1;
      }
    }
  }

  function Total(ends: seq<nat>): nat {
    if ends == [] then 0 else Total(ends[..|ends| - 1]) + ends[|ends| - 1]
  }

  lemma {:induction false} TotalGrows(ends: seq<nat>, k: nat)
    requires k <= |ends|
    ensures Total(ends[..k]) <= Total(ends)
    decreases |ends|
  {
    if k == |ends| {
      assert ends[..k] == ends;
    } else {
      TotalGrows(ends[..|ends| - 1], k);
      assert ends[..|ends| - 1][..k] == ends[..k];
    }
  }

  // ------------------------------------------------------- the kernel's entries

  /** The link, or the name, of an on-demand network. */
  predicate UsesLink(net: Option<NetCfg>, n: nat) {
    net.Some? && !net.value.owner.PoolSlot? && net.value.subnet == n
  }

  predicate UsesName(net: Option<NetCfg>, m: NsName) {
    net.Some? && !net.value.owner.PoolSlot? && NameOf(net.value.owner) == m
  }

  /** The on-demand networks among these are gone from the kernel, and nothing else is. */
  ghost predicate Rid(kn: Kernel, kn': Kernel, nets: seq<Option<NetCfg>>) {
    && (forall n :: n in kn'.links <==> n in kn.links && forall i :: 0 <= i < |nets| ==> !UsesLink(nets[i], n))
    && (forall n :: n in kn'.links ==> n in kn.links && kn'.links[n] == kn.links[n])
    && (forall m :: m in kn'.named <==> m in kn.named && forall i :: 0 <= i < |nets| ==> !UsesName(nets[i], m))
    && (forall m :: m in kn'.named ==> m in kn.named && kn'.named[m] == kn.named[m])
  }

  lemma RidOfNone(kn: Kernel)
    ensures Rid(kn, kn, [])
  {
  }

  lemma RidOfOne(kn: Kernel, net: Option<NetCfg>)
    ensures net.Some? && !net.value.owner.PoolSlot? ==> Rid(kn, CleanupNet(kn, net.value), [net])
    ensures !(net.Some? && !net.value.owner.PoolSlot?) ==> Rid(kn, kn, [net])
  {
    assert [net][0] == net;
  }

  lemma RidNext(a: Kernel, b: Kernel, c: Kernel, nets: seq<Option<NetCfg>>, n: nat)
    requires n < |nets| && Rid(a, b, nets[..n]) && Rid(b, c, [nets[n]])
    ensures Rid(a, c, nets[..n + 1])
  {
    var all, one := nets[..n + 1], [nets[n]];
    assert one[0] == all[n];
    forall k ensures k in c.links <==> k in a.links && forall i :: 0 <= i < |all| ==> !UsesLink(all[i], k) {
      assert (forall i :: 0 <= i < |one| ==> !UsesLink(one[i], k)) <==> !UsesLink(all[n], k);
      assert forall i :: 0 <= i < n ==> nets[..n][i] == all[i];
    }
    forall m ensures m in c.named <==> m in a.named && forall i :: 0 <= i < |all| ==> !UsesName(all[i], m) {
      assert (forall i :: 0 <= i < |one| ==> !UsesName(one[i], m)) <==> !UsesName(all[n], m);
      assert forall i :: 0 <= i < n ==> nets[..n][i] == all[i];
    }
  }

  /** A pool slot has no part in it. */
  lemma RidOfSlot(a: Kernel, b: Kernel, c: Kernel, nets: seq<Option<NetCfg>>, n: nat)
    requires n < |nets| && Rid(a, b, nets[..n]) && Rid(b, c, [nets[n]]) && SlotOf(nets[n]) != []
    ensures Rid(a, c, nets[..n])
  {
    assert b.links == c.links && b.named == c.named;
  }

  /** Where a teardown loop stands after these networks: their slots are on offer behind
      the others, the rest is out of the kernel. */
  ghost predicate Through(kernel: Kernel, base: seq<NetCfg>, kn: Kernel, offered: seq<NetCfg>, nets: seq<Option<NetCfg>>) {
    offered == base + SlotsIn(nets) && Rid(kernel, kn, nets)
  }

  datatype DestroyStatus = NotFound | Conflict | Destroyed | Waiting

  class Server {
    var sandboxes: map<nat, Sandbox>
    var nextSandboxID: nat   // uint64
    const alloc: Allocator

    ghost predicate Valid()
      reads this, alloc, alloc.pool, alloc.pool.ch
    {
      && alloc.Valid()
      && nextSandboxID < WRAP64
      && (forall j, k :: j in sandboxes && k in sandboxes && j != k ==> sandboxes[j] != sandboxes[k])
    }

    constructor (alloc: Allocator)
      requires alloc.Valid()
      ensures Valid() && this.alloc == alloc && sandboxes == map[] && nextSandboxID == 0
    {
      this.alloc, sandboxes, nextSandboxID := alloc, map[], 0;
    }

    /** The id of a create or restore request. */
    method NextId() returns (id: nat)
      requires Valid()
      modifies this`nextSandboxID
      ensures Valid()
      ensures id == nextSandboxID == (old(nextSandboxID) + 1) % WRAP64
    {
      nextSandboxID := (nextSandboxID + 1) % WRAP64;
      id := nextSandboxID;
    }

    /** The end of handleCreate and handleSendshotRestore. */
    method Insert(id: nat, sb: Sandbox)
      requires Valid() && sb !in sandboxes.Values
      modifies this`sandboxes
      ensures Valid() && sandboxes == old(sandboxes)[id := sb]
    {
      sandboxes := sandboxes[id := sb];
    }

    /** cleanupSandbox; `done` is false when the slot's send would have to wait. */
    method CleanupSandbox(sb: Sandbox) returns (done: bool)
      requires alloc.Valid()
      modifies sb`hasAgent, sb`killed, sb`netns, alloc.pool.ch, alloc.pool.ch.slots, alloc.root
      ensures alloc.Valid()
      ensures !sb.hasAgent && sb.killed
      ensures done ==> sb.netns.None?
      ensures !done ==> sb.netns == old(sb.netns)
      ensures done == !(old(sb.netns).Some? && old(sb.netns).value.owner.PoolSlot?
                        && |old(alloc.pool.Offered())| >= alloc.pool.size)
      ensures match old(sb.netns)
        case None => alloc.pool.Offered() == old(alloc.pool.Offered()) && alloc.root.View() == old(alloc.root.View())
        case Some(c) =>
          if c.owner.PoolSlot? then
            && alloc.pool.Offered() == (if done then old(alloc.pool.Offered()) + [c] else old(alloc.pool.Offered()))
            && alloc.root.View() == old(alloc.root.View())
          else
            && alloc.pool.Offered() == old(alloc.pool.Offered())
            && alloc.root.View() == CleanupNet(old(alloc.root.View()), c)
      ensures Rid(old(alloc.root.View()), alloc.root.View(), [old(sb.netns)])
    {
      RidOfOne(alloc.root.View(), sb.netns);
      if sb.hasAgent { sb.hasAgent := false; }
      sb.killed := true;
      if sb.netns.None? { return true; }
      done := alloc.Release(sb.netns.value);
      if done { sb.netns := None; }
    }

    /** handleDestroy once the sandbox is off the registry. */
    method DestroyFound(sb: Sandbox, ends: seq<nat>) returns (status: DestroyStatus, drained: bool)
      requires alloc.Valid()
      modifies sb, alloc.pool.ch, alloc.pool.ch.slots, alloc.root
      ensures alloc.Valid()
      ensures status != NotFound && (status == Conflict <==> old(sb.state) != Running)
      ensures status == Conflict ==> unchanged(sb)
      ensures status == Destroyed ==> sb.state == Closed && !sb.hasAgent && sb.killed && sb.netns.None?
      ensures status == Waiting <==>
        old(sb.state) == Running && SlotOf(old(sb.netns)) != [] && |old(alloc.pool.Offered())| >= alloc.pool.size
      ensures status == Waiting ==> sb.state == Closing && sb.netns == old(sb.netns)
      ensures status != Conflict ==>
        (drained <==> old(sb.inFlightExec) <= Total(ends))
        && sb.inFlightExec == if drained then 0 else old(sb.inFlightExec) - Total(ends)
      ensures alloc.pool.Offered() == old(alloc.pool.Offered()) + (if status == Destroyed then SlotOf(old(sb.netns)) else [])
      ensures status == Destroyed ==> Rid(old(alloc.root.View()), alloc.root.View(), [old(sb.netns)])
      ensures status != Destroyed ==> alloc.root.View() == old(alloc.root.View())
    {
      drained := false;
      var mine := sb.BeginDestroy();
      if !mine { return Conflict, drained; }
      drained := sb.WaitForExecDrain(ends);
      var done := CleanupSandbox(sb);
      if !done { return Waiting, drained; }
      sb.FinishDestroy();
      status := Destroyed;
    }

    /** handleDestroy.  `drained` is what the drain loop saw of the in-flight counter, and
        whatever it saw, a sandbox that was running ends closed, killed, without agent or
        network, and off the registry. */
    method HandleDestroy(key: nat, ends: seq<nat>) returns (status: DestroyStatus, drained: bool)
      requires Valid()
      modifies this`sandboxes, sandboxes.Values, alloc.pool.ch, alloc.pool.ch.slots, alloc.root
      ensures Valid()
      ensures sandboxes == old(sandboxes) - {key}
      ensures key !in old(sandboxes) <==> status == NotFound
      ensures key in old(sandboxes) ==>
        var sb := old(sandboxes)[key];
        && (status == Conflict <==> old(sb.state) != Running)
        && (status == Conflict ==> unchanged(sb))
        && (status == Destroyed ==> sb.state == Closed && !sb.hasAgent && sb.killed && sb.netns.None?)
        && (status == Waiting <==>
              old(sb.state) == Running && SlotOf(old(sb.netns)) != [] && |old(alloc.pool.Offered())| >= alloc.pool.size)
        && (status == Waiting ==> sb.state == Closing && sb.netns == old(sb.netns))
      ensures status == Destroyed || status == Waiting ==>
        (drained <==> old(sandboxes[key].inFlightExec) <= Total(ends))
        && old(sandboxes)[key].inFlightExec == if drained then 0 else old(sandboxes[key].inFlightExec) - Total(ends)
      ensures forall k :: k in sandboxes ==> unchanged(sandboxes[k])
      ensures alloc.pool.Offered() == old(alloc.pool.Offered())
        + (if status == Destroyed then SlotOf(old(sandboxes[key].netns)) else [])
      ensures status == Destroyed ==> Rid(old(alloc.root.View()), alloc.root.View(), [old(sandboxes[key].netns)])
      ensures status != Destroyed ==> alloc.root.View() == old(alloc.root.View())
    {
      if key !in sandboxes {
        sandboxes := sandboxes - {key};
        return NotFound, false;
      }
      var sb := sandboxes[key];
      sandboxes := sandboxes - {key};
      status, drained := DestroyFound(sb, ends);
    }

    /** Closed and stripped of everything. */
    static predicate Gone(sb: Sandbox)
      reads sb
    {
      sb.state == Closed && !sb.hasAgent && sb.killed && sb.netns.None?
    }

    static predicate OnSlot(sb: Sandbox)
      reads sb
    {
      sb.netns.Some? && sb.netns.value.owner.PoolSlot?
    }

    /** One turn of destroyAll's loop; `done` is false when the slot's send has to wait.
        The sandboxes of earlier and later turns keep what they have. */
    method DestroyOne(sb: Sandbox, ends: seq<nat>, ghost earlier: set<Sandbox>, ghost later: set<Sandbox>)
      returns (done: bool)
      requires alloc.Valid() && sb !in earlier && sb !in later
      requires forall o :: o in earlier ==> Gone(o)
      modifies sb, alloc.pool.ch, alloc.pool.ch.slots, alloc.root
      ensures alloc.Valid()
      ensures done <==> !old(OnSlot(sb)) || |old(alloc.pool.Offered())| < alloc.pool.size
      ensures done ==> Gone(sb)
      ensures alloc.pool.Offered() == old(alloc.pool.Offered()) + (if done then SlotOf(old(sb.netns)) else [])
      ensures Rid(old(alloc.root.View()), alloc.root.View(), [old(sb.netns)])
      ensures forall o :: o in earlier ==> Gone(o)
      ensures forall o :: o in later ==> o.netns == old(o.netns)
      ensures sb.inFlightExec == if old(sb.state) == Running && old(sb.inFlightExec) <= Total(ends) then 0
                                 else if old(sb.state) == Running then old(sb.inFlightExec) - Total(ends)
                                 else old(sb.inFlightExec)
    {
      var mine := sb.BeginDestroy();
      if mine {
        var drained := sb.WaitForExecDrain(ends);
      }
      done := CleanupSandbox(sb);
      if done { sb.FinishDestroy(); }
    }

    /** The values of a map in some order, each once. */
    static method Listed(sbs: set<Sandbox>) returns (all: seq<Sandbox>)
      ensures forall sb :: sb in sbs <==> sb in all
      ensures forall i, j :: 0 <= i < j < |all| ==> all[i] != all[j]
    {
      all := [];
      var left := sbs;
      while left != {}
        invariant left <= sbs
        invariant forall sb :: sb in sbs <==> sb in all || sb in left
        invariant forall sb :: sb in all ==> sb !in left
        invariant forall i, j :: 0 <= i < j < |all| ==> all[i] != all[j]
        decreases left
      {
        var sb :| sb in left;
        all := all + [sb];
        left := left - {sb};
      }
    }

    /** Its n-th turn, in the terms of the loop. */
    method DestroyNth(all: seq<Sandbox>, n: nat, ends: seq<nat>, ghost nets: seq<Option<NetCfg>>,
                      ghost kernel: Kernel, ghost base: seq<NetCfg>)
      returns (done: bool)
      requires alloc.Valid() && n < |all| == |nets|
      requires forall i, j :: 0 <= i < j < |all| ==> all[i] != all[j]
      requires forall i :: n <= i < |all| ==> all[i].netns == nets[i]
      requires forall i :: 0 <= i < n ==> Gone(all[i])
      requires Through(kernel, base, alloc.root.View(), alloc.pool.Offered(), nets[..n])
      modifies all[n], alloc.pool.ch, alloc.pool.ch.slots, alloc.root
      ensures alloc.Valid()
      ensures done <==> SlotOf(nets[n]) == [] || |old(alloc.pool.Offered())| < alloc.pool.size
      ensures !done ==> alloc.pool.Offered() == old(alloc.pool.Offered())
      ensures Through(kernel, base, alloc.root.View(), alloc.pool.Offered(), if done then nets[..n + 1] else nets[..n])
      ensures forall i :: n < i < |all| ==> all[i].netns == nets[i]
      ensures forall i :: 0 <= i < n || (done && i == n) ==> Gone(all[i])
    {
      ghost var earlier := set i | 0 <= i < n :: all[i];
      ghost var later := set i | n < i < |all| :: all[i];
      ghost var before := alloc.root.View();
      done := DestroyOne(all[n], ends, earlier, later);
      assert forall i :: 0 <= i < n ==> all[i] in earlier;
      assert forall i :: n < i < |all| ==> all[i] in later;
      if done {
        SlotsInNext(base, nets, n);
        RidNext(kernel, before, alloc.root.View(), nets, n);
      } else {
        RidOfSlot(kernel, before, alloc.root.View(), nets, n);
      }
    }

    /** The loop of destroyAll over a listing of distinct sandboxes: each one it gets
        through ends closed and stripped, its slot on offer behind the others.  It
        stops early only at a full channel. */
    method DestroyEach(all: seq<Sandbox>, ends: seq<nat>, ghost nets: seq<Option<NetCfg>>) returns (n: nat)
      requires alloc.Valid()
      requires forall i, j :: 0 <= i < j < |all| ==> all[i] != all[j]
      requires |nets| == |all| && forall i :: 0 <= i < |all| ==> nets[i] == all[i].netns
      modifies all, alloc.pool.ch, alloc.pool.ch.slots, alloc.root
      ensures alloc.Valid()
      ensures n <= |all| && forall i :: 0 <= i < n ==> Gone(all[i])
      ensures n < |all| ==>
        nets[n].Some? && nets[n].value.owner.PoolSlot? && |alloc.pool.Offered()| >= alloc.pool.size
      ensures alloc.pool.Offered() == old(alloc.pool.Offered()) + SlotsIn(nets[..n])
      ensures Rid(old(alloc.root.View()), alloc.root.View(), nets[..n])
    {
      n := 0;
      ghost var kernel, base := alloc.root.View(), alloc.pool.Offered();
      RidOfNone(kernel);
      assert nets[..0] == [];
      while n < |all|
        invariant 0 <= n <= |all| && alloc.Valid()
        invariant forall i :: n <= i < |all| ==> all[i].netns == nets[i]
        invariant forall i :: 0 <= i < n ==> Gone(all[i])
        invariant Through(kernel, base, alloc.root.View(), alloc.pool.Offered(), nets[..n])
      {
        var done := DestroyNth(all, n, ends, nets, kernel, base);
        if !done { return; }
        n := n + 1;
      }
    }

    /** The networks of some sandboxes, as they are now. */
    static ghost method NetsOf(all: seq<Sandbox>) returns (nets: seq<Option<NetCfg>>)
      ensures |nets| == |all| && forall i :: 0 <= i < |all| ==> nets[i] == all[i].netns
    {
      nets := [];
      var k := 0;
      while k < |all|
        invariant k == |nets| <= |all| && forall i :: 0 <= i < k ==> nets[i] == all[i].netns
      {
        nets := nets + [all[k].netns];
        k := k + 1;
      }
    }

    /** destroyAll: empties the registry and works through what was in it, in some
        order. */
    method DestroyAll(ends: seq<nat>) returns (all: seq<Sandbox>, n: nat, ghost nets: seq<Option<NetCfg>>)
      requires Valid()
      modifies this`sandboxes, sandboxes.Values, alloc.pool.ch, alloc.pool.ch.slots, alloc.root
      ensures Valid() && sandboxes == map[]
      ensures forall sb :: sb in old(sandboxes.Values) <==> sb in all
      ensures forall i, j :: 0 <= i < j < |all| ==> all[i] != all[j]
      ensures |nets| == |all| && forall i :: 0 <= i < |all| ==> all[i] in old(sandboxes.Values) && nets[i] == old(all[i].netns)
      ensures n <= |all| && forall i :: 0 <= i < n ==> Gone(all[i])
      ensures n < |all| ==>
        nets[n].Some? && nets[n].value.owner.PoolSlot? && |alloc.pool.Offered()| >= alloc.pool.size
      ensures alloc.pool.Offered() == old(alloc.pool.Offered()) + SlotsIn(nets[..n])
      ensures Rid(old(alloc.root.View()), alloc.root.View(), nets[..n])
    {
      ghost var before := alloc.pool.Offered();
      all := Listed(sandboxes.Values);
      assert forall i :: 0 <= i < |all| ==> all[i] in sandboxes.Values;
      nets := NetsOf(all);
      assert forall i :: 0 <= i < |all| ==> nets[i] == old(all[i].netns);
      sandboxes := map[];
      assert unchanged(alloc.pool) && unchanged(alloc.pool.ch) && unchanged(alloc.pool.ch.slots);
      assert alloc.pool.Offered() == before;
      n := DestroyEach(all, ends, nets);
      assert alloc.pool.Offered() == before + SlotsIn(nets[..n]);
    }
  }

  lemma SlotsInNext(base: seq<NetCfg>, nets: seq<Option<NetCfg>>, n: nat)
    requires n < |nets|
    ensures SlotsIn(nets[..n + 1]) == SlotsIn(nets[..n]) + SlotOf(nets[n])
    ensures base + SlotsIn(nets[..n]) + SlotOf(nets[n]) == base + SlotsIn(nets[..n + 1])
  {
    assert nets[..n + 1][..n] == nets[..n];
  }

  function SlotOf(net: Option<NetCfg>): seq<NetCfg> {
    if net.Some? && net.value.owner.PoolSlot? then [net.value] else []
  }

  /** The pool slots among some sandboxes' networks, in order. */
  function SlotsIn(nets: seq<Option<NetCfg>>): seq<NetCfg> {
    if nets == [] then []
    else SlotsIn(nets[..|nets| - 1]) + SlotOf(nets[|nets| - 1])
  }
}
