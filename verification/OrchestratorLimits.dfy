/** Where the theorems stop: reachable states that show their conditions are needed. */
module OrchestratorLimits {
  import opened Options
  import opened Lifecycle
  import opened Orchestrator
  import opened OrchestratorInv
  import opened OrchestratorTheorems
  import opened OrchestratorCollisions

  predicate Has<V(==)>(m: map<nat, V>, k: nat, v: V) { k in m && m[k] == v }

  lemma Go(s: State, l: Label) returns (t: State)
    requires Reachable(s)
    ensures t == Step(s, l) && Reachable(t)
  {
    t := Step(s, l);
    ReachableStep(s, l);
  }

  lemma GoCreate(s: State, k: nat, w: Worker, ok: bool) returns (t: State)
    requires Reachable(s) && k in s.makers.creators
    ensures t == CreateStep(s, k, w, ok, false) && Reachable(t)
  {
    t := Go(s, Create(k, w, ok, false));
  }

  lemma GoExec(s: State, t: nat, ok: bool) returns (x: State)
    requires Reachable(s) && t in s.sess.execs && ExecRefs(s.sess.execs[t]) <= s.sess.lives.Keys * s.sess.agents.Keys
    ensures x == s.(sess := ExecStep(s.sess, s.desk.registry, t, ok)) && Reachable(x)
  {
    x := Go(s, Exec(t, ok));
  }

  lemma GoDown(s: State, t: nat) returns (x: State)
    requires Reachable(s) && t in s.desk.downs && DownReady(s, s.desk.downs[t])
    ensures x == DownStep(s, t, true, 0) && Reachable(x)
  {
    x := Go(s, Down(t, true, 0));
  }

  lemma GoNewCreate(s: State) returns (c: State)
    requires Reachable(s)
    ensures c == SetPc(s.(issued := s.issued + 1), s.issued + 1, Mkdir(Cold)) && Reachable(c)
  {
    c := Go(s, NewCreate(Cold));
  }

  lemma GoNewExec(s: State) returns (e: State)
    requires Reachable(s)
    ensures e == s.(nextTid := s.nextTid + 1, sess := SetExec(s.sess, s.nextTid, Lookup(1))) && Reachable(e)
  {
    e := Go(s, NewExec(1));
  }

  lemma GoNewDestroy(s: State) returns (d: State)
    requires Reachable(s)
    ensures d == SetDown(s.(nextTid := s.nextTid + 1), s.nextTid, Remove(1)) && Reachable(d)
  {
    d := Go(s, NewDestroy(1));
  }

  // ------------------------------------------------ a drain that gives up

  lemma PoolOfOne() returns (s: State)
    ensures Reachable(s) && s == Init(1) && s.pool.channel == [1] && 1 in s.pool.place
  {
    var none: seq<Label> := [];
    s := Init(1);
    assert s == Run(Init(1), none);
    assert IsSlot(1, 1);
  }

  /** A cold boot that is about to look for a slot. */
  lemma Looking() returns (s: State)
    ensures Reachable(s) && PoolFacts(s, InChannel) && s.pool.channel == [1]
    ensures Has(s.makers.creators, 1, Join(Cold, Some(true), TryPool))
  {
    s := PoolOfOne();
    s := GoNewCreate(s);
    assert Has(s.makers.creators, 1, Mkdir(Cold));
    s := GoCreate(s, 1, Main, true);
    assert Has(s.makers.creators, 1, Join(Cold, None, TryPool));
    s := GoCreate(s, 1, Copier, true);
  }

  predicate PoolFacts(s: State, p: Place) {
    && s.issued == 1 && s.nextTid == 0 && s.pool.size == 1 && s.host.drawn == 0 && !s.host.poolDestroyed
    && s.host.kernel == Init(1).host.kernel && Has(s.pool.place, 1, p)
  }

  /** It has slot 1, up to the launch. */
  lemma SlotTaken() returns (s: State)
    ensures Reachable(s) && PoolFacts(s, WithCreator(1)) && s.pool.channel == []
    ensures Has(s.makers.creators, 1, Prep(Cold, SlotCfg(1)))
  {
    s := Looking();
    s := GoCreate(s, 1, Netter, true);
    assert Has(s.makers.creators, 1, Join(Cold, Some(true), NetDone(Some(SlotCfg(1)))));
    s := GoCreate(s, 1, Main, true);
  }

  lemma Launched() returns (s: State)
    ensures Reachable(s) && PoolFacts(s, WithCreator(1)) && s.pool.channel == []
    ensures Has(s.makers.creators, 1, CreatorPc.Boot(Cold, SlotCfg(1))) && 1 in s.host.procs
  {
    s := SlotTaken();
    s := GoCreate(s, 1, Main, true);
  }

  /** Sandbox 1 is registered on that slot. */
  predicate OneSandbox(s: State) {
    && s.issued == 1 && s.host.drawn == 0 && s.pool.channel == [] && s.pool.size == 1
    && Has(s.sess.lives, 1, Life(Running, 0)) && Has(s.sess.agents, 1, Agent(true, None))
    && Has(s.desk.registry, 1, 1) && Has(s.desk.cleanups, 1, 0)
    && Has(s.makers.creators, 1, CreatorDone) && Has(s.makers.nets, 1, SlotCfg(1))
    && 1 in s.host.procs && 1 in s.pool.place && s.pool.place[1] == WithSandbox(1)
  }

  /** Created but not yet registered. */
  lemma SandboxMade() returns (s: State)
    ensures Reachable(s) && s.nextTid == 0 && s.issued == 1 && s.host.drawn == 0 && s.pool.channel == [] && s.pool.size == 1
    ensures Has(s.sess.lives, 1, Life(Running, 0)) && Has(s.sess.agents, 1, Agent(true, None))
    ensures Has(s.desk.cleanups, 1, 0) && Has(s.makers.creators, 1, Insert) && Has(s.makers.nets, 1, SlotCfg(1))
    ensures 1 in s.host.procs && Has(s.pool.place, 1, WithSandbox(1))
    ensures s.host.kernel == Init(1).host.kernel && !s.host.poolDestroyed
  {
    s := Launched();
    s := GoCreate(s, 1, Main, true);
  }

  lemma SandboxUp() returns (s: State)
    ensures Reachable(s) && OneSandbox(s) && s.nextTid == 0
    ensures s.host.kernel == Init(1).host.kernel && !s.host.poolDestroyed
  {
    s := SandboxMade();
    s := GoCreate(s, 1, Main, true);
    assert 1 % WRAP64 == 1;
  }

  /** An exec is inside, about to take agentMu. */
  lemma ExecInside() returns (s: State)
    ensures Reachable(s) && s.nextTid == 1
    ensures Has(s.sess.lives, 1, Life(Running, 1)) && Has(s.sess.agents, 1, Agent(true, None))
    ensures Has(s.sess.execs, 0, TakeLock(1))
    ensures Has(s.desk.registry, 1, 1) && Has(s.desk.cleanups, 1, 0)
    ensures Has(s.makers.nets, 1, SlotCfg(1)) && 1 in s.host.procs
  {
    s := SandboxUp();
    s := GoNewExec(s);
    assert Has(s.sess.execs, 0, Lookup(1));
    s := GoExec(s, 0, true);
    assert Has(s.sess.execs, 0, Start(1));
    s := GoExec(s, 0, true);
    assert Has(s.sess.execs, 0, Validate(1));
    s := GoExec(s, 0, true);
  }

  lemma TakenOver() returns (s: State)
    ensures Reachable(s) && Has(s.desk.downs, 1, Begin(1, None))
    ensures Has(s.sess.lives, 1, Life(Running, 1)) && Has(s.sess.agents, 1, Agent(true, None))
    ensures Has(s.sess.execs, 0, TakeLock(1)) && Has(s.desk.cleanups, 1, 0)
  {
    s := ExecInside();
    s := GoNewDestroy(s);
    assert Has(s.desk.downs, 1, Remove(1));
    s := GoDown(s, 1);
  }

  /** A destroy has begun and waits for it. */
  lemma Waiting() returns (s: State)
    ensures Reachable(s) && Has(s.desk.downs, 1, Drain(1, None))
    ensures Has(s.sess.lives, 1, Life(Closing, 1)) && Has(s.sess.agents, 1, Agent(true, None))
    ensures Has(s.sess.execs, 0, TakeLock(1)) && Has(s.desk.cleanups, 1, 0)
  {
    s := TakenOver();
    s := GoDown(s, 1);
  }

  /** It gave up waiting and has run cleanup's first part. */
  lemma GaveUp() returns (s: State)
    ensures Reachable(s)
    ensures Has(s.sess.lives, 1, Life(Closing, 1)) && Has(s.sess.agents, 1, Agent(false, None))
    ensures Has(s.sess.execs, 0, TakeLock(1)) && 1 in s.sess.cleared
  {
    s := Waiting();
    s := GoDown(s, 1);
    assert Has(s.desk.downs, 1, CloseAgent(1, None));
    s := GoDown(s, 1);
  }

  /** After a drain that timed out the exec dials again, and the sandbox has an open
      agent connection after its cleanup: DrainedStaysQuiet needs the drain. */
  lemma TimedOutDrainReopens() returns (s: State)
    ensures Reachable(s) && 1 in s.sess.cleared && 1 !in s.sess.drained
    ensures 1 in s.sess.agents && s.sess.agents[1].open
  {
    s := GaveUp();
    s := GoExec(s, 0, true);
    s := GoExec(s, 0, true);
    StillInside(s);
  }

  lemma StillInside(s: State)
    requires Reachable(s) && 0 in s.sess.execs && s.sess.execs[0] == Call(1)
    ensures 1 !in s.sess.drained
  {
    DrainSafety(s);
    assert 0 in InFlightOn(s.sess.execs, 1);
  }

  // ------------------------------------------------ after the pool is gone

  /** Sandbox 1 still lives on slot 1, whose link the shutdown has deleted. */
  predicate Orphaned(s: State) {
    && Has(s.makers.nets, 1, SlotCfg(1)) && s.issued == 1 && s.host.drawn == 0 && s.host.poolDestroyed
    && 1 !in s.host.kernel.links && s.host.kernel.peer.None? && SandboxNs(2) !in s.host.kernel.named
  }

  lemma PoolGone() returns (s: State)
    ensures Reachable(s) && Orphaned(s)
  {
    s := SandboxUp();
    s := Go(s, NewShutdown);
    assert Has(s.desk.downs, 0, DestroyPool);
    s := GoDown(s, 0);
    assert IsSlot(1, 1);
  }

  lemma LooksAgain() returns (s: State)
    ensures Reachable(s) && Has(s.makers.nets, 1, SlotCfg(1)) && s.host.poolDestroyed && s.host.drawn == 0
    ensures 1 !in s.host.kernel.links && s.host.kernel.peer.None? && SandboxNs(2) !in s.host.kernel.named
    ensures Has(s.makers.creators, 2, Join(Cold, None, TryPool))
  {
    s := PoolGone();
    s := GoNewCreate(s);
    assert Has(s.makers.creators, 2, Mkdir(Cold));
    s := GoCreate(s, 2, Main, true);
  }

  /** A create that is still under way draws subnet 1 from the counter. */
  lemma DrawsOne() returns (s: State)
    ensures Reachable(s) && Has(s.makers.nets, 1, SlotCfg(1)) && s.host.poolDestroyed
    ensures 1 !in s.host.kernel.links && s.host.kernel.peer.None? && SandboxNs(2) !in s.host.kernel.named
    ensures Has(s.makers.creators, 2, Join(Cold, None, Setup(MakeNs, 1)))
  {
    s := LooksAgain();
    s := GoCreate(s, 2, Netter, false);
    assert Has(s.makers.creators, 2, Join(Cold, None, Bump)) && s.host.drawn == 0;
    assert 1 % WRAP32 == 1;
    s := GoCreate(s, 2, Netter, true);
  }

  lemma SetsUpOne() returns (s: State)
    ensures Reachable(s) && Has(s.makers.nets, 1, SlotCfg(1))
    ensures Has(s.makers.creators, 2, Join(Cold, None, Setup(MovePeer, 1))) && s.host.kernel.peer.Some?
  {
    s := DrawsOne();
    assert 2 % WRAP64 == 2;
    s := GoCreate(s, 2, Netter, true);
    assert Has(s.makers.creators, 2, Join(Cold, None, Setup(AddVeth, 1)));
    s := GoCreate(s, 2, Netter, true);
  }

  /** Two live configurations on one subnet: LiveSubnetsDistinct holds until the pool is
      torn down and no longer. */
  lemma ShutdownBreaksDistinctness() returns (s: State, c: NetCfg, d: NetCfg)
    ensures Reachable(s) && LiveCfg(s, c) && LiveCfg(s, d)
    ensures c.subnet == d.subnet && c != d
  {
    s := SetsUpOne();
    s := GoCreate(s, 2, Netter, true);
    assert Has(s.makers.creators, 2, Join(Cold, None, Setup(Configure, 1)));
    s := GoCreate(s, 2, Netter, true);
    c, d := SlotCfg(1), NetCfg(Sandboxed(2), 1);
    assert CreatorCfg(s.makers.creators[2]) == Some(d);
  }

  // ------------------------------------------------ every number of the pool

  /** The pool is torn down, the kernel is empty, and `n` numbers have been drawn. */
  predicate TornDown(s: State, size: nat, n: nat) {
    && s.pool.size == size && s.host.poolDestroyed && s.host.drawn == n && s.issued == n
    && s.host.kernel.links == map[] && s.host.kernel.peer.None? && s.host.kernel.named == map[]
    && (forall i :: i in Slots(size) ==> Has(s.pool.place, i, InChannel))
  }

  lemma NothingLeft(size: nat)
    ensures DestroyPoolNets(Init(size).host.kernel, size) == Kernel(map[], None, map[])
  {
    var kn := DestroyPoolNets(Init(size).host.kernel, size);
    assert kn.links == map[];
    assert kn.named == map[];
  }

  lemma TearDown(size: nat) returns (s: State)
    ensures Reachable(s) && TornDown(s, size, 0)
  {
    var none: seq<Label> := [];
    s := Init(size);
    assert s == Run(Init(size), none);
    s := Go(s, NewShutdown);
    assert Has(s.desk.downs, 0, DestroyPool);
    NothingLeft(size);
    s := GoDown(s, 0);
  }

  lemma Queue(s: State, size: nat, n: nat) returns (t: State)
    requires Reachable(s) && TornDown(s, size, n)
    ensures Reachable(t) && TornDown(t.(issued := n), size, n) && t.issued == n + 1
    ensures Has(t.makers.creators, n + 1, Join(Cold, None, TryPool))
  {
    var c := GoNewCreate(s);
    assert Has(c.makers.creators, n + 1, Mkdir(Cold));
    t := GoCreate(c, n + 1, Main, true);
  }

  lemma DrawNext(s: State, size: nat, n: nat) returns (t: State)
    requires Reachable(s) && TornDown(s, size, n) && n + 1 < WRAP32
    ensures Reachable(t) && TornDown(t, size, n + 1)
    ensures Has(t.makers.creators, n + 1, Join(Cold, None, Setup(MakeNs, n + 1)))
  {
    t := Queue(s, size, n);
    t := GoCreate(t, n + 1, Netter, false);
    assert Has(t.makers.creators, n + 1, Join(Cold, None, Bump));
    assert (n + 1) % WRAP32 == n + 1;
    t := GoCreate(t, n + 1, Netter, true);
  }

  lemma {:induction false} DrawUpTo(size: nat, n: nat) returns (s: State)
    requires 1 <= n < WRAP32
    ensures Reachable(s) && TornDown(s, size, n)
    ensures Has(s.makers.creators, n, Join(Cold, None, Setup(MakeNs, n)))
  {
    if n == 1 { s := TearDown(size); } else { s := DrawUpTo(size, n - 1); }
    s := DrawNext(s, size, n - 1);
  }

  lemma LinkUp(size: nat, n: nat) returns (s: State)
    requires 1 <= n < WRAP32
    ensures Reachable(s) && s.pool.size == size && s.host.kernel.peer.Some?
    ensures forall i :: i in Slots(size) ==> Has(s.pool.place, i, InChannel)
    ensures Has(s.makers.creators, n, Join(Cold, None, Setup(MovePeer, n)))
  {
    s := DrawUpTo(size, n);
    s := GoCreate(s, n, Netter, true);
    assert Has(s.makers.creators, n, Join(Cold, None, Setup(AddVeth, n)));
    s := GoCreate(s, n, Netter, true);
  }

  /** A pool slot and a create meet on the slot's number. */
  lemma MeetOn(size: nat, n: nat) returns (s: State)
    requires 1 <= n <= size && n <= MAX_OCTET
    ensures Reachable(s) && s.pool.size == size && LiveCfg(s, SlotCfg(n)) && LiveCfg(s, NetCfg(Sandboxed(n), n))
  {
    s := LinkUp(size, n);
    s := GoCreate(s, n, Netter, true);
    assert Has(s.makers.creators, n, Join(Cold, None, Setup(Configure, n)));
    s := GoCreate(s, n, Netter, true);
    assert CreatorCfg(s.makers.creators[n]) == Some(NetCfg(Sandboxed(n), n));
    assert IsSlot(size, n) && Has(s.pool.place, n, InChannel);
  }

  predicate Meeting(c: NetCfg, d: NetCfg, n: nat) { c != d && c.subnet == n && d.subnet == n }

  /** Two live configurations can meet on subnet n with a pool of this size. */
  ghost predicate CanMeet(size: nat, n: nat) {
    exists s, c, d :: Reachable(s) && s.pool.size == size && LiveCfg(s, c) && LiveCfg(s, d) && Meeting(c, d, n)
  }

  /** Exactly the numbers of the pool's slots can be shared, after the teardown. */
  lemma CollisionsExact(size: nat, n: nat)
    requires size <= MAX_OCTET
    ensures CanMeet(size, n) <==> n in Slots(size)
  {
    if n in Slots(size) {
      var s := MeetOn(size, n);
      assert Meeting(SlotCfg(n), NetCfg(Sandboxed(n), n), n);
    }
    if CanMeet(size, n) {
      var s, c, d :| Reachable(s) && s.pool.size == size && LiveCfg(s, c) && LiveCfg(s, d) && Meeting(c, d, n);
      CollisionsBounded(s, c, d);
    }
  }
}
