/** The server as one concurrent transition system: handlers for create, restore,
    exec, snapshot-create and destroy, the shutdown routine, the sandbox registry,
    the netns pool channel, the kernel's link and netns names, and the
    hypervisor processes.

    A step is one critical section (s.mu, lifecycleMu, agentMu), one channel
    operation, one atomic counter or one foreign call.  Foreign calls end as the
    label says.  A step that has to wait (lock held, channel empty or full)
    leaves the state as it is. */
module Orchestrator {
  import opened Options
  import opened Lifecycle

  const WRAP64: nat := 0x1_0000_0000_0000_0000
  const WRAP32: nat := 0x1_0000_0000
  const GOLDEN_SUBNET: nat := 250
  const MAX_OCTET: nat := 255

  // ------------------------------------------------------------- network

  /** Who a network configuration was made for.  Tickets are the values handed
      out by nextSandboxID before they wrap. */
  datatype Owner = PoolSlot(i: nat) | Sandboxed(ticket: nat) | Golden(ticket: nat)

  datatype NsName = PoolNs(i: nat) | SandboxNs(id: nat) | GoldenNs

  function NameOf(o: Owner): NsName {
    match o
    case PoolSlot(i) => PoolNs(i)
    case Sandboxed(t) => SandboxNs(t % WRAP64)
    case Golden(_) => GoldenNs
  }

  datatype NetCfg = NetCfg(owner: Owner, subnet: nat)

  function SlotCfg(i: nat): NetCfg { NetCfg(PoolSlot(i), i) }

  /** The root namespace: host ends of veth pairs by subnet, the peer end while it
      still carries its fixed name there, and the named network namespaces. */
  datatype Kernel = Kernel(links: map<nat, Owner>, peer: Option<Owner>, named: map<NsName, Owner>)

  function DeleteLink(kn: Kernel, n: nat): Kernel {
    if n !in kn.links then kn
    else kn.(links := kn.links - {n},
             peer := if kn.peer == Some(kn.links[n]) then None else kn.peer)
  }

  function DeleteName(kn: Kernel, name: NsName): Kernel {
    kn.(named := kn.named - {name})
  }

  /** cleanupSandboxNetnsAndRouting: the link goes first, then the name. */
  function CleanupNet(kn: Kernel, c: NetCfg): Kernel {
    DeleteName(DeleteLink(kn, c.subnet), NameOf(c.owner))
  }

  datatype Stage = MakeNs | AddVeth | MovePeer | Configure

  datatype SetupResult = More(stage: Stage) | Failed | Live

  /** One stage of setupSandboxNetnsAndRouting with its rollback.  `late` picks,
      for a failing stage, the exit that leaves the named netns behind. */
  function SetupStep(kn: Kernel, o: Owner, n: nat, stage: Stage, ok: bool, late: bool): (Kernel, SetupResult) {
    var name := NameOf(o);
    match stage
    case MakeNs =>
      if name in kn.named then (kn, Failed)
      else if ok then (kn.(named := kn.named[name := o]), More(AddVeth))
      else if late then (kn.(named := kn.named[name := o]), Failed)
      else (kn, Failed)
    case AddVeth =>
      if ok && n !in kn.links && kn.peer.None?
      then (kn.(links := kn.links[n := o], peer := Some(o)), More(MovePeer))
      else (DeleteName(kn, name), Failed)
    case MovePeer =>
      if ok && kn.peer.Some? then (kn.(peer := None), More(Configure))
      else (DeleteLink(DeleteName(kn, name), n), Failed)
    case Configure =>
      if n > MAX_OCTET then (DeleteLink(DeleteName(kn, name), n), Failed)
      else if ok then (kn, Live)
      else if late then (DeleteLink(kn, n), Failed)
      else (DeleteLink(DeleteName(kn, name), n), Failed)
  }

  // ------------------------------------------------------------- threads

  datatype Mode = Cold | FromGolden | FromUser

  /** The goroutine that runs acquireNetns. */
  datatype NetPc =
    | TryPool
    | Bump
    | Setup(stage: Stage, subnet: nat)
    | NetDone(cfg: Option<NetCfg>)

  /** handleCreate and handleSnapshotRestore, from the id on. */
  datatype CreatorPc =
    | Ensure
    | Build(stage: Stage)
    | Built
    | Mkdir(mode: Mode)
    | Join(mode: Mode, copied: Option<bool>, net: NetPc)
    | Prep(mode: Mode, cfg: NetCfg)
    | Boot(mode: Mode, cfg: NetCfg)
    | Release(cfg: NetCfg)
    | Discard(cfg: NetCfg)
    | Insert
    | CreatorDone

  /** handleExec. */
  datatype ExecPc =
    | Lookup(key: nat)
    | Start(r: nat)
    | Validate(r: nat)
    | TakeLock(r: nat)
    | Dial(r: nat)
    | Call(r: nat)
    | Redial(r: nat)
    | Recall(r: nat)
    | DropLock(r: nat)
    | Finish(r: nat)
    | ExecDone

  /** The shared part of handleSnapshotCreate. */
  datatype SnapPc = SnapLookup(key: nat) | SnapClose(r: nat) | SnapDone

  /** handleDestroy (rest is None) and destroyAll (rest holds what is left). */
  datatype DownPc =
    | Remove(key: nat)
    | DestroyPool
    | TakeAll
    | Pick(left: set<nat>)
    | Begin(r: nat, rest: Option<set<nat>>)
    | Drain(r: nat, rest: Option<set<nat>>)
    | CloseAgent(r: nat, rest: Option<set<nat>>)
    | Kill(r: nat, rest: Option<set<nat>>)
    | ReleaseNet(r: nat, rest: Option<set<nat>>)
    | Close(r: nat, rest: Option<set<nat>>)
    | DownDone

  // --------------------------------------------------------------- state

  /** sb.Agent (only whether there is one) and the holder of agentMu. */
  datatype Agent = Agent(open: bool, holder: Option<nat>)

  /** A hypervisor process: the netns it was started in, and whether SIGKILL was sent. */
  datatype Proc = Proc(ns: Owner, killed: bool)

  /** Where a pool slot is. */
  datatype Place = InChannel | WithCreator(k: nat) | WithSandbox(r: nat) | Dropped

  /** The sandbox objects as exec, snapshot and teardown see them.  `drained` and
      `cleared` are history: the drain loop saw zero; cleanupSandbox emptied sb.Agent. */
  datatype Sessions = Sessions(
    lives: map<nat, Life>,
    agents: map<nat, Agent>,
    execs: map<nat, ExecPc>,
    snaps: map<nat, SnapPc>,
    drained: set<nat>,
    cleared: set<nat>)

  /** s.sandboxes and the teardown threads.  `cleanups` is history: how often
      cleanupSandbox was entered. */
  datatype Desk = Desk(
    registry: map<nat, nat>,
    downs: map<nat, DownPc>,
    cleanups: map<nat, nat>)

  /** netnsPool.  `place` is history. */
  datatype Pool = Pool(size: nat, channel: seq<nat>, place: map<nat, Place>)

  /** The host.  `drawn` is nextSubnet before it wraps; `wins`, history, lists the
      subnets of finished on-demand setups. */
  datatype Host = Host(kernel: Kernel, procs: map<nat, Proc>, poolDestroyed: bool, drawn: nat, wins: seq<nat>)

  /** Create and restore handlers by ticket, and sb.Netns while it is not nil.
      The object a handler makes has the ticket as its reference. */
  datatype Makers = Makers(creators: map<nat, CreatorPc>, nets: map<nat, NetCfg>)

  datatype State = State(
    issued: nat,      // nextSandboxID before it wraps
    nextTid: nat,
    sess: Sessions,
    desk: Desk,
    pool: Pool,
    host: Host,
    makers: Makers)

  predicate IsSlot(size: nat, i: nat) { 1 <= i <= size }

  function Slots(size: nat): set<nat> {
    set i: nat | 1 <= i <= size && IsSlot(size, i)
  }

  /** After a successful netnsPool.Init with `size` entries, before any request. */
  function Init(size: nat): State {
    State(0, 0,
          Sessions(map[], map[], map[], map[], {}, {}),
          Desk(map[], map[], map[]),
          Pool(size, seq(size, i => i + 1), map i | i in Slots(size) :: InChannel),
          Host(Kernel(map i | i in Slots(size) :: PoolSlot(i), None,
                      map o | o in (set i | i in Slots(size) :: PoolNs(i)) && o.PoolNs? :: PoolSlot(o.i)),
               map[], false, 0, []),
          Makers(map[], map[]))
  }

  datatype Worker = Main | Copier | Netter

  datatype Label =
    | NewCreate(mode: Mode)
    | NewExec(key: nat)
    | NewSnapshot(key: nat)
    | NewDestroy(key: nat)
    | NewShutdown
    | Create(k: nat, w: Worker, ok: bool, late: bool)
    | Exec(t: nat, ok: bool)
    | Snap(t: nat)
    | Down(t: nat, timeout: bool, pick: nat)

  // -------------------------------------------------- create and restore

  function AcquireStep(p: Pool, h: Host, k: nat, net: NetPc, ok: bool, late: bool): (Pool, Host, NetPc) {
    match net
    case TryPool =>
      if !ok then (p, h, Bump)
      else if p.channel == [] then (p, h, TryPool)
      else
        var i := p.channel[0];
        (Pool(p.size, p.channel[1..], p.place[i := WithCreator(k)]), h, NetDone(Some(SlotCfg(i))))
    case Bump =>
      (p, h.(drawn := h.drawn + 1), Setup(MakeNs, (h.drawn + 1) % WRAP32))
    case Setup(stage, n) => (
      var (kn, res) := SetupStep(h.kernel, Sandboxed(k), n, stage, ok, late);
      match res
      case More(st) => (p, h.(kernel := kn), Setup(st, n))
      case Failed => (p, h.(kernel := kn), NetDone(None))
      case Live => (p, h.(kernel := kn, wins := h.wins + [n]), NetDone(Some(NetCfg(Sandboxed(k), n))))
    )
    case NetDone(_) => (p, h, net)
  }

  function JoinStep(mode: Mode, copied: Option<bool>, net: NetPc): CreatorPc {
    if copied.None? || !net.NetDone? then Join(mode, copied, net)
    else
      match net.cfg
      case None => CreatorDone
      case Some(c) => if copied.value then Prep(mode, c) else Release(c)
  }

  predicate SendBlocks(p: Pool, c: NetCfg) {
    c.owner.PoolSlot? && |p.channel| >= p.size
  }

  /** releaseNetns, when the send does not have to wait. */
  function GiveBack(p: Pool, h: Host, c: NetCfg): (Pool, Host) {
    match c.owner
    case PoolSlot(i) => (Pool(p.size, p.channel + [i], p.place[i := InChannel]), h)
    case _ => (p, h.(kernel := CleanupNet(h.kernel, c)))
  }

  function Moved(p: Pool, c: NetCfg, where: Place): Pool {
    if c.owner.PoolSlot? then p.(place := p.place[c.owner.i := where]) else p
  }

  function SetPc(s: State, k: nat, pc: CreatorPc): State {
    s.(makers := s.makers.(creators := s.makers.creators[k := pc]))
  }

  /** The last lines of createSandbox: the object comes into being. */
  function Publish(s: State, k: nat, c: NetCfg): State {
    s.(sess := s.sess.(lives := s.sess.lives[k := Life(Running, 0)],
                       agents := s.sess.agents[k := Agent(true, None)]),
       desk := s.desk.(cleanups := s.desk.cleanups[k := 0]),
       pool := Moved(s.pool, c, WithSandbox(k)),
       makers := Makers(s.makers.creators[k := Insert], s.makers.nets[k := c]))
  }

  function SetProc(s: State, k: nat, p: Proc): State {
    s.(host := s.host.(procs := s.host.procs[k := p]))
  }

  function CreateStep(s: State, k: nat, w: Worker, ok: bool, late: bool): State
    requires k in s.makers.creators
  {
    match s.makers.creators[k]
    case Ensure =>
      SetPc(s, k, if ok then Mkdir(FromGolden) else if late then CreatorDone else Build(MakeNs))
    case Build(stage) => BuildStep(s, k, stage, ok, late)
    case Built =>
      SetPc(s.(host := s.host.(kernel := CleanupNet(s.host.kernel, NetCfg(Golden(k), GOLDEN_SUBNET)))), k,
            if ok then Mkdir(FromGolden) else CreatorDone)
    case Mkdir(mode) =>
      SetPc(s, k, if ok then Join(mode, None, TryPool) else CreatorDone)
    case Join(mode, copied, net) => (
      match w
      case Copier => SetPc(s, k, Join(mode, if copied.None? then Some(ok) else copied, net))
      case Netter =>
        var (p, h, net') := AcquireStep(s.pool, s.host, k, net, ok, late);
        SetPc(s.(pool := p, host := h), k, Join(mode, copied, net'))
      case Main => SetPc(s, k, JoinStep(mode, copied, net))
    )
    case Prep(mode, c) =>
      if ok then SetPc(SetProc(s, k, Proc(c.owner, false)), k, Boot(mode, c))
      else SetPc(s, k, Release(c))
    case Boot(mode, c) =>
      if ok then Publish(s, k, c)
      else SetPc(SetProc(s, k, Proc(c.owner, true)), k, if mode == Cold then Discard(c) else Release(c))
    case Release(c) =>
      if SendBlocks(s.pool, c) then s
      else
        var (p, h) := GiveBack(s.pool, s.host, c);
        SetPc(s.(pool := p, host := h), k, CreatorDone)
    case Discard(c) =>
      SetPc(s.(pool := Moved(s.pool, c, Dropped),
               host := s.host.(kernel := CleanupNet(s.host.kernel, c))), k, CreatorDone)
    case Insert =>
      SetPc(s.(desk := s.desk.(registry := s.desk.registry[k % WRAP64 := k])), k, CreatorDone)
    case CreatorDone => s
  }

  function BuildStep(s: State, k: nat, stage: Stage, ok: bool, late: bool): State {
    var (kn, res) := SetupStep(s.host.kernel, Golden(k), GOLDEN_SUBNET, stage, ok, late);
    SetPc(s.(host := s.host.(kernel := kn)), k,
          match res
          case More(st) => Build(st)
          case Failed => CreatorDone
          case Live => Built)
  }

  // ----------------------------------------------------- exec, snapshot

  /** The sandbox an exec handler is working on. */
  function ExecRefs(p: ExecPc): set<nat> {
    match p
    case Lookup(_) => {}
    case ExecDone => {}
    case _ => {p.r}
  }

  function SetExec(x: Sessions, t: nat, pc: ExecPc): Sessions {
    x.(execs := x.execs[t := pc])
  }

  function SetOpen(x: Sessions, r: nat, open: bool): Sessions
    requires r in x.agents
  {
    x.(agents := x.agents[r := x.agents[r].(open := open)])
  }

  function SetHolder(x: Sessions, r: nat, holder: Option<nat>): Sessions
    requires r in x.agents
  {
    x.(agents := x.agents[r := x.agents[r].(holder := holder)])
  }

  function SetLife(x: Sessions, r: nat, l: Life): Sessions {
    x.(lives := x.lives[r := l])
  }

  function ExecStep(x: Sessions, registry: map<nat, nat>, t: nat, ok: bool): Sessions
    requires t in x.execs
    requires ExecRefs(x.execs[t]) <= x.lives.Keys * x.agents.Keys
  {
    match x.execs[t]
    case Lookup(key) => SetExec(x, t, if key in registry then Start(registry[key]) else ExecDone)
    case Start(r) =>
      var (l, admitted) := TryStartExec(x.lives[r]);
      SetExec(SetLife(x, r, l), t, if admitted then Validate(r) else ExecDone)
    case Validate(r) => SetExec(x, t, if ok then TakeLock(r) else Finish(r))
    case TakeLock(r) =>
      if x.agents[r].holder.Some? then x
      else SetExec(SetHolder(x, r, Some(t)), t, if x.agents[r].open then Call(r) else Dial(r))
    case Dial(r) => if ok then SetExec(SetOpen(x, r, true), t, Call(r)) else SetExec(x, t, DropLock(r))
    case Call(r) => if ok then SetExec(x, t, DropLock(r)) else SetExec(SetOpen(x, r, false), t, Redial(r))
    case Redial(r) => if ok then SetExec(SetOpen(x, r, true), t, Recall(r)) else SetExec(x, t, DropLock(r))
    case Recall(r) => SetExec(x, t, DropLock(r))
    case DropLock(r) => SetExec(SetHolder(x, r, None), t, Finish(r))
    case Finish(r) => SetExec(SetLife(x, r, FinishExec(x.lives[r])), t, ExecDone)
    case ExecDone => x
  }

  function SnapStep(x: Sessions, registry: map<nat, nat>, t: nat): Sessions
    requires t in x.snaps
    requires x.snaps[t].SnapClose? ==> x.snaps[t].r in x.agents
  {
    match x.snaps[t]
    case SnapLookup(key) =>
      x.(snaps := x.snaps[t := if key in registry then SnapClose(registry[key]) else SnapDone])
    case SnapClose(r) =>
      if x.agents[r].holder.Some? then x
      else SetOpen(x, r, false).(snaps := x.snaps[t := SnapDone])
    case SnapDone => x
  }

  // --------------------------------------------------- destroy, shutdown

  /** The sandboxes a teardown thread still has to begin with. */
  function Waiting(p: DownPc): set<nat> {
    match p
    case Pick(left) => left
    case Remove(_) => {}
    case DestroyPool => {}
    case TakeAll => {}
    case DownDone => {}
    case _ => if p.rest.Some? then p.rest.value else {}
  }

  predicate Busy(p: DownPc) {
    !(p.Pick? || p.Remove? || p.DestroyPool? || p.TakeAll? || p.DownDone?)
  }

  /** The sandboxes a teardown thread has taken out of the registry and not finished. */
  function DownRefs(p: DownPc): set<nat> {
    Waiting(p) + if Busy(p) then {p.r} else {}
  }

  function Onward(rest: Option<set<nat>>): DownPc {
    match rest
    case None => DownDone
    case Some(left) => Pick(left)
  }

  function SetDown(s: State, t: nat, pc: DownPc): State {
    s.(desk := s.desk.(downs := s.desk.downs[t := pc]))
  }

  /** netnsPool.Destroy: every slot ever initialised is cleaned up. */
  function DestroyPoolNets(kn: Kernel, size: nat): Kernel {
    Kernel(map n | n in kn.links && n !in Slots(size) :: kn.links[n],
           if kn.peer.Some? && kn.peer.value in (set n | n in kn.links && n in Slots(size) :: kn.links[n])
           then None else kn.peer,
           map n | n in kn.named && !(n.PoolNs? && n.i in Slots(size)) :: kn.named[n])
  }

  ghost predicate DownReady(s: State, p: DownPc) {
    && DownRefs(p) <= s.sess.lives.Keys * s.sess.agents.Keys * s.desk.cleanups.Keys
    && (p.ReleaseNet? ==> p.r in s.makers.nets)
    && (p.Kill? ==> p.r in s.host.procs)
  }

  ghost function DownStep(s: State, t: nat, timeout: bool, pick: nat): State
    requires t in s.desk.downs && DownReady(s, s.desk.downs[t])
  {
    match s.desk.downs[t]
    case Remove(key) =>
      if key !in s.desk.registry then SetDown(s, t, DownDone)
      else SetDown(s.(desk := s.desk.(registry := s.desk.registry - {key})), t, Begin(s.desk.registry[key], None))
    case DestroyPool =>
      SetDown(s.(host := s.host.(poolDestroyed := true, kernel := DestroyPoolNets(s.host.kernel, s.pool.size))),
              t, TakeAll)
    case TakeAll =>
      SetDown(s.(desk := s.desk.(registry := map[])), t, Pick(s.desk.registry.Values))
    case Pick(left) =>
      if left == {} then SetDown(s, t, DownDone)
      else if pick in left then SetDown(s, t, Begin(pick, Some(left - {pick})))
      else s
    case Begin(r, rest) =>
      var (l, mine) := BeginDestroy(s.sess.lives[r]);
      SetDown(s.(sess := SetLife(s.sess, r, l)), t,
              if mine then Drain(r, rest) else if rest.None? then DownDone else CloseAgent(r, rest))
    case Drain(r, rest) =>
      if s.sess.lives[r].inFlight == 0 then
        SetDown(s.(sess := s.sess.(drained := s.sess.drained + {r})), t, CloseAgent(r, rest))
      else if timeout then SetDown(s, t, CloseAgent(r, rest))
      else s
    case CloseAgent(r, rest) =>
      if s.sess.agents[r].holder.Some? then s
      else
        SetDown(s.(sess := SetOpen(s.sess, r, false).(cleared := s.sess.cleared + {r}),
                   desk := s.desk.(cleanups := s.desk.cleanups[r := s.desk.cleanups[r] + 1])),
                t, Kill(r, rest))
    case Kill(r, rest) =>
      SetDown(SetProc(s, r, s.host.procs[r].(killed := true)), t, ReleaseNet(r, rest))
    case ReleaseNet(r, rest) =>
      if SendBlocks(s.pool, s.makers.nets[r]) then s
      else
        var (p, h) := GiveBack(s.pool, s.host, s.makers.nets[r]);
        SetDown(s.(pool := p, host := h, makers := s.makers.(nets := s.makers.nets - {r})), t, Close(r, rest))
    case Close(r, rest) =>
      SetDown(s.(sess := SetLife(s.sess, r, FinishDestroy(s.sess.lives[r]))), t, Onward(rest))
    case DownDone => s
  }

  // ------------------------------------------------------------ the whole

  /** False for a label that names no thread.  For a thread it says that the step
      dereferences no nil; the invariant shows it always holds then. */
  ghost predicate CanStep(s: State, l: Label) {
    match l
    case Create(k, _, _, _) => k in s.makers.creators
    case Exec(t, _) =>
      t in s.sess.execs && ExecRefs(s.sess.execs[t]) <= s.sess.lives.Keys * s.sess.agents.Keys
    case Snap(t) =>
      t in s.sess.snaps && (s.sess.snaps[t].SnapClose? ==> s.sess.snaps[t].r in s.sess.agents)
    case Down(t, _, _) => t in s.desk.downs && DownReady(s, s.desk.downs[t])
    case _ => true
  }

  ghost function Step(s: State, l: Label): State {
    if !CanStep(s, l) then s else
    match l
    case NewCreate(mode) =>
      SetPc(s.(issued := s.issued + 1), s.issued + 1, if mode == FromGolden then Ensure else Mkdir(mode))
    case NewExec(key) => s.(nextTid := s.nextTid + 1, sess := SetExec(s.sess, s.nextTid, Lookup(key)))
    case NewSnapshot(key) =>
      s.(nextTid := s.nextTid + 1, sess := s.sess.(snaps := s.sess.snaps[s.nextTid := SnapLookup(key)]))
    case NewDestroy(key) => SetDown(s.(nextTid := s.nextTid + 1), s.nextTid, Remove(key))
    case NewShutdown => SetDown(s.(nextTid := s.nextTid + 1), s.nextTid, DestroyPool)
    case Create(k, w, ok, late) => CreateStep(s, k, w, ok, late)
    case Exec(t, ok) => s.(sess := ExecStep(s.sess, s.desk.registry, t, ok))
    case Snap(t) => s.(sess := SnapStep(s.sess, s.desk.registry, t))
    case Down(t, timeout, pick) => DownStep(s, t, timeout, pick)
  }

  ghost function Run(s: State, ls: seq<Label>): State {
    if ls == [] then s else Step(Run(s, ls[..|ls| - 1]), ls[|ls| - 1])
  }
}
