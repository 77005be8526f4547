/** What createSandbox and restoreSandboxFromArtifacts do to the host, step by step,
    and what each way out leaves behind. */
module Ledgers {
  import opened Options

  /** A network configuration, known here by a number. */
  type Net = nat

  datatype Event =
    | DirMade | DirRemoved
    | DiskCopied
    | NetTaken(net: Net) | NetReleased(net: Net) | NetDismantled(net: Net)
    | LogOpened | LogClosed
    | CgroupMade | CgroupRemoved | CgroupKilled
    | Started(net: Net) | Killed
    | AgentOpened | AgentClosed

  datatype Vm = NoVm | Running(net: Net) | Dead(net: Net)

  /** The books: what exists now, whether the cgroup's processes were killed, how the
      network was given back, and whether every event so far came at a lawful moment. */
  datatype Books = Books(dir: bool, disk: bool, net: Option<Net>, log: bool, cgroup: bool, vm: Vm, agent: bool,
                         emptied: bool, released: nat, dismantled: nat, lawful: bool)

  const CLEAN := Books(false, false, None, false, false, NoVm, false, false, 0, 0, true)

  /** An event is lawful when what it uses exists and what it makes does not; a network
      may only be given back by its holder and with no VM running in it. */
  predicate Lawful(b: Books, e: Event) {
    match e
    case DirMade => !b.dir
    case DirRemoved => b.dir
    case DiskCopied => b.dir
    case NetTaken(_) => b.net.None?
    case NetReleased(c) => b.net == Some(c) && !b.vm.Running?
    case NetDismantled(c) => b.net == Some(c) && !b.vm.Running?
    case LogOpened => b.dir && !b.log
    case LogClosed => b.log
    case CgroupMade => !b.cgroup
    case CgroupRemoved => b.cgroup
    case CgroupKilled => b.cgroup
    case Started(c) => b.disk && b.net == Some(c) && b.log && b.vm.NoVm?
    case Killed => b.vm.Running?
    case AgentOpened => b.vm.Running? && !b.agent
    case AgentClosed => b.agent
  }

  function Enter(b: Books, e: Event): Books {
    var b' := b.(lawful := b.lawful && Lawful(b, e));
    match e
    case DirMade => b'.(dir := true)
    case DirRemoved => b'.(dir := false, disk := false)
    case DiskCopied => b'.(disk := true)
    case NetTaken(c) => b'.(net := Some(c))
    case NetReleased(_) => b'.(net := None, released := b.released + 1)
    case NetDismantled(_) => b'.(net := None, dismantled := b.dismantled + 1)
    case LogOpened => b'.(log := true)
    case LogClosed => b'.(log := false)
    case CgroupMade => b'.(cgroup := true)
    case CgroupRemoved => b'.(cgroup := false)
    case CgroupKilled => b'.(emptied := true)
    case Started(c) => b'.(vm := Running(c))
    case Killed => if b.vm.Running? then b'.(vm := Dead(b.vm.net)) else b'
    case AgentOpened => b'.(agent := true)
    case AgentClosed => b'.(agent := false)
  }

  function Replay(t: seq<Event>): Books {
    if t == [] then CLEAN else Enter(Replay(t[..|t| - 1]), t[|t| - 1])
  }

  class Host {
    var trace: seq<Event>
    const cgroupsEnabled: bool
    const keepFailedSandboxes: bool

    function Now(): Books
      reads this
    {
      Replay(trace)
    }

    constructor (cgroupsEnabled: bool, keepFailedSandboxes: bool)
      ensures trace == []
      ensures this.cgroupsEnabled == cgroupsEnabled && this.keepFailedSandboxes == keepFailedSandboxes
    {
      trace, this.cgroupsEnabled, this.keepFailedSandboxes := [], cgroupsEnabled, keepFailedSandboxes;
    }

    method Do(e: Event)
      modifies this
      ensures trace == old(trace) + [e]
      ensures Now() == Enter(old(Now()), e)
    {
      trace := trace + [e];
      assert trace[..|trace| - 1] == old(trace);
    }
  }

  /** How the foreign calls of one create or restore end. */
  datatype Calls = Calls(
    made: bool,                                    // the sandbox directory
    netFirst: bool, copied: bool, net: Option<Net>,  // the two goroutines
    written: bool,                                 // the VM configuration
    logOpened: bool, cgroupMade: bool, started: bool,
    socketCame: bool, moved: bool, removed: bool,  // moving into the cgroup, or dropping it
    loaded: bool, agentUp: bool, guestNet: bool)

  /** How a create or restore ends. */
  datatype Outcome =
    | NoArtifacts | NoDir | SetupFailed | ConfigFailed | LogFailed | StartFailed
    | SocketFailed | LoadFailed | AgentFailed | GuestNetFailed
    | Ready(net: Net, cgroup: bool)

  predicate Late(o: Outcome) { o.SocketFailed? || o.LoadFailed? || o.AgentFailed? || o.GuestNetFailed? }

  datatype Kind = ColdBoot | Restore

  /** The steps a VM needs before it can be started, and those it needs after. */
  predicate CanStart(w: Calls, kind: Kind) {
    w.made && w.copied && w.net.Some? && (kind.ColdBoot? ==> w.written) && w.logOpened && w.started
  }

  predicate ComesUp(w: Calls, kind: Kind) {
    (kind.Restore? ==> w.socketCame && w.loaded) && w.agentUp && w.guestNet
  }

  /** The first step that fails decides the way out. */
  predicate EndsAs(w: Calls, kind: Kind, o: Outcome) {
    && !o.NoArtifacts?
    && (o.Ready? <==> CanStart(w, kind) && ComesUp(w, kind))
    && (Late(o) <==> CanStart(w, kind) && !ComesUp(w, kind))
    && (o.NoDir? <==> !w.made)
    && (o.SetupFailed? <==> w.made && !(w.copied && w.net.Some?))
    && (o.ConfigFailed? ==> kind.ColdBoot? && !w.written)
    && (o.LogFailed? ==> !w.logOpened)
    && (o.StartFailed? ==> w.logOpened && !w.started)
    && (o.SocketFailed? ==> kind.Restore? && !w.socketCame)
    && (o.LoadFailed? ==> kind.Restore? && w.socketCame && !w.loaded)
    && (o.AgentFailed? ==> (kind.Restore? ==> w.socketCame && w.loaded) && !w.agentUp)
    && (o.GuestNetFailed? ==> w.agentUp && !w.guestNet)
  }

  /** Whether the cgroup is known when the VM is up or killed, and whether its directory
      is still there at the end. */
  predicate HasPath(w: Calls, o: Outcome, enabled: bool) {
    (o.Ready? || Late(o)) && enabled && w.cgroupMade && (o.SocketFailed? || w.moved)
  }

  predicate CgroupLeft(w: Calls, o: Outcome, enabled: bool) {
    && enabled && w.cgroupMade
    && (o.StartFailed? || o.SocketFailed? || ((o.Ready? || Late(o)) && (w.moved || !w.removed)))
  }

  /** The final books of each way out.  Whatever fails, no network is held, no VM runs, no
      agent or log is open, and a network that was taken was given back once: dismantled
      by a late failure of the cold boot, released otherwise. */
  function Final(w: Calls, o: Outcome, enabled: bool, kept: bool, kind: Kind): Books {
    var dismantled := kind.ColdBoot? && Late(o);
    if o.NoDir? then CLEAN
    else Books(
      o.Ready? || kept, w.copied && (o.Ready? || kept),
      if o.Ready? then w.net else None,
      false,
      CgroupLeft(w, o, enabled),
      if w.net.None? then NoVm else if o.Ready? then Running(w.net.value) else if Late(o) then Dead(w.net.value) else NoVm,
      o.Ready?,
      Late(o) && HasPath(w, o, enabled),
      if w.net.Some? && !o.Ready? && !dismantled then 1 else 0,
      if dismantled then 1 else 0,
      true)
  }

  predicate Settled(b: Books, o: Outcome, w: Calls, enabled: bool, kept: bool, kind: Kind) {
    && EndsAs(w, kind, o)
    && (o.Ready? ==> w.net == Some(o.net) && o.cgroup == HasPath(w, o, enabled))
    && b == Final(w, o, enabled, kept, kind)
  }

  // --------------------------------------------------- the common pieces

  /** The two goroutines, finishing in either order: copy the disk, take a network. */
  method ParallelSetup(h: Host, w: Calls)
    requires h.Now() == CLEAN.(dir := true)
    modifies h
    ensures h.Now() == CLEAN.(dir := true, disk := w.copied, net := w.net)
  {
    if w.netFirst && w.net.Some? { h.Do(NetTaken(w.net.value)); }
    if w.copied { h.Do(DiskCopied); }
    if !w.netFirst && w.net.Some? { h.Do(NetTaken(w.net.value)); }
  }

  /** prepareSandboxCgroup; the result says whether there is a path to use. */
  method PrepareCgroup(h: Host, made: bool) returns (path: bool)
    requires !h.Now().cgroup
    modifies h
    ensures path <==> h.cgroupsEnabled && made
    ensures h.Now() == old(h.Now()).(cgroup := path)
  {
    path := false;
    if h.cgroupsEnabled && made {
      h.Do(CgroupMade);
      path := true;
    }
  }

  /** attachSandboxProcessToCgroup: a failed move gives the cgroup up, and its
      directory goes unless that fails too. */
  method AttachCgroup(h: Host, path: bool, moved: bool, removed: bool) returns (path': bool)
    requires path ==> h.Now().cgroup
    modifies h
    ensures path' <==> path && moved
    ensures h.Now() == old(h.Now()).(cgroup := old(h.Now().cgroup) && !(path && !moved && removed))
  {
    if !path { return false; }
    if moved { return true; }
    if removed { h.Do(CgroupRemoved); }
    path' := false;
  }

  /** The start of every late failure: kill the group, then the cgroup if known. */
  method KillVm(h: Host, path: bool)
    requires h.Now().vm.Running? && h.Now().lawful && (path ==> h.Now().cgroup)
    modifies h
    ensures h.Now() == old(h.Now()).(vm := Dead(old(h.Now()).vm.net), emptied := old(h.Now().emptied) || path)
  {
    h.Do(Killed);
    if path { h.Do(CgroupKilled); }
  }

  /** Directory, disk and network are ready. */
  function Prepared(net: Net): Books {
    CLEAN.(dir := true, disk := true, net := Some(net))
  }

  /** Opens the log, prepares the cgroup and starts the VM; on failure the log is
      closed and no VM runs. */
  method Launch(h: Host, net: Net, w: Calls) returns (failure: Option<Outcome>, path: bool)
    requires h.Now() == Prepared(net)
    modifies h
    ensures failure == if !w.logOpened then Some(LogFailed) else if !w.started then Some(StartFailed) else None
    ensures path <==> w.logOpened && h.cgroupsEnabled && w.cgroupMade
    ensures h.Now() == Prepared(net).(
      cgroup := path, log := failure.None?, vm := if failure.None? then Running(net) else NoVm)
  {
    if !w.logOpened { return Some(LogFailed), false; }
    h.Do(LogOpened);
    path := PrepareCgroup(h, w.cgroupMade);
    if !w.started {
      h.Do(LogClosed);
      return Some(StartFailed), path;
    }
    h.Do(Started(net));
    failure := None;
  }

  /** Where the VM has been started and waits. */
  function Launched(net: Net, cgroup: bool): Books {
    Prepared(net).(log := true, vm := Running(net), cgroup := cgroup)
  }

  // ------------------------------------------------------------- restore

  /** A late failure of restore: the VM dies, the log is closed, the rest is left to
      the deferred cleanups. */
  method AbortRestore(h: Host, net: Net, path: bool)
    requires h.Now() == Launched(net, h.Now().cgroup)
    requires path ==> h.Now().cgroup
    modifies h
    ensures h.Now() == Prepared(net).(vm := Dead(net), cgroup := old(h.Now().cgroup), emptied := path)
  {
    KillVm(h, path);
    h.Do(LogClosed);
  }

  /** From the started VM to the configured guest: restore.go's four late exits. */
  method AwaitRestored(h: Host, net: Net, path0: bool, w: Calls) returns (o: Outcome)
    requires h.Now() == Launched(net, path0)
    modifies h
    ensures o == if !w.socketCame then SocketFailed else if !w.loaded then LoadFailed
                 else if !w.agentUp then AgentFailed else if !w.guestNet then GuestNetFailed
                 else Ready(net, path0 && w.moved)
    ensures h.Now() == Prepared(net).(
      vm := if o.Ready? then Running(net) else Dead(net), agent := o.Ready?,
      cgroup := path0 && (o.SocketFailed? || w.moved || !w.removed),
      emptied := !o.Ready? && path0 && (o.SocketFailed? || w.moved))
  {
    if !w.socketCame {
      AbortRestore(h, net, path0);
      return SocketFailed;
    }
    var path := AttachCgroup(h, path0, w.moved, w.removed);
    if !w.loaded {
      AbortRestore(h, net, path);
      return LoadFailed;
    }
    if !w.agentUp {
      AbortRestore(h, net, path);
      return AgentFailed;
    }
    h.Do(AgentOpened);
    if !w.guestNet {
      h.Do(AgentClosed);
      AbortRestore(h, net, path);
      return GuestNetFailed;
    }
    h.Do(LogClosed);
    o := Ready(net, path);
  }

  /** restoreSandboxFromArtifacts for every outcome of its foreign calls and either
      order of its goroutines. */
  method RestoreSandbox(h: Host, keepFailedSandboxDir: bool, w: Calls) returns (o: Outcome)
    requires h.trace == []
    modifies h
    ensures Settled(h.Now(), o, w, h.cgroupsEnabled, keepFailedSandboxDir, Restore)
  {
    if !w.made { return NoDir; }
    h.Do(DirMade);
    var cleanupDir := true;
    ParallelSetup(h, w);
    if !w.copied || w.net.None? {
      if w.net.Some? { h.Do(NetReleased(w.net.value)); }
      o := SetupFailed;
    } else {
      o := RestoreOn(h, w);
      if o.Ready? { cleanupDir := false; }
    }
    if cleanupDir && !keepFailedSandboxDir { h.Do(DirRemoved); }
  }

  /** Restoring with directory, disk and network at hand; a failure releases the network. */
  method RestoreOn(h: Host, w: Calls) returns (o: Outcome)
    requires w.made && w.copied && w.net.Some? && h.Now() == Prepared(w.net.value)
    modifies h
    ensures Settled(h.Now(), o, w, h.cgroupsEnabled, true, Restore)
    ensures !o.NoDir? && !o.SetupFailed?
  {
    var net := w.net.value;
    var cleanupNet := true;
    var failure, path := Launch(h, net, w);
    if failure.Some? {
      o := failure.value;
    } else {
      o := AwaitRestored(h, net, path, w);
      if o.Ready? { cleanupNet := false; }
    }
    if cleanupNet { h.Do(NetReleased(net)); }
  }

  /** createSandboxFromSnapshot: no golden snapshot, no work. */
  method CreateFromGolden(h: Host, ensured: bool, w: Calls) returns (o: Outcome)
    requires h.trace == []
    modifies h
    ensures !ensured ==> o == NoArtifacts && h.trace == []
    ensures ensured ==> Settled(h.Now(), o, w, h.cgroupsEnabled, h.keepFailedSandboxes, Restore)
  {
    if !ensured { return NoArtifacts; }
    o := RestoreSandbox(h, h.keepFailedSandboxes, w);
  }

  /** createSandboxFromUserSnapshot: all three files must be there, and a failed
      attempt never keeps its directory. */
  method CreateFromUserSnapshot(h: Host, state: bool, mem: bool, disk: bool, w: Calls) returns (o: Outcome)
    requires h.trace == []
    modifies h
    ensures !(state && mem && disk) ==> o == NoArtifacts && h.trace == []
    ensures state && mem && disk ==> Settled(h.Now(), o, w, h.cgroupsEnabled, false, Restore)
  {
    if !state || !mem || !disk { return NoArtifacts; }
    o := RestoreSandbox(h, false, w);
  }

  // ----------------------------------------------------------- cold boot

  /** A late failure of the cold boot: the VM dies and the network is dismantled on the
      spot, pool slot or not. */
  method AbortColdBoot(h: Host, net: Net, path: bool)
    requires h.Now() == Launched(net, h.Now().cgroup)
    requires path ==> h.Now().cgroup
    modifies h
    ensures h.Now() == CLEAN.(
      dir := true, disk := true, vm := Dead(net), dismantled := 1, cgroup := old(h.Now().cgroup), emptied := path)
  {
    KillVm(h, path);
    h.Do(NetDismantled(net));
    h.Do(LogClosed);
  }

  /** From the started VM to the configured guest: sandbox.go's two late exits. */
  method AwaitBooted(h: Host, net: Net, path0: bool, w: Calls) returns (o: Outcome)
    requires h.Now() == Launched(net, path0)
    modifies h
    ensures o == if !w.agentUp then AgentFailed else if !w.guestNet then GuestNetFailed else Ready(net, path0 && w.moved)
    ensures o.Ready? ==> h.Now() == Prepared(net).(vm := Running(net), agent := true, cgroup := path0 && (w.moved || !w.removed))
    ensures Late(o) ==> h.Now() == CLEAN.(
      dir := true, disk := true, vm := Dead(net), dismantled := 1,
      cgroup := path0 && (w.moved || !w.removed), emptied := path0 && w.moved)
  {
    var path := AttachCgroup(h, path0, w.moved, w.removed);
    if !w.agentUp {
      AbortColdBoot(h, net, path);
      return AgentFailed;
    }
    h.Do(AgentOpened);
    if !w.guestNet {
      h.Do(AgentClosed);
      AbortColdBoot(h, net, path);
      return GuestNetFailed;
    }
    h.Do(LogClosed);
    o := Ready(net, path);
  }

  /** createSandbox without snapshots. */
  method CreateSandbox(h: Host, w: Calls) returns (o: Outcome)
    requires h.trace == []
    modifies h
    ensures Settled(h.Now(), o, w, h.cgroupsEnabled, false, ColdBoot)
  {
    if !w.made { return NoDir; }
    h.Do(DirMade);
    var cleanupDir := true;
    ParallelSetup(h, w);
    if !w.copied || w.net.None? {
      if w.net.Some? { h.Do(NetReleased(w.net.value)); }
      o := SetupFailed;
    } else {
      o := BootOn(h, w);
      if o.Ready? { cleanupDir := false; }
    }
    if cleanupDir { h.Do(DirRemoved); }
  }

  /** Booting with directory, disk and network at hand. */
  method BootOn(h: Host, w: Calls) returns (o: Outcome)
    requires w.made && w.copied && w.net.Some? && h.Now() == Prepared(w.net.value)
    modifies h
    ensures Settled(h.Now(), o, w, h.cgroupsEnabled, true, ColdBoot)
    ensures !o.NoDir? && !o.SetupFailed?
  {
    var net := w.net.value;
    var cleanupNet := true;
    if !w.written {
      o := ConfigFailed;
    } else {
      var failure, path := Launch(h, net, w);
      if failure.Some? {
        o := failure.value;
      } else {
        o := AwaitBooted(h, net, path, w);
        cleanupNet := false;
      }
    }
    if cleanupNet { h.Do(NetReleased(net)); }
  }

  // -------------------------------------- what lawful books say of a trace

  predicate GivesBack(e: Event, c: Net) { e == NetReleased(c) || e == NetDismantled(c) }

  lemma EnterLawful(b: Books, e: Event)
    ensures Enter(b, e).lawful == (b.lawful && Lawful(b, e))
  {
    match e {
      case DirMade =>
      case DirRemoved =>
      case DiskCopied =>
      case NetTaken(_) =>
      case NetReleased(_) =>
      case NetDismantled(_) =>
      case LogOpened =>
      case LogClosed =>
      case CgroupMade =>
      case CgroupRemoved =>
      case CgroupKilled =>
      case Started(_) =>
      case Killed =>
      case AgentOpened =>
      case AgentClosed =>
    }
  }

  lemma LawfulInit(t: seq<Event>)
    requires Replay(t).lawful && t != []
    ensures var u := t[..|t| - 1]; Replay(u).lawful && Lawful(Replay(u), t[|t| - 1])
  {
    EnterLawful(Replay(t[..|t| - 1]), t[|t| - 1]);
  }

  lemma {:induction false} LawfulPrefix(t: seq<Event>, k: nat)
    requires Replay(t).lawful && k < |t|
    ensures Replay(t[..k]).lawful && Lawful(Replay(t[..k]), t[k])
    decreases |t|
  {
    LawfulInit(t);
    if k < |t| - 1 {
      LawfulPrefix(t[..|t| - 1], k);
      assert t[..|t| - 1][..k] == t[..k];
    }
  }

  lemma HeldBefore(b: Books, e: Event, c: Net)
    requires Enter(b, e).lawful && Enter(b, e).net == Some(c) && e != NetTaken(c)
    ensures b.lawful && b.net == Some(c) && !GivesBack(e, c)
  {
    match e {
      case DirMade =>
      case DirRemoved =>
      case DiskCopied =>
      case NetTaken(_) =>
      case NetReleased(_) =>
      case NetDismantled(_) =>
      case LogOpened =>
      case LogClosed =>
      case CgroupMade =>
      case CgroupRemoved =>
      case CgroupKilled =>
      case Started(_) =>
      case Killed =>
      case AgentOpened =>
      case AgentClosed =>
    }
  }

  /** Taken at j, and not given back since. */
  predicate TakenAt(t: seq<Event>, j: nat, c: Net) {
    j < |t| && t[j] == NetTaken(c) && forall m :: j < m < |t| ==> !GivesBack(t[m], c)
  }

  /** In lawful books a held network was taken, and not given back since. */
  lemma {:induction false} HeldWasTaken(u: seq<Event>, c: Net) returns (j: nat)
    requires Replay(u).lawful && Replay(u).net == Some(c)
    ensures TakenAt(u, j, c)
    decreases |u|
  {
    j := |u| - 1;
    if u[j] != NetTaken(c) {
      var v := u[..|u| - 1];
      HeldBefore(Replay(v), u[j], c);
      var i := HeldWasTaken(v, c);
      TakenLonger(u, i, c);
      j := i;
    }
  }

  lemma TakenLonger(u: seq<Event>, j: nat, c: Net)
    requires u != [] && TakenAt(u[..|u| - 1], j, c) && !GivesBack(u[|u| - 1], c)
    ensures TakenAt(u, j, c)
  {
    var v := u[..|u| - 1];
    assert forall m :: 0 <= m < |v| ==> u[m] == v[m];
  }

  /** In lawful books, a VM that was started and is not running was killed since. */
  lemma {:induction false} StoppedWasKilled(t: seq<Event>, i: nat) returns (m: nat)
    requires Replay(t).lawful && !Replay(t).vm.Running? && i < |t| && t[i].Started?
    ensures i < m < |t| && t[m] == Killed
    decreases |t|
  {
    m := |t| - 1;
    if t[m] != Killed {
      StoppedBefore(t);
      var u := t[..m];
      assert i < m && u[i] == t[i];
      m := StoppedWasKilled(u, i);
      assert t[m] == u[m];
    }
  }

  lemma StoppedBefore(t: seq<Event>)
    requires t != [] && Replay(t).lawful && !Replay(t).vm.Running? && t[|t| - 1] != Killed
    ensures var u := t[..|t| - 1]; Replay(u).lawful && !Replay(u).vm.Running?
    ensures !t[|t| - 1].Started?
  {
    OnlyKilledStops(Replay(t[..|t| - 1]), t[|t| - 1]);
  }

  lemma OnlyKilledStops(b: Books, e: Event)
    requires e != Killed && Enter(b, e).lawful && !Enter(b, e).vm.Running?
    ensures b.lawful && !b.vm.Running? && !e.Started?
  {
    match e {
      case DirMade =>
      case DirRemoved =>
      case DiskCopied =>
      case NetTaken(_) =>
      case NetReleased(_) =>
      case NetDismantled(_) =>
      case LogOpened =>
      case LogClosed =>
      case CgroupMade =>
      case CgroupRemoved =>
      case CgroupKilled =>
      case Started(_) =>
      case AgentOpened =>
      case AgentClosed =>
    }
  }

  lemma HeldAt(t: seq<Event>, k: nat, c: Net)
    requires k <= |t| && Replay(t[..k]).lawful && Replay(t[..k]).net == Some(c)
    ensures exists j :: 0 <= j < k && t[j] == NetTaken(c) && forall m :: j < m < k ==> !GivesBack(t[m], c)
  {
    var j := HeldWasTaken(t[..k], c);
    assert forall m :: j <= m < k ==> t[m] == t[..k][m];
  }

  lemma KilledBefore(t: seq<Event>, k: nat)
    requires k <= |t| && Replay(t[..k]).lawful && !Replay(t[..k]).vm.Running?
    ensures forall i :: 0 <= i < k && t[i].Started? ==> exists m :: i < m < k && t[m] == Killed
  {
    forall i | 0 <= i < k && t[i].Started? ensures exists m :: i < m < k && t[m] == Killed {
      var m := StoppedWasKilled(t[..k], i);
      assert t[m] == Killed;
    }
  }

  /** Whatever the trace: each time a network is given back it had been taken, was not
      given back in between, and every VM started before was killed before. */
  lemma GiveBackDiscipline(t: seq<Event>, k: nat, c: Net)
    requires Replay(t).lawful && k < |t| && GivesBack(t[k], c)
    ensures exists j :: 0 <= j < k && t[j] == NetTaken(c) && forall m :: j < m < k ==> !GivesBack(t[m], c)
    ensures forall i :: 0 <= i < k && t[i].Started? ==> exists m :: i < m < k && t[m] == Killed
  {
    LawfulPrefix(t, k);
    HeldAt(t, k, c);
    KilledBefore(t, k);
  }

  /** Copied at d, and the directory not removed since. */
  predicate CopiedAt(t: seq<Event>, d: nat) {
    d < |t| && t[d] == DiskCopied && forall m :: d < m < |t| ==> t[m] != DirRemoved
  }

  lemma {:induction false} DiskWasCopied(u: seq<Event>) returns (d: nat)
    requires Replay(u).lawful && Replay(u).disk
    ensures CopiedAt(u, d)
    decreases |u|
  {
    d := |u| - 1;
    if u[d] != DiskCopied {
      var v := u[..|u| - 1];
      DiskBefore(Replay(v), u[d]);
      var i := DiskWasCopied(v);
      CopiedLonger(u, i);
      d := i;
    }
  }

  lemma CopiedLonger(u: seq<Event>, d: nat)
    requires u != [] && CopiedAt(u[..|u| - 1], d) && u[|u| - 1] != DirRemoved
    ensures CopiedAt(u, d)
  {
    var v := u[..|u| - 1];
    assert forall m :: 0 <= m < |v| ==> u[m] == v[m];
  }

  lemma DiskBefore(b: Books, e: Event)
    requires Enter(b, e).lawful && Enter(b, e).disk && e != DiskCopied
    ensures b.lawful && b.disk && e != DirRemoved
  {
    match e {
      case DirMade =>
      case DirRemoved => assert false;
      case NetTaken(_) =>
      case NetReleased(_) =>
      case NetDismantled(_) =>
      case LogOpened =>
      case LogClosed =>
      case CgroupMade =>
      case CgroupRemoved =>
      case CgroupKilled =>
      case Started(_) =>
      case Killed =>
      case AgentOpened =>
      case AgentClosed =>
    }
  }

  lemma DiskAt(t: seq<Event>, k: nat)
    requires k <= |t| && Replay(t[..k]).lawful && Replay(t[..k]).disk
    ensures exists d :: 0 <= d < k && t[d] == DiskCopied && forall m :: d < m < k ==> t[m] != DirRemoved
  {
    var d := DiskWasCopied(t[..k]);
    assert forall m :: d <= m < k ==> t[m] == t[..k][m];
  }

  /** Each VM is started on a network that was taken and is still held, and on a disk that
      was copied into a directory that is still there. */
  lemma StartDiscipline(t: seq<Event>, k: nat, c: Net)
    requires Replay(t).lawful && k < |t| && t[k] == Started(c)
    ensures exists j :: 0 <= j < k && t[j] == NetTaken(c) && forall m :: j < m < k ==> !GivesBack(t[m], c)
    ensures exists d :: 0 <= d < k && t[d] == DiskCopied && forall m :: d < m < k ==> t[m] != DirRemoved
  {
    LawfulPrefix(t, k);
    HeldAt(t, k, c);
    DiskAt(t, k);
  }
}
