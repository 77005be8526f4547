/** ensureSnapshot as a machine: builds of the golden snapshot with crashes, reboots and
    changes of the base image, and golden VMs that outlive a crash. */
module GoldenSnapshot {
  import opened Text

  // ------------------------------------------------------------- state

  /** A file of the snapshot directory: what build it is of, and after how many writes of
      that build's VM it was taken. */
  datatype File = Absent | Torn | Of(build: nat, writes: nat)

  datatype Meta = NoMeta | Meta(lineage: string, build: nat)

  /** A golden VM; attached while the disk it has open is the one at the base path. */
  datatype Vm = Vm(writes: nat, running: bool, attached: bool)

  datatype Pc =
    | Down                       // no server process
    | Idle                       // ensureSnapshot not running, last call failed or built
    | Checking | Resetting | Preparing | Copying | Wiring
    | Booting | Running | Halted | Capturing | Captured | Dead
    | Failing | Unwiring
    | Reused                     // returned by the reuse path

  datatype State = State(
    pc: Pc, lineage: string,     // of the running server's base image
    build: nat,                  // the current build
    base: File, state: File, mem: File, meta: Meta,
    vms: map<nat, Vm>, netns: bool,
    finished: map<nat, string>,  // completed builds and their lineage
    maimed: bool)                // some removal left meta.json without one of the files

  const INIT := State(Down, "", 0, Absent, Absent, Absent, NoMeta, map[], false, map[], false)

  datatype Removal = All | Nothing | Part(base: bool, state: bool, mem: bool, meta: bool)

  datatype Step =
    | Launch(lineage: string)
    | Call
    | Decide
    | Reset(r: Removal)
    | BeginCopy
    | EndCopy(ok: bool)
    | Setup(ok: bool, leftover: bool)
    | Boot(ok: bool)
    | AgentFails
    | Pause(ok: bool)
    | BeginCapture
    | EndCapture(ok: bool)
    | Kill
    | WriteMeta(ok: bool)
    | DeferredKill
    | Cleanup(ok: bool)
    | GuestWrites(vm: nat)
    | Crash                      // the server process ends, for whatever reason
    | Reboot

  // ------------------------------------------------------------- steps

  /** validateSnapshotMeta. */
  predicate ValidMeta(m: Meta, lineage: string) {
    m.Meta? && (TrimSpace(lineage) == "" || (TrimSpace(m.lineage) != "" && m.lineage == lineage))
  }

  predicate FilesExist(s: State) { s.state != Absent && s.mem != Absent && s.base != Absent }

  predicate Enabled(s: State, a: Step) {
    match a
    case Launch(_) => s.pc.Down?
    case Call => (s.pc.Idle? || s.pc.Reused?)
    case Decide => s.pc.Checking?
    case Reset(_) => s.pc.Resetting?
    case BeginCopy => s.pc.Preparing?
    case EndCopy(_) => s.pc.Copying?
    case Setup(ok, _) => s.pc.Wiring? && (ok ==> !s.netns)
    case Boot(_) => s.pc.Booting?
    case AgentFails => s.pc.Running?
    case Pause(ok) => s.pc.Running? && (ok ==> s.build in s.vms)
    case BeginCapture => s.pc.Halted?
    case EndCapture(ok) => s.pc.Capturing? && (ok ==> s.build in s.vms && !s.vms[s.build].running)
    case Kill => s.pc.Captured?
    case WriteMeta(_) => s.pc.Dead?
    case DeferredKill => s.pc.Failing?
    case Cleanup(_) => s.pc.Unwiring?
    case GuestWrites(v) => v in s.vms && s.vms[v].running
    case Crash => !s.pc.Down?
    case Reboot => s.pc.Down?
  }

  /** A removal that was cut short so that meta.json stays and one of the files does not. */
  predicate Maims(s: State, r: Removal) {
    && r.Part? && s.meta.Meta? && !r.meta
    && ((r.base && s.base != Absent) || (r.state && s.state != Absent) || (r.mem && s.mem != Absent))
  }

  function DecideStep(s: State): State {
    if !FilesExist(s) then s.(pc := Preparing)
    else if ValidMeta(s.meta, s.lineage) then s.(pc := Reused)
    else s.(pc := Resetting)
  }

  function Detached(vms: map<nat, Vm>): map<nat, Vm> {
    map v | v in vms :: vms[v].(attached := false)
  }

  /** resetSnapshotDir: RemoveAll, then the directory anew. */
  function ResetStep(s: State, r: Removal): State {
    match r
    case All => s.(pc := Preparing, base := Absent, state := Absent, mem := Absent, meta := NoMeta, vms := Detached(s.vms))
    case Nothing => s.(pc := Idle)
    case Part(b, st, m, mt) =>
      s.(pc := Idle, maimed := s.maimed || Maims(s, r),
         base := if b then Absent else s.base,
         state := if st then Absent else s.state,
         mem := if m then Absent else s.mem,
         meta := if mt then NoMeta else s.meta,
         vms := if b then Detached(s.vms) else s.vms)
  }

  /** A write of a golden VM reaches whatever file it has open. */
  function GuestStep(s: State, v: nat): State
    requires v in s.vms
  {
    var vm := s.vms[v];
    s.(vms := s.vms[v := vm.(writes := vm.writes + 1)],
       base := if !vm.attached then s.base
               else if s.base == Of(v, vm.writes) then Of(v, vm.writes + 1)
               else Torn)
  }

  function Next(s: State, a: Step): State
    requires Enabled(s, a)
  {
    match a
    case Launch(lineage) => s.(pc := Checking, lineage := lineage)
    case Call => s.(pc := Checking)
    case Decide => DecideStep(s)
    case Reset(r) => ResetStep(s, r)
    case BeginCopy => s.(pc := Copying, build := s.build + 1, base := Torn)
    case EndCopy(ok) => if ok then s.(pc := Wiring, base := Of(s.build, 0)) else s.(pc := Idle)
    case Setup(ok, leftover) => if ok then s.(pc := Booting, netns := true) else s.(pc := Idle, netns := s.netns || leftover)
    case Boot(ok) => if ok then s.(pc := Running, vms := s.vms[s.build := Vm(0, true, true)]) else s.(pc := Unwiring)
    case AgentFails => s.(pc := Failing)
    case Pause(ok) =>
      if ok then s.(pc := Halted, vms := s.vms[s.build := s.vms[s.build].(running := false)]) else s.(pc := Failing)
    case BeginCapture => s.(pc := Capturing, state := Torn, mem := Torn)
    case EndCapture(ok) =>
      if ok then
        var now := Of(s.build, s.vms[s.build].writes);
        s.(pc := Captured, state := now, mem := now)
      else s.(pc := Failing)
    case Kill => s.(pc := Dead, vms := s.vms - {s.build})
    case WriteMeta(ok) =>
      if ok then s.(pc := Unwiring, meta := Meta(s.lineage, s.build), finished := s.finished[s.build := s.lineage])
      else s.(pc := Failing)
    case DeferredKill => s.(pc := Unwiring, vms := s.vms - {s.build})
    case Cleanup(ok) => s.(pc := Idle, netns := !ok)
    case GuestWrites(v) => GuestStep(s, v)
    case Crash => s.(pc := Down)
    case Reboot => s.(vms := map[], netns := false)
  }

  // ------------------------------------------------------------- runs

  ghost predicate Run(s: State, steps: seq<Step>, t: State)
    decreases |steps|
  {
    if steps == [] then s == t
    else Enabled(s, steps[0]) && Run(Next(s, steps[0]), steps[1..], t)
  }

  ghost predicate Reachable(s: State) {
    exists steps :: Run(INIT, steps, s)
  }

  // ------------------------------------------------------------- invariant

  /** Before the current build has a VM of its own. */
  predicate Early(pc: Pc) { pc.Preparing? || pc.Copying? || pc.Wiring? }

  /** From the network setup to the end of the build. */
  predicate Wired(pc: Pc) { (pc.Booting? || pc.Running? || pc.Halted? || pc.Capturing? || pc.Captured? || pc.Dead? || pc.Failing? || pc.Unwiring?) }

  predicate HasVm(pc: Pc) { (pc.Running? || pc.Halted? || pc.Capturing? || pc.Captured?) }

  predicate NoVms(s: State) { s.vms.Keys == {} }

  /** A committed snapshot: all three files of one completed build, and nobody left who
      could write to them. */
  predicate Sound(s: State) {
    && s.meta.Meta?
    && s.meta.build in s.finished && s.finished[s.meta.build] == s.meta.lineage
    && s.base.Of? && s.base.build == s.meta.build
    && s.state == s.base && s.mem == s.base
    && NoVms(s)
  }

  predicate MetaInv(s: State) {
    && (s.meta.Meta? ==> Sound(s))
    && (Early(s.pc) ==> s.meta.NoMeta?)
    && ((s.pc.Booting? || s.pc.Running? || s.pc.Halted? || s.pc.Capturing? || s.pc.Captured? || s.pc.Dead? || s.pc.Failing?) ==> s.meta.NoMeta?)
    && (s.pc.Reused? ==> FilesExist(s) && ValidMeta(s.meta, s.lineage))
  }

  /** A living golden VM keeps its namespace in place; a build past the setup has no
      other VM beside its own. */
  predicate VmInv(s: State) {
    && (!NoVms(s) ==> s.netns)
    && (Wired(s.pc) ==> s.netns && s.vms.Keys <= {s.build})
    && ((s.pc.Booting? || s.pc.Dead? || s.pc.Unwiring?) ==> NoVms(s))
    && (HasVm(s.pc) ==> s.build in s.vms)
  }

  /** The base disk follows the VM of the current build; a capture is of that instant. */
  predicate DiskInv(s: State) {
    && (s.pc.Wiring? && NoVms(s) ==> s.base == Of(s.build, 0))
    && (s.pc.Booting? ==> s.base == Of(s.build, 0))
    && (HasVm(s.pc) && s.build in s.vms ==>
          s.vms[s.build].attached && s.base == Of(s.build, s.vms[s.build].writes)
          && (!s.pc.Running? ==> !s.vms[s.build].running))
    && ((s.pc.Captured? || s.pc.Dead?) ==>
          s.base.Of? && s.base.build == s.build && s.state == s.base && s.mem == s.base)
  }

  predicate Inv(s: State) { MetaInv(s) && VmInv(s) && DiskInv(s) }

  // The steps of a call, in groups.

  predicate Checks(a: Step) { a.Launch? || a.Call? || a.Decide? }

  predicate Prepares(a: Step) { a.BeginCopy? || a.EndCopy? || a.Setup? || a.Boot? }

  predicate Captures(a: Step) { a.AgentFails? || a.Pause? || a.BeginCapture? || a.EndCapture? || a.Kill? }

  predicate Finishes(a: Step) { a.WriteMeta? || a.DeferredKill? || a.Cleanup? || a.GuestWrites? || a.Crash? || a.Reboot? }

  lemma MetaInvStep(s: State, a: Step)
    requires Enabled(s, a) && Inv(s)
    requires a.Reset? ==> !Maims(s, a.r)
    ensures MetaInv(Next(s, a))
  {
    if Checks(a) { MetaInvCheck(s, a); }
    else if a.Reset? { MetaInvReset(s, a); }
    else if Prepares(a) { MetaInvPrepare(s, a); }
    else if Captures(a) { MetaInvCapture(s, a); }
    else { MetaInvFinish(s, a); }
  }

  lemma MetaInvCheck(s: State, a: Step)
    requires Enabled(s, a) && Inv(s) && Checks(a)
    ensures MetaInv(Next(s, a))
  {
    match a {
      case Launch(_) =>
      case Call =>
      case Decide =>
    }
  }

  lemma MetaInvReset(s: State, a: Step)
    requires Enabled(s, a) && Inv(s) && a.Reset? && !Maims(s, a.r)
    ensures MetaInv(Next(s, a))
  {
    match a.r {
      case All =>
      case Nothing =>
      case Part(_, _, _, _) =>
    }
  }

  lemma MetaInvPrepare(s: State, a: Step)
    requires Enabled(s, a) && Inv(s) && Prepares(a)
    ensures MetaInv(Next(s, a))
  {
    match a {
      case BeginCopy =>
      case EndCopy(_) =>
      case Setup(_, _) =>
      case Boot(_) =>
    }
  }

  lemma MetaInvCapture(s: State, a: Step)
    requires Enabled(s, a) && Inv(s) && Captures(a)
    ensures MetaInv(Next(s, a))
  {
    match a {
      case AgentFails =>
      case Pause(_) =>
      case BeginCapture =>
      case EndCapture(_) =>
      case Kill =>
    }
  }

  lemma MetaInvFinish(s: State, a: Step)
    requires Enabled(s, a) && Inv(s) && Finishes(a)
    ensures MetaInv(Next(s, a))
  {
    match a {
      case WriteMeta(_) =>
      case DeferredKill =>
      case Cleanup(_) =>
      case GuestWrites(_) =>
      case Crash =>
      case Reboot =>
    }
  }

  lemma VmInvStep(s: State, a: Step)
    requires Enabled(s, a) && VmInv(s)
    requires a.Reset? ==> !Maims(s, a.r)
    ensures VmInv(Next(s, a))
  {
    if Checks(a) { VmInvCheck(s, a); }
    else if a.Reset? { VmInvReset(s, a); }
    else if Prepares(a) { VmInvPrepare(s, a); }
    else if Captures(a) { VmInvCapture(s, a); }
    else { VmInvFinish(s, a); }
  }

  lemma VmInvCheck(s: State, a: Step)
    requires Enabled(s, a) && VmInv(s) && Checks(a)
    ensures VmInv(Next(s, a))
  {
    match a {
      case Launch(_) =>
      case Call =>
      case Decide =>
    }
  }

  lemma VmInvReset(s: State, a: Step)
    requires Enabled(s, a) && VmInv(s) && a.Reset? && !Maims(s, a.r)
    ensures VmInv(Next(s, a))
  {
    match a.r {
      case All =>
      case Nothing =>
      case Part(_, _, _, _) =>
    }
  }

  lemma VmInvPrepare(s: State, a: Step)
    requires Enabled(s, a) && VmInv(s) && Prepares(a)
    ensures VmInv(Next(s, a))
  {
    match a {
      case BeginCopy =>
      case EndCopy(_) =>
      case Setup(_, _) =>
      case Boot(_) =>
    }
  }

  lemma VmInvCapture(s: State, a: Step)
    requires Enabled(s, a) && VmInv(s) && Captures(a)
    ensures VmInv(Next(s, a))
  {
    match a {
      case AgentFails =>
      case Pause(_) =>
      case BeginCapture =>
      case EndCapture(_) =>
      case Kill =>
    }
  }

  lemma VmInvFinish(s: State, a: Step)
    requires Enabled(s, a) && VmInv(s) && Finishes(a)
    ensures VmInv(Next(s, a))
  {
    match a {
      case WriteMeta(_) =>
      case DeferredKill =>
      case Cleanup(_) =>
      case GuestWrites(_) =>
      case Crash =>
      case Reboot =>
    }
  }

  lemma DiskInvStep(s: State, a: Step)
    requires Enabled(s, a) && VmInv(s) && DiskInv(s)
    requires a.Reset? ==> !Maims(s, a.r)
    ensures DiskInv(Next(s, a))
  {
    if Checks(a) { DiskInvCheck(s, a); }
    else if a.Reset? { DiskInvReset(s, a); }
    else if Prepares(a) { DiskInvPrepare(s, a); }
    else if Captures(a) { DiskInvCapture(s, a); }
    else { DiskInvFinish(s, a); }
  }

  lemma DiskInvCheck(s: State, a: Step)
    requires Enabled(s, a) && VmInv(s) && DiskInv(s) && Checks(a)
    ensures DiskInv(Next(s, a))
  {
    match a {
      case Launch(_) =>
      case Call =>
      case Decide =>
    }
  }

  lemma DiskInvReset(s: State, a: Step)
    requires Enabled(s, a) && VmInv(s) && DiskInv(s) && a.Reset? && !Maims(s, a.r)
    ensures DiskInv(Next(s, a))
  {
    match a.r {
      case All =>
      case Nothing =>
      case Part(_, _, _, _) =>
    }
  }

  lemma DiskInvPrepare(s: State, a: Step)
    requires Enabled(s, a) && VmInv(s) && DiskInv(s) && Prepares(a)
    ensures DiskInv(Next(s, a))
  {
    match a {
      case BeginCopy =>
      case EndCopy(_) =>
      case Setup(_, _) =>
      case Boot(_) =>
    }
  }

  lemma DiskInvCapture(s: State, a: Step)
    requires Enabled(s, a) && VmInv(s) && DiskInv(s) && Captures(a)
    ensures DiskInv(Next(s, a))
  {
    match a {
      case AgentFails =>
      case Pause(_) =>
      case BeginCapture =>
      case EndCapture(_) =>
      case Kill =>
    }
  }

  lemma DiskInvFinish(s: State, a: Step)
    requires Enabled(s, a) && VmInv(s) && DiskInv(s) && Finishes(a)
    ensures DiskInv(Next(s, a))
  {
    match a {
      case WriteMeta(_) =>
      case DeferredKill =>
      case Cleanup(_) =>
      case GuestWrites(_) =>
      case Crash =>
      case Reboot =>
    }
  }

  lemma MaimedStays(s: State, a: Step)
    requires Enabled(s, a)
    ensures Next(s, a).maimed <==> s.maimed || (a.Reset? && Maims(s, a.r))
  {
  }

  lemma InvStep(s: State, a: Step)
    requires Enabled(s, a) && !s.maimed && Inv(s) && !(a.Reset? && Maims(s, a.r))
    ensures !Next(s, a).maimed && Inv(Next(s, a))
  {
    MaimedStays(s, a);
    MetaInvStep(s, a);
    VmInvStep(s, a);
    DiskInvStep(s, a);
  }

  lemma {:induction false} RunInv(s: State, steps: seq<Step>, t: State)
    requires !s.maimed ==> Inv(s)
    requires Run(s, steps, t)
    ensures !t.maimed ==> Inv(t)
    decreases |steps|
  {
    if steps != [] {
      var a := steps[0];
      MaimedStays(s, a);
      if !s.maimed && !(a.Reset? && Maims(s, a.r)) { InvStep(s, a); }
      RunInv(Next(s, a), steps[1..], t);
    }
  }

  lemma ReachableInv(s: State)
    requires Reachable(s) && !s.maimed
    ensures Inv(s)
  {
    var steps :| Run(INIT, steps, s);
    RunInv(INIT, steps, s);
  }

  // ------------------------------------------------------------- theorems

  predicate FromBuild(s: State, b: nat, w: nat) {
    && s.base == Of(b, w) && s.state == Of(b, w) && s.mem == Of(b, w)
    && b in s.finished
    && (TrimSpace(s.lineage) != "" ==> s.finished[b] == s.lineage)
  }

  /** Whatever crashes, failures, reboots and lineage changes came before: when the reuse
      path returns, base disk, state and memory are those of one completed build at one
      instant, no VM can still write to them, and with a lineage configured the build is
      of that lineage. */
  lemma ReuseIsSound(s: State)
    requires Reachable(s) && !s.maimed && s.pc.Reused?
    ensures exists b, w :: s.base == Of(b, w) && FromBuild(s, b, w)
    ensures s.vms == map[]
  {
    ReachableInv(s);
    assert FromBuild(s, s.base.build, s.base.writes);
  }

  /** The same for whatever a visible meta.json stands next to, in any state. */
  lemma MetaIsSound(s: State)
    requires Reachable(s) && !s.maimed
    ensures s.meta.Meta? ==> Sound(s)
  {
    ReachableInv(s);
  }

  /** A golden VM that outlived its server blocks every build until a reboot. */
  lemma OrphanBlocksBuild(s: State, leftover: bool)
    requires Reachable(s) && !s.maimed && s.pc.Wiring? && s.vms != map[]
    ensures !Enabled(s, Setup(true, leftover))
  {
    ReachableInv(s);
  }

  // ------------------------------------------------- the condition on removals

  /** A continuation without a further removal of that kind. */
  ghost predicate PlainRun(s: State, steps: seq<Step>, t: State)
    decreases |steps|
  {
    if steps == [] then s == t
    else
      var a := steps[0];
      Enabled(s, a) && !(a.Reset? && Maims(s, a.r)) && PlainRun(Next(s, a), steps[1..], t)
  }

  lemma {:induction false} PlainKeeps(s: State, steps: seq<Step>, t: State)
    requires !s.maimed && Inv(s) && PlainRun(s, steps, t)
    ensures !t.maimed && Inv(t)
    decreases |steps|
  {
    if steps != [] {
      InvStep(s, steps[0]);
      PlainKeeps(Next(s, steps[0]), steps[1..], t);
    }
  }

  predicate BadReuse(t: State) { t.pc.Reused? && !Sound(t) }

  ghost predicate CanGoBad(s: State) {
    exists steps, t :: PlainRun(s, steps, t) && BadReuse(t)
  }

  lemma BadBy(s: State, a: Step)
    requires Enabled(s, a) && !a.Reset? && CanGoBad(Next(s, a))
    ensures CanGoBad(s)
  {
    var rest, t :| PlainRun(Next(s, a), rest, t) && BadReuse(t);
    assert ([a] + rest)[1..] == rest;
    assert PlainRun(s, [a] + rest, t);
  }

  /** The server stopped or about to, and meta.json beside a missing file. */
  predicate Stranded(s: State) {
    s.meta.Meta? && !FilesExist(s) && NoVms(s)
  }

  /** A build that ends once its capture has begun leaves all three files in place. */
  lemma HalfBuildGoesBad(s: State)
    requires s.pc.Halted? && s.meta.Meta? && s.base != Absent
    ensures CanGoBad(s)
  {
    var b := Next(s, BeginCapture);
    var c := Next(b, Crash);
    var l := Next(c, Launch(s.meta.lineage));
    var t := Next(l, Decide);
    assert PlainRun(t, [], t) && BadReuse(t);
    BadBy(l, Decide);
    BadBy(c, Launch(s.meta.lineage));
    BadBy(b, Crash);
    BadBy(s, BeginCapture);
  }

  lemma CopiedGoesBad(s: State)
    requires s.pc.Wiring? && s.meta.Meta? && s.base != Absent && !s.netns
    ensures CanGoBad(s)
  {
    var w := Next(s, Setup(true, false));
    var b := Next(w, Boot(true));
    var h := Next(b, Pause(true));
    HalfBuildGoesBad(h);
    BadBy(b, Pause(true));
    BadBy(w, Boot(true));
    BadBy(s, Setup(true, false));
  }

  lemma StrandedGoesBad(s: State)
    requires s.pc.Idle? && Stranded(s)
    ensures CanGoBad(s)
  {
    var d := Next(s, Crash);
    var r := Next(d, Reboot);
    var l := Next(r, Launch("x"));
    var p := Next(l, Decide);
    var c := Next(p, BeginCopy);
    CopiedGoesBad(Next(c, EndCopy(true)));
    BadBy(c, EndCopy(true));
    BadBy(p, BeginCopy);
    BadBy(l, Decide);
    BadBy(r, Launch("x"));
    BadBy(d, Reboot);
    BadBy(s, Crash);
  }

  /** The exact guard of reuse: a step makes an unsound reuse possible, without further
      help of its kind, if and only if it is a removal that leaves a visible meta.json and
      takes base, state or memory. */
  lemma RemovalIsTheGuard(s: State, a: Step)
    requires Reachable(s) && !s.maimed && Enabled(s, a)
    ensures CanGoBad(Next(s, a)) <==> a.Reset? && Maims(s, a.r)
  {
    ReachableInv(s);
    if a.Reset? && Maims(s, a.r) {
      StrandedGoesBad(Next(s, a));
    } else {
      InvStep(s, a);
      forall steps, t | PlainRun(Next(s, a), steps, t) ensures !BadReuse(t) {
        PlainKeeps(Next(s, a), steps, t);
      }
    }
  }

  // Such a removal happens.

  lemma Reach(s: State, a: Step) returns (t: State)
    requires Reachable(s) && Enabled(s, a)
    ensures t == Next(s, a) && Reachable(t)
  {
    t := Next(s, a);
    var steps :| Run(INIT, steps, s);
    RunThen(INIT, steps, s, a);
    assert Run(INIT, steps + [a], t);
  }

  lemma {:induction false} RunThen(r: State, steps: seq<Step>, s: State, a: Step)
    requires Run(r, steps, s) && Enabled(s, a)
    ensures Run(r, steps + [a], Next(s, a))
    decreases |steps|
  {
    if steps == [] {
      assert [a][1..] == [];
      assert [] + [a] == [a];
    } else {
      RunThen(Next(r, steps[0]), steps[1..], s, a);
      assert (steps + [a])[0] == steps[0] && (steps + [a])[1..] == steps[1..] + [a];
    }
  }

  /** Build 1, of lineage "x", ready to capture. */
  lemma BuildHalted() returns (s: State)
    ensures Reachable(s)
    ensures s == INIT.(pc := Halted, lineage := "x", build := 1, base := Of(1, 0), vms := map[1 := Vm(0, false, true)], netns := true)
  {
    s := INIT;
    assert Run(INIT, [], INIT);
    s := Reach(s, Launch("x"));
    s := Reach(s, Decide);
    s := Reach(s, BeginCopy);
    s := Reach(s, EndCopy(true));
    assert s == INIT.(pc := Wiring, lineage := "x", build := 1, base := Of(1, 0));
    s := Reach(s, Setup(true, false));
    s := Reach(s, Boot(true));
    s := Reach(s, Pause(true));
  }

  lemma BuildDone() returns (s: State)
    ensures Reachable(s)
    ensures s == State(Idle, "x", 1, Of(1, 0), Of(1, 0), Of(1, 0), Meta("x", 1), map[], false, map[1 := "x"], false)
  {
    s := BuildHalted();
    s := Reach(s, BeginCapture);
    s := Reach(s, EndCapture(true));
    s := Reach(s, Kill);
    s := Reach(s, WriteMeta(true));
    s := Reach(s, Cleanup(true));
  }

  /** The base image has changed. */
  lemma Mismatched() returns (s: State)
    ensures Reachable(s)
    ensures s == State(Resetting, "y", 1, Of(1, 0), Of(1, 0), Of(1, 0), Meta("x", 1), map[], false, map[1 := "x"], false)
  {
    s := BuildDone();
    s := Reach(s, Crash);
    s := Reach(s, Launch("y"));
    s := Reach(s, Decide);
  }

  /** A removal that stops after the base disk, and a return to the old lineage. */
  lemma BaseRemoved() returns (s: State)
    ensures Reachable(s)
    ensures s == State(Preparing, "x", 1, Absent, Of(1, 0), Of(1, 0), Meta("x", 1), map[], false, map[1 := "x"], true)
  {
    s := Mismatched();
    s := Reach(s, Reset(Part(true, false, false, false)));
    assert s.vms == map[];
    s := Reach(s, Crash);
    s := Reach(s, Launch("x"));
    s := Reach(s, Decide);
  }

  lemma CopiedAgain() returns (s: State)
    ensures Reachable(s)
    ensures s == State(Wiring, "x", 2, Of(2, 0), Of(1, 0), Of(1, 0), Meta("x", 1), map[], false, map[1 := "x"], true)
  {
    s := BaseRemoved();
    s := Reach(s, BeginCopy);
    s := Reach(s, EndCopy(true));
  }

  /** With a removal cut short the reuse path can return the memory of one build over the
      base disk of another. */
  lemma TornResetBreaksReuse() returns (s: State)
    ensures Reachable(s) && s.pc.Reused? && s.lineage == "x"
    ensures s.base == Of(2, 0) && s.state == Of(1, 0)
  {
    s := CopiedAgain();
    s := Reach(s, Setup(false, false));
    s := Reach(s, Crash);
    s := Reach(s, Launch("x"));
    TrimmedIsFixed("x");
    s := Reach(s, Decide);
  }
}
