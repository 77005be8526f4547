/** User snapshots as a machine: snapshot and restore calls, guests that write whenever
    they are not paused, files, crashes and restarts of the server. */
module UserSnapshots {

  // ------------------------------------------------------------- state

  datatype Path =
    | Rootfs(sb: nat)
    | StateFile(us: nat) | MemFile(us: nat) | DiskFile(us: nat)
    | TmpFile(us: nat) | MetaFile(us: nat)

  datatype Content =
    | Torn                      // a write that never finished
    | Machine(m: int)           // CPU state or memory of one instant
    | Disk(d: int)              // a file system; a copy that was changed under comes out as any
    | Meta(state: Path, mem: Path, disk: Path)

  type Files = map<Path, Content>

  /** `epoch` counts the writes of the guest. */
  datatype Vm = Vm(machine: int, epoch: nat, paused: bool, alive: bool)

  datatype Pc =
    | Started | Paused | Cleared | Capturing | Captured | Copying | Copied
    | Writing | Written | Committed | Failing | Returned

  /** One createUserSnapshotFromSandbox.  machine0 and disk0 are what the guest held when
      the pause succeeded; seen and from what the copy found. */
  datatype Creator = Creator(
    sb: nat, pc: Pc,
    machine0: int, disk0: Content,
    seen: Content, from: nat,
    pausedOk: bool, resumeSent: bool, resumedOk: bool, committed: bool)

  datatype RPc = Cloning | Cloned | Restored | Gone

  /** One createSandboxFromUserSnapshot, keyed by the new sandbox. */
  datatype Restorer = Restorer(us: nat, meta: Content, seen: Content, pc: RPc)

  datatype State = State(
    lifetime: nat, up: bool,
    nextUs: nat, nextSb: nat,
    creators: map<nat, Creator>,
    restorers: map<nat, Restorer>,
    vms: map<nat, Vm>,
    files: Files,
    reused: set<nat>)           // ids ever started on top of a visible meta.json

  const INIT := State(1, true, 0, 0, map[], map[], map[], map[], {})

  function OwnMeta(us: nat): Content { Meta(StateFile(us), MemFile(us), DiskFile(us)) }

  // ------------------------------------------------------------- steps

  datatype Step =
    | Boot(m: int, d: int)
    | GuestWrite(sb: nat, m: int, d: int)
    | Kill(sb: nat)
    | RemoveDir(sb: nat)
    | Start(sb: nat)
    | DirFails(us: nat)
    | Pause(us: nat, ok: bool)
    | Clear(us: nat, gone: set<Path>)
    | BeginCapture(us: nat)
    | EndCapture(us: nat, ok: bool)
    | BeginCopy(us: nat)
    | EndCopy(us: nat, ok: bool, garbage: int)
    | BeginWrite(us: nat)
    | EndWrite(us: nat, ok: bool)
    | Rename(us: nat, ok: bool)
    | Resume(us: nat, ok: bool)
    | BeginRestore(us: nat)
    | Clone(id: nat, ok: bool, garbage: int)
    | Load(id: nat, ok: bool, garbage: int)
    | Crash
    | Restart

  function BundleFiles(us: nat): set<Path> { {StateFile(us), MemFile(us), DiskFile(us)} }

  predicate At(s: State, us: nat, pc: Pc) {
    s.up && us in s.creators && s.creators[us].pc == pc
  }

  predicate Alive(s: State, sb: nat) { sb in s.vms && s.vms[sb].alive }

  predicate Enabled(s: State, a: Step) {
    match a
    case Boot(_, _) => s.up
    case GuestWrite(sb, _, _) => Alive(s, sb) && !s.vms[sb].paused
    case Kill(sb) => sb in s.vms
    case RemoveDir(sb) => sb in s.vms && !s.vms[sb].alive
    case Start(sb) => s.up && sb in s.vms
    case DirFails(us) => At(s, us, Started)
    case Pause(us, ok) => At(s, us, Started) && (ok ==> Alive(s, s.creators[us].sb))
    case Clear(us, gone) => At(s, us, Paused) && gone <= BundleFiles(us)
    case BeginCapture(us) => At(s, us, Cleared)
    case EndCapture(us, ok) => At(s, us, Capturing) && (ok ==> Alive(s, s.creators[us].sb) && s.vms[s.creators[us].sb].paused)
    case BeginCopy(us) => At(s, us, Captured) && s.creators[us].sb in s.vms && Rootfs(s.creators[us].sb) in s.files
    case EndCopy(us, ok, _) => (At(s, us, Copying) && s.creators[us].sb in s.vms) || (At(s, us, Captured) && !ok)
    case BeginWrite(us) => At(s, us, Copied)
    case EndWrite(us, ok) => At(s, us, Writing)
    case Rename(us, ok) => At(s, us, Written) && TmpFile(us) in s.files
    case Resume(us, ok) => (At(s, us, Committed) || At(s, us, Failing)) && (ok ==> Alive(s, s.creators[us].sb))
    case BeginRestore(us) =>
      && s.up && MetaFile(us) in s.files && s.files[MetaFile(us)].Meta?
      && var m := s.files[MetaFile(us)]; m.state in s.files && m.mem in s.files && m.disk in s.files
    case Clone(id, _, _) => s.up && id in s.restorers && s.restorers[id].pc == Cloning && s.restorers[id].meta.Meta?
    case Load(id, _, _) => s.up && id in s.restorers && s.restorers[id].pc == Cloned && s.restorers[id].meta.Meta?
    case Crash => s.up
    case Restart => !s.up
  }

  /** What a finished copy of a file is: a whole disk, of unknown content unless its
      source was one. */
  function CopyOf(c: Content, garbage: int): Content { if c.Disk? then c else Disk(garbage) }

  function Look(fs: Files, p: Path): Content { if p in fs then fs[p] else Torn }

  function Put(s: State, us: nat, c: Creator): State { s.(creators := s.creators[us := c]) }

  /** Where a failure goes: to the deferred resume once the pause has succeeded. */
  function Moved(s: State, us: nat, ok: bool, pc: Pc): State
    requires us in s.creators
  {
    Put(s, us, s.creators[us].(pc := if ok then pc else Failing))
  }

  function Wrote(s: State, p: Path, c: Content): State { s.(files := s.files[p := c]) }

  function Paint(s: State, sb: nat, v: Vm): State { s.(vms := s.vms[sb := v]) }

  function StartStep(s: State, sb: nat): State {
    var us := s.nextUs + 1;
    Put(s, us, Creator(sb, Started, 0, Torn, Torn, 0, false, false, false, false))
      .(nextUs := us, reused := if MetaFile(us) in s.files then s.reused + {us} else s.reused)
  }

  function PauseStep(s: State, us: nat, ok: bool): State
    requires Enabled(s, Pause(us, ok))
  {
    var c := s.creators[us];
    if !ok then Put(s, us, c.(pc := Returned))
    else
      var v := s.vms[c.sb];
      Paint(Put(s, us, c.(pc := Paused, pausedOk := true, machine0 := v.machine, disk0 := Look(s.files, Rootfs(c.sb)))),
            c.sb, v.(paused := true))
  }

  function CaptureStep(s: State, us: nat, ok: bool): State
    requires Enabled(s, EndCapture(us, ok))
  {
    if !ok then Moved(s, us, false, Captured)
    else
      var now := Machine(s.vms[s.creators[us].sb].machine);
      Moved(s, us, true, Captured).(files := s.files[StateFile(us) := now][MemFile(us) := now])
  }

  function BeginCopyStep(s: State, us: nat): State
    requires Enabled(s, BeginCopy(us))
  {
    var c := s.creators[us];
    Wrote(Put(s, us, c.(pc := Copying, seen := s.files[Rootfs(c.sb)], from := s.vms[c.sb].epoch)), DiskFile(us), Torn)
  }

  function EndCopyStep(s: State, us: nat, ok: bool, garbage: int): State
    requires Enabled(s, EndCopy(us, ok, garbage))
  {
    var c := s.creators[us];
    if !ok then Moved(s, us, false, Copied)
    else Wrote(Moved(s, us, true, Copied), DiskFile(us), if s.vms[c.sb].epoch == c.from then CopyOf(c.seen, garbage) else Disk(garbage))
  }

  function RenameStep(s: State, us: nat, ok: bool): State
    requires Enabled(s, Rename(us, ok))
  {
    if !ok then Moved(s, us, false, Committed)
    else
      Put(s, us, s.creators[us].(pc := Committed, committed := true))
        .(files := s.files[MetaFile(us) := s.files[TmpFile(us)]] - {TmpFile(us)})
  }

  /** resumeVM: the regular one, and after any failure the deferred one. */
  function ResumeStep(s: State, us: nat, ok: bool): State
    requires Enabled(s, Resume(us, ok))
  {
    var c := s.creators[us];
    var after := c.(pc := if !ok && c.pc == Committed then Failing else Returned, resumeSent := true, resumedOk := ok);
    var t := Put(s, us, after);
    if ok then Paint(t, c.sb, s.vms[c.sb].(paused := false)) else t
  }

  function RestoreStep(s: State, us: nat): State
    requires Enabled(s, BeginRestore(us))
  {
    var id := s.nextSb + 1;
    var m := s.files[MetaFile(us)];
    Wrote(s.(nextSb := id, restorers := s.restorers[id := Restorer(us, m, s.files[m.disk], Cloning)]), Rootfs(id), Torn)
  }

  function CloneStep(s: State, id: nat, ok: bool, garbage: int): State
    requires Enabled(s, Clone(id, ok, garbage))
  {
    var r := s.restorers[id];
    if !ok then s.(restorers := s.restorers[id := r.(pc := Gone)], files := s.files - {Rootfs(id)})
    else
      var same := r.meta.disk in s.files && s.files[r.meta.disk] == r.seen;
      Wrote(s.(restorers := s.restorers[id := r.(pc := Cloned)]), Rootfs(id), if same then CopyOf(r.seen, garbage) else Disk(garbage))
  }

  /** Firecracker loads state and memory, and the guest runs on its own disk copy. */
  function LoadStep(s: State, id: nat, ok: bool, garbage: int): State
    requires Enabled(s, Load(id, ok, garbage))
  {
    var r := s.restorers[id];
    if !ok then s.(restorers := s.restorers[id := r.(pc := Gone)], files := s.files - {Rootfs(id)})
    else
      var whole := r.meta.state in s.files && r.meta.mem in s.files
                   && s.files[r.meta.state].Machine? && s.files[r.meta.state] == s.files[r.meta.mem];
      Paint(s.(restorers := s.restorers[id := r.(pc := Restored)]), id,
            Vm(if whole then s.files[r.meta.state].m else garbage, 0, false, true))
  }

  function BootStep(s: State, m: int, d: int): State {
    var id := s.nextSb + 1;
    Wrote(Paint(s.(nextSb := id), id, Vm(m, 0, false, true)), Rootfs(id), Disk(d))
  }

  function GuestStep(s: State, sb: nat, m: int, d: int): State
    requires sb in s.vms
  {
    Wrote(Paint(s, sb, Vm(m, s.vms[sb].epoch + 1, s.vms[sb].paused, s.vms[sb].alive)), Rootfs(sb), Disk(d))
  }

  function Next(s: State, a: Step): State
    requires Enabled(s, a)
  {
    match a
    case Boot(m, d) => BootStep(s, m, d)
    case GuestWrite(sb, m, d) => GuestStep(s, sb, m, d)
    case Kill(sb) => Paint(s, sb, s.vms[sb].(alive := false))
    case RemoveDir(sb) => s.(files := s.files - {Rootfs(sb)})
    case Start(sb) => StartStep(s, sb)
    case DirFails(us) => Put(s, us, s.creators[us].(pc := Returned))
    case Pause(us, ok) => PauseStep(s, us, ok)
    case Clear(us, gone) => Moved(s, us, true, Cleared).(files := s.files - gone)
    case BeginCapture(us) => Moved(s, us, true, Capturing).(files := s.files[StateFile(us) := Torn][MemFile(us) := Torn])
    case EndCapture(us, ok) => CaptureStep(s, us, ok)
    case BeginCopy(us) => BeginCopyStep(s, us)
    case EndCopy(us, ok, garbage) => EndCopyStep(s, us, ok, garbage)
    case BeginWrite(us) => Wrote(Moved(s, us, true, Writing), TmpFile(us), Torn)
    case EndWrite(us, ok) => if ok then Wrote(Moved(s, us, true, Written), TmpFile(us), OwnMeta(us)) else Moved(s, us, false, Written)
    case Rename(us, ok) => RenameStep(s, us, ok)
    case Resume(us, ok) => ResumeStep(s, us, ok)
    case BeginRestore(us) => RestoreStep(s, us)
    case Clone(id, ok, garbage) => CloneStep(s, id, ok, garbage)
    case Load(id, ok, garbage) => LoadStep(s, id, ok, garbage)
    case Crash => s.(up := false)
    case Restart => State(s.lifetime + 1, true, 0, 0, map[], map[], map[], s.files, s.reused)
  }

  // ------------------------------------------------------------- runs

  ghost predicate Goes(s: State, a: Step, t: State) {
    Enabled(s, a) && t == Next(s, a)
  }

  /** A run, as the states it goes through. */
  ghost predicate Run(states: seq<State>, steps: seq<Step>) {
    && |states| == |steps| + 1
    && forall i {:trigger steps[i]} :: 0 <= i < |steps| ==> Goes(states[i], steps[i], states[i + 1])
  }

  /** A run of the server from an empty store. */
  ghost predicate Behaviour(states: seq<State>, steps: seq<Step>) {
    Run(states, steps) && states[0] == INIT
  }
}
