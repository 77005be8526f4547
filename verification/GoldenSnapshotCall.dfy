/** ensureSnapshot as the routine it is, with its deferred kill and network cleanup:
    every step is one of the machine's. */
module GoldenSnapshotCall {
  import opened Text
  import opened GoldenSnapshot

  /** How the foreign calls of one ensureSnapshot end, and how often its guest writes to
      its disk before the pause. */
  datatype Calls = Calls(
    removal: Removal, copied: bool, wired: bool, leftover: bool, booted: bool,
    writes: nat, agentUp: bool, paused: bool, captured: bool, written: bool, cleaned: bool)

  predicate Delivers(w: Calls) { w.agentUp && w.paused && w.captured && w.written }

  predicate Builds(w: Calls) { w.copied && w.wired && w.booted && Delivers(w) }

  predicate ReachesCapture(w: Calls) { w.copied && w.wired && w.booted && w.agentUp && w.paused }

  /** Whether a golden netns is there after a build: one from before stays, and so does what
      a failed setup or a failed cleanup leaves over. */
  predicate NetnsAfter(before: bool, w: Calls) {
    before || (w.copied && if w.wired then !w.cleaned else w.leftover)
  }

  /** One build under one lineage, all three files of it at one instant. */
  predicate Snapshot(s: State, lineage: string, build: nat, writes: nat) {
    && s.meta == Meta(lineage, build)
    && s.base == s.state == s.mem == Of(build, writes)
    && build in s.finished && s.finished[build] == lineage
  }

  /** A server of the same lineage takes a snapshot as it finds it, and so does one without
      a lineage; one of another lineage never does. */
  lemma SameLineageReuses(s: State, lineage: string, build: nat, writes: nat)
    requires Snapshot(s, lineage, build, writes)
    ensures FilesExist(s) && (ValidMeta(s.meta, s.lineage) <==> s.lineage == lineage || Blank(s.lineage))
  {
    TrimSpaceMeaning(s.lineage);
    TrimSpaceMeaning(lineage);
  }

  /** Without metadata, or with a file missing, there is nothing to take. */
  lemma IncompleteIsNotReused(s: State)
    requires s.meta.NoMeta? || s.base == Absent || s.state == Absent || s.mem == Absent
    ensures !(FilesExist(s) && ValidMeta(s.meta, s.lineage))
  {
  }

  class Builder {
    var s: State

    constructor ()
      ensures s == INIT
    {
      s := INIT;
    }

    ghost predicate Stands(pc: Pc)
      reads this
    {
      s.pc == pc && Inv(s) && !s.maimed
    }

    /** The same lineage and build as at some earlier state. */
    ghost predicate Still(t: State)
      reads this
    {
      s.lineage == t.lineage && s.build == t.build
    }

    method Do(a: Step)
      requires Enabled(s, a) && Inv(s) && !s.maimed && (a.Reset? ==> !Maims(s, a.r))
      modifies this
      ensures s == Next(old(s), a) && Inv(s) && !s.maimed
    {
      InvStep(s, a);
      s := Next(s, a);
    }

    /** The golden guest runs and writes for a while. */
    method GuestRuns(writes: nat)
      requires Stands(Running) && s.vms[s.build] == Vm(0, true, true)
      modifies this
      ensures Stands(Running) && Still(old(s)) && s.vms[s.build] == Vm(writes, true, true)
      ensures s.state == old(s.state) && s.mem == old(s.mem)
    {
      for i := 0 to writes
        invariant Stands(Running) && Still(old(s)) && s.vms[s.build] == Vm(i, true, true)
        invariant s.state == old(s.state) && s.mem == old(s.mem)
      {
        Do(GuestWrites(s.build));
      }
    }

    /** From the answer of the agent to the captured files. */
    method PauseAndCapture(w: Calls) returns (ok: bool)
      requires Stands(Running) && s.vms[s.build] == Vm(w.writes, true, true)
      modifies this
      ensures ok == (w.agentUp && w.paused && w.captured) && Stands(if ok then Captured else Failing) && Still(old(s))
      ensures ok ==> s.state == Of(s.build, w.writes)
      ensures !(w.agentUp && w.paused) ==> s.state == old(s.state) && s.mem == old(s.mem)
    {
      if !w.agentUp {
        Do(AgentFails);
        return false;
      }
      Do(Pause(w.paused));
      if !w.paused { return false; }
      Do(BeginCapture);
      ok := w.captured;
      Do(EndCapture(ok));
    }

    /** From the start of the process to the metadata; on failure the deferred kill is
        still to come. */
    method CaptureGolden(w: Calls) returns (ok: bool)
      requires Stands(Running) && s.vms[s.build] == Vm(0, true, true)
      modifies this
      ensures ok == Delivers(w) && Stands(if ok then Unwiring else Failing) && Still(old(s))
      ensures ok ==> Snapshot(s, s.lineage, s.build, w.writes)
      ensures !(w.agentUp && w.paused) ==> s.state == old(s.state) && s.mem == old(s.mem)
    {
      GuestRuns(w.writes);
      ok := PauseAndCapture(w);
      if !ok { return; }
      Do(Kill);
      ok := w.written;
      Do(WriteMeta(ok));
    }

    /** Disk and network of a build. */
    method Prepare(w: Calls) returns (ok: bool)
      requires Stands(Preparing)
      modifies this
      ensures ok <==> w.copied && w.wired && !old(s.netns)
      ensures Stands(if ok then Booting else Idle) && s.lineage == old(s.lineage) && s.build == old(s.build) + 1
      ensures s.vms == old(s.vms) && s.state == old(s.state) && s.mem == old(s.mem)
      ensures s.netns == (old(s.netns) || (w.copied && (w.wired || w.leftover)))
    {
      Do(BeginCopy);
      Do(EndCopy(w.copied));
      if !w.copied { return false; }
      ok := w.wired && !s.netns;
      Do(Setup(ok, w.leftover));
    }

    /** A build in an empty or incomplete directory. */
    method Build(w: Calls) returns (ok: bool)
      requires Stands(Preparing)
      modifies this
      ensures ok <==> Builds(w) && !old(s.netns)
      ensures Stands(Idle) && s.lineage == old(s.lineage) && s.build == old(s.build) + 1
      ensures ok ==> Snapshot(s, s.lineage, s.build, w.writes)
      ensures s.netns == NetnsAfter(old(s.netns), w) && s.vms.Keys <= old(s.vms.Keys)
      ensures !ReachesCapture(w) || old(s.netns) ==> s.state == old(s.state) && s.mem == old(s.mem)
    {
      ok := Prepare(w);
      if !ok { return; }
      ok := w.booted;
      Do(Boot(ok));
      if ok {
        ok := CaptureGolden(w);
        if !ok { Do(DeferredKill); }
      }
      assert NoVms(s);
      Do(Cleanup(w.cleaned));
    }

    /** ensureSnapshot for given results of its foreign calls.  A complete snapshot whose
        metadata is valid is reused as it is; anything else is built anew, which works
        exactly when the old files go, all calls of the build work and no network is left
        over, and then gives this build under this lineage at one instant.  Success leaves
        nothing that could write to the files, and no call leaves a golden VM of its own
        behind.  A removal cut short so that meta.json outlives a file is a failure. */
    method EnsureSnapshot(w: Calls) returns (ok: bool)
      requires Stands(Checking)
      modifies this
      ensures ok <==>
        || (FilesExist(old(s)) && ValidMeta(old(s.meta), old(s.lineage)))
        || ((FilesExist(old(s)) ==> w.removal.All?) && Builds(w) && !old(s.netns))
      ensures FilesExist(old(s)) && ValidMeta(old(s.meta), old(s.lineage)) ==> s == old(s).(pc := Reused)
      ensures ok && s.pc.Idle? ==> s.build == old(s.build) + 1 && Snapshot(s, old(s.lineage), s.build, w.writes)
      ensures ok ==> s.vms == map[] && exists b, n :: s.base == Of(b, n) && FromBuild(s, b, n)
      ensures !(FilesExist(old(s)) && Maims(old(s), w.removal)) ==> Inv(s) && !s.maimed
      ensures !(FilesExist(old(s)) && ValidMeta(old(s.meta), old(s.lineage))) ==>
        s.netns == if FilesExist(old(s)) && !w.removal.All? then old(s.netns) else NetnsAfter(old(s.netns), w)
      ensures s.pc.Idle? && FilesExist(old(s)) && w.removal.All? && !ReachesCapture(w) ==> s.state == s.mem == Absent
      ensures (s.pc.Idle? || s.pc.Reused?) && s.lineage == old(s.lineage) && s.vms.Keys <= old(s.vms.Keys)
    {
      var reuse := FilesExist(s) && ValidMeta(s.meta, s.lineage);
      Do(Decide);
      if reuse {
        assert FromBuild(s, s.base.build, s.base.writes);
        return true;
      }
      if s.pc.Resetting? {
        if Maims(s, w.removal) {
          s := Next(s, Reset(w.removal));
          return false;
        }
        Do(Reset(w.removal));
        if !w.removal.All? { return false; }
      }
      ok := Build(w);
      if ok { assert FromBuild(s, s.build, w.writes); }
    }
  }
}
