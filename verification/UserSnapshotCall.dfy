/** createUserSnapshotFromSandbox as the routine it is, nobody interfering: every step it
    takes is one of the machine's, and its result means what the client is told. */
module UserSnapshotCall {
  import opened UserSnapshots
  import opened UserSnapshotCommit

  /** How the foreign calls of one snapshot end, which old files could be removed, and what
      a copy of a file that is no disk comes out as. */
  datatype Calls = Calls(
    made: bool, paused: bool, gone: set<Path>, captured: bool, copied: bool, garbage: int,
    written: bool, renamed: bool, resumed: bool, resumedLater: bool)

  predicate Saves(w: Calls) { w.captured && w.copied && w.written && w.renamed }

  predicate Has(fs: Files, p: Path, c: Content) { p in fs && fs[p] == c }

  /** The bundle of a guest in this state on this disk, metadata and all. */
  predicate Bundle(fs: Files, us: nat, machine: int, disk: Content) {
    && Has(fs, StateFile(us), Machine(machine)) && Has(fs, MemFile(us), Machine(machine))
    && Has(fs, DiskFile(us), disk)
    && Has(fs, MetaFile(us), Meta(StateFile(us), MemFile(us), DiskFile(us)))
  }

  predicate OwnFile(p: Path, us: nat) {
    p in {StateFile(us), MemFile(us), DiskFile(us), TmpFile(us), MetaFile(us)}
  }

  /** Only files of this bundle have changed. */
  ghost predicate Untouched(fs: Files, fs': Files, us: nat) {
    && (forall p :: p in fs && !OwnFile(p, us) ==> p in fs' && fs'[p] == fs[p])
    && (forall p :: p in fs' && !OwnFile(p, us) ==> p in fs)
  }

  class Server {
    var s: State

    constructor ()
      ensures s == INIT
    {
      s := INIT;
    }

    /** One step of call `us`.  What it has on disk stays in order, if it was (`clean`). */
    method Do(a: Step, us: nat, ghost clean: bool)
      requires Enabled(s, a) && Concerns(a, us) && us in s.creators
      requires (clean ==> OnDisk(us, s.creators[us], s.files)) && CallInv(s.creators[us])
      modifies this
      ensures s == Next(old(s), a) && us in s.creators
      ensures (clean ==> OnDisk(us, s.creators[us], s.files)) && CallInv(s.creators[us])
    {
      if clean { OwnStep(s, a, us); }
      OwnCall(s, a, us);
      s := Next(s, a);
    }

    /** A call at some point of its way. */
    ghost predicate Stands(us: nat, sb: nat, pc: Pc, clean: bool)
      reads this
    {
      && At(s, us, pc) && s.creators[us].sb == sb && sb in s.vms
      && (clean ==> OnDisk(us, s.creators[us], s.files)) && CallInv(s.creators[us])
    }

    ghost predicate GuestPaused(sb: nat, paused: bool)
      reads this
    {
      Alive(s, sb) && s.vms[sb].paused == paused && Rootfs(sb) in s.files
    }

    method PauseVm(us: nat, sb: nat, w: Calls, ghost clean: bool) returns (ok: bool)
      requires Stands(us, sb, Started, clean) && (Alive(s, sb) ==> GuestPaused(sb, false))
      modifies this
      ensures ok <==> w.made && w.paused && old(Alive(s, sb))
      ensures ok ==> Stands(us, sb, Paused, clean) && GuestPaused(sb, true)
      ensures ok ==> s.vms == old(s.vms)[sb := old(s.vms[sb]).(paused := true)]
      ensures !ok ==> Stands(us, sb, Returned, clean) && !s.creators[us].pausedOk && s.vms == old(s.vms)
      ensures s.files == old(s.files)
    {
      if !w.made {
        Do(DirFails(us), us, clean);
        return false;
      }
      ok := w.paused && s.vms[sb].alive;
      Do(Pause(us, ok), us, clean);
    }

    /** The old files go, as far as they can. */
    method RemoveOld(us: nat, ghost sb: nat, gone: set<Path>, ghost clean: bool)
      requires Stands(us, sb, Paused, clean) && GuestPaused(sb, true)
      modifies this
      ensures Stands(us, sb, Cleared, clean) && GuestPaused(sb, true)
      ensures s.vms == old(s.vms) && s.files == old(s.files) - BundleFiles(us) * gone
    {
      Do(Clear(us, BundleFiles(us) * gone), us, clean);
    }

    /** State and memory are written in their place. */
    method CreateFullSnapshot(us: nat, ghost sb: nat, w: Calls, ghost clean: bool) returns (ok: bool)
      requires Stands(us, sb, Cleared, clean) && GuestPaused(sb, true)
      modifies this
      ensures ok == w.captured && Stands(us, sb, if ok then Captured else Failing, clean) && GuestPaused(sb, true)
      ensures s.vms == old(s.vms)
      ensures var now := if ok then Machine(s.vms[sb].machine) else Torn;
        s.files == old(s.files)[StateFile(us) := now][MemFile(us) := now]
    {
      Do(BeginCapture(us), us, clean);
      ok := w.captured;
      Do(EndCapture(us, ok), us, clean);
    }

    method PersistDisk(us: nat, ghost sb: nat, w: Calls, ghost clean: bool) returns (ok: bool)
      requires Stands(us, sb, Captured, clean) && GuestPaused(sb, true)
      modifies this
      ensures ok == w.copied && Stands(us, sb, if ok then Copied else Failing, clean) && GuestPaused(sb, true)
      ensures s.vms == old(s.vms)
      ensures s.files == old(s.files)[
        DiskFile(us) := if ok then CopyOf(old(s.files)[Rootfs(sb)], w.garbage) else Torn]
    {
      Do(BeginCopy(us), us, clean);
      ok := w.copied;
      Do(EndCopy(us, ok, w.garbage), us, clean);
    }

    method WriteTmp(us: nat, ghost sb: nat, ok: bool, ghost clean: bool)
      requires Stands(us, sb, Copied, clean) && GuestPaused(sb, true)
      modifies this
      ensures Stands(us, sb, if ok then Written else Failing, clean) && GuestPaused(sb, true)
      ensures s.vms == old(s.vms) && s.files == old(s.files)[TmpFile(us) := if ok then OwnMeta(us) else Torn]
    {
      Do(BeginWrite(us), us, clean);
      Do(EndWrite(us, ok), us, clean);
    }

    method WriteMeta(us: nat, ghost sb: nat, w: Calls, ghost clean: bool) returns (ok: bool)
      requires Stands(us, sb, Copied, clean) && GuestPaused(sb, true)
      modifies this
      ensures ok == (w.written && w.renamed)
      ensures Stands(us, sb, if ok then Committed else Failing, clean) && GuestPaused(sb, true)
      ensures ok ==> s.creators[us].committed
      ensures s.vms == old(s.vms)
      ensures ok ==> s.files == old(s.files)[TmpFile(us) := OwnMeta(us)][MetaFile(us) := OwnMeta(us)] - {TmpFile(us)}
      ensures !ok ==> s.files == old(s.files)[TmpFile(us) := if w.written then OwnMeta(us) else Torn]
    {
      WriteTmp(us, sb, w.written, clean);
      if !w.written { return false; }
      ok := w.renamed;
      Do(UserSnapshots.Rename(us, ok), us, clean);
    }

    method ResumeVm(us: nat, ghost sb: nat, accepted: bool, ghost clean: bool)
      requires Stands(us, sb, Committed, clean) || Stands(us, sb, Failing, clean)
      requires GuestPaused(sb, true)
      modifies this
      ensures Stands(us, sb, if !accepted && old(s.creators[us].pc) == Committed then Failing else Returned, clean)
      ensures GuestPaused(sb, !accepted) && s.vms == old(s.vms)[sb := old(s.vms[sb]).(paused := !accepted)]
      ensures s.creators[us].resumeSent && s.creators[us].resumedOk == accepted && s.files == old(s.files)
      ensures s.creators[us].committed == old(s.creators[us].committed)
    {
      Do(Resume(us, accepted), us, clean);
    }

    /** State and memory, in place of what was there. */
    method SaveGuest(us: nat, ghost sb: nat, w: Calls, ghost clean: bool) returns (ok: bool)
      requires Stands(us, sb, Paused, clean) && GuestPaused(sb, true)
      modifies this
      ensures ok == w.captured && Stands(us, sb, if ok then Captured else Failing, clean) && GuestPaused(sb, true)
      ensures s.vms == old(s.vms) && Untouched(old(s.files), s.files, us)
      ensures MetaFile(us) in s.files <==> MetaFile(us) in old(s.files)
      ensures ok ==> Has(s.files, StateFile(us), Machine(s.vms[sb].machine)) && Has(s.files, MemFile(us), Machine(s.vms[sb].machine))
    {
      RemoveOld(us, sb, w.gone, clean);
      ok := CreateFullSnapshot(us, sb, w, clean);
    }

    /** The three parts of the bundle and its metadata. */
    method Save(us: nat, ghost sb: nat, w: Calls, ghost clean: bool) returns (ok: bool)
      requires Stands(us, sb, Paused, clean) && GuestPaused(sb, true)
      modifies this
      ensures ok == Saves(w) && Stands(us, sb, if ok then Committed else Failing, clean) && GuestPaused(sb, true)
      ensures ok ==> s.creators[us].committed
      ensures s.vms == old(s.vms) && Untouched(old(s.files), s.files, us)
      ensures !ok ==> (MetaFile(us) in s.files <==> MetaFile(us) in old(s.files))
      ensures ok ==> Bundle(s.files, us, s.vms[sb].machine, CopyOf(old(s.files)[Rootfs(sb)], w.garbage))
    {
      ok := SaveGuest(us, sb, w, clean);
      if ok { ok := PersistDisk(us, sb, w, clean); }
      if ok { ok := WriteMeta(us, sb, w, clean); }
    }

    /** From the pause on; a resume that is still needed at the end is sent then. */
    method SaveAndResume(us: nat, ghost sb: nat, w: Calls, ghost clean: bool) returns (ok: bool)
      requires Stands(us, sb, Paused, clean) && GuestPaused(sb, true)
      modifies this
      ensures ok <==> Saves(w) && w.resumed
      ensures Stands(us, sb, Returned, clean) && s.creators[us].resumeSent
      ensures (Saves(w) ==> s.creators[us].committed) && s.creators[us].resumedOk == (ok || w.resumedLater)
      ensures s.vms == old(s.vms)[sb := old(s.vms[sb]).(paused := !(ok || w.resumedLater))]
      ensures GuestPaused(sb, !(ok || w.resumedLater))
      ensures Untouched(old(s.files), s.files, us)
      ensures !Saves(w) ==> (MetaFile(us) in s.files <==> MetaFile(us) in old(s.files))
      ensures Saves(w) ==> Bundle(s.files, us, old(s.vms[sb].machine), CopyOf(old(s.files)[Rootfs(sb)], w.garbage))
    {
      var resumeNeeded := true;
      ok := Save(us, sb, w, clean);
      if ok {
        ResumeVm(us, sb, w.resumed, clean);
        ok := w.resumed;
        if ok { resumeNeeded := false; }
      }
      if resumeNeeded {
        ResumeVm(us, sb, w.resumedLater, clean);
      }
    }

    method Begin(sb: nat, ghost clean: bool) returns (us: nat)
      requires s.up && sb in s.vms && s.nextUs + 1 !in s.creators
      requires clean ==> MetaFile(s.nextUs + 1) !in s.files
      modifies this
      ensures us == old(s.nextUs) + 1 && Stands(us, sb, Started, clean)
      ensures s.vms == old(s.vms) && s.files == old(s.files)
    {
      s := Next(s, Start(sb));
      us := s.nextUs;
    }

    /** createUserSnapshotFromSandbox for given results of its foreign calls.  It succeeds
        exactly when all of them do, and then the bundle is that of the guest as it was,
        under metadata that names it, and the guest runs.  Whatever happens after the
        pause, a resume is sent; the guest is left paused only when the last one was
        refused.  A visible bundle is complete, if the id was not visible before, and no
        one else's file is touched. */
    method CreateUserSnapshot(sb: nat, w: Calls) returns (us: nat, ok: bool)
      requires s.up && sb in s.vms && (Alive(s, sb) ==> GuestPaused(sb, false))
      requires s.nextUs + 1 !in s.creators
      modifies this
      ensures us == old(s.nextUs) + 1 && us in s.creators && s.creators[us].pc == Returned
      ensures ok <==> old(Alive(s, sb)) && w.made && w.paused && Saves(w) && w.resumed
      ensures Untouched(old(s.files), s.files, us)
      ensures ok ==> Rootfs(sb) in old(s.files)
      ensures ok ==> Bundle(s.files, us, old(s.vms[sb].machine), CopyOf(old(s.files)[Rootfs(sb)], w.garbage))
      ensures MetaFile(us) !in old(s.files) ==>
        && (MetaFile(us) in s.files <==> old(Alive(s, sb)) && w.made && w.paused && Saves(w))
        && (MetaFile(us) in s.files ==> Complete(s.files, us))
      ensures s.creators[us].pausedOk ==> s.creators[us].resumeSent
      ensures old(Alive(s, sb)) && w.made && w.paused ==>
        s.vms == old(s.vms)[sb := old(s.vms[sb]).(paused := !(ok || w.resumedLater))]
      ensures !(old(Alive(s, sb)) && w.made && w.paused) ==> s.vms == old(s.vms) && s.files == old(s.files)
    {
      ghost var clean := MetaFile(s.nextUs + 1) !in s.files;
      us := Begin(sb, clean);
      ok := PauseVm(us, sb, w, clean);
      if ok { ok := SaveAndResume(us, sb, w, clean); }
      if clean { VisibleIsComplete(s.files, us, s.creators[us]); }
    }
  }

  lemma VisibleIsComplete(fs: Files, us: nat, c: Creator)
    requires OnDisk(us, c, fs)
    ensures c.committed <==> MetaFile(us) in fs
    ensures MetaFile(us) in fs ==> Complete(fs, us)
  {
  }
}
