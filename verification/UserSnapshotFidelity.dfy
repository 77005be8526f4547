/** A user snapshot is one instant of its guest, and a restore brings back that instant,
    unless another call's resume comes in between. */
module UserSnapshotFidelity {
  import opened UserSnapshots
  import opened UserSnapshotCommit

  // ------------------------------------------------------------- invariant

  /** The call has the guest paused. */
  predicate Holding(c: Creator) { !(c.pc.Started? || c.pc.Returned?) }

  /** From the pause to the end of the disk copy. */
  predicate Saving(pc: Pc) { pc.Paused? || pc.Cleared? || pc.Capturing? || pc.Captured? || pc.Copying? }

  /** The step that can spoil snapshot us: another call's resume of its guest, accepted
      while us is between its pause and the end of its copy. */
  predicate Shakes(s: State, a: Step, us: nat) {
    && a.Resume? && a.ok && a.us != us
    && us in s.creators && Saving(s.creators[us].pc)
    && a.us in s.creators && s.creators[a.us].sb == s.creators[us].sb
  }

  predicate GuestOk(s: State, sb: nat) {
    sb in s.vms ==>
      && 1 <= sb <= s.nextSb
      && (s.vms[sb].alive ==> Rootfs(sb) in s.files)
      && (Rootfs(sb) in s.files ==> s.files[Rootfs(sb)].Disk?)
  }

  predicate CallerOk(s: State, us: nat) {
    && (us in s.creators ==>
          && us <= s.nextUs && s.creators[us].sb in s.vms
          && (Holding(s.creators[us]) || s.creators[us].committed ==> s.creators[us].disk0.Disk?))
    && (MetaFile(us) in s.files ==> us in s.creators && s.creators[us].committed)
  }

  /** A restored guest before its first write is what its bundle holds. */
  predicate Reborn(s: State, id: nat, us: nat)
    requires id in s.vms
  {
    && Look(s.files, StateFile(us)) == Machine(s.vms[id].machine)
    && (Rootfs(id) in s.files ==> s.files[Rootfs(id)] == Look(s.files, DiskFile(us)))
  }

  predicate RestorerOk(s: State, id: nat) {
    id in s.restorers ==>
      var r := s.restorers[id];
      && 1 <= id <= s.nextSb
      && r.meta == OwnMeta(r.us) && MetaFile(r.us) in s.files
      && (r.pc != Restored ==> id !in s.vms)
      && (r.pc == Cloning ==> r.seen == Look(s.files, DiskFile(r.us)))
      && (r.pc == Cloned ==> Rootfs(id) in s.files && s.files[Rootfs(id)] == Look(s.files, DiskFile(r.us)))
      && (r.pc == Restored ==> id in s.vms && (s.vms[id].epoch == 0 ==> Reborn(s, id, r.us)))
  }

  ghost predicate Restorers(s: State) { forall id :: RestorerOk(s, id) }

  /** What holds in a first lifetime whatever overlaps. */
  ghost predicate World(s: State) {
    && s.lifetime == 1
    && (forall sb :: GuestOk(s, sb))
    && (forall us :: CallerOk(s, us))
    && (forall us :: BundleInv(s, us) && FirstInv(s, us))
    && Restorers(s)
  }

  /** The guest is exactly as it was when this call paused it. */
  predicate Frozen(s: State, c: Creator) {
    && c.sb in s.vms
    && (s.vms[c.sb].alive ==> s.vms[c.sb].paused)
    && s.vms[c.sb].machine == c.machine0
    && (Rootfs(c.sb) in s.files ==> s.files[Rootfs(c.sb)] == c.disk0)
    && (c.pc == Copying ==> c.seen == c.disk0 && c.from == s.vms[c.sb].epoch)
  }

  /** What a call has saved is what it found at the pause. */
  predicate Saved(fs: Files, us: nat, c: Creator) {
    && (PastCapture(c.pc) || c.committed ==>
      Look(fs, StateFile(us)) == Look(fs, MemFile(us)) == Machine(c.machine0))
    && (PastCopy(c.pc) || c.committed ==> Look(fs, DiskFile(us)) == c.disk0)
  }

  /** One call keeps its hold and saves the truth. */
  predicate CallOk(s: State, us: nat) {
    us in s.creators ==>
      && (Saving(s.creators[us].pc) ==> Frozen(s, s.creators[us]))
      && Saved(s.files, us, s.creators[us])
  }

  // ------------------------------------------------------- steps: the world

  /** Who can change a guest or its disk. */
  predicate Disturbs(s: State, a: Step, sb: nat) {
    match a
    case GuestWrite(id, _, _) => id == sb
    case Kill(id) => id == sb
    case RemoveDir(id) => id == sb
    case Pause(us, ok) => ok && us in s.creators && s.creators[us].sb == sb
    case Resume(us, ok) => ok && us in s.creators && s.creators[us].sb == sb
    case _ => false
  }

  /** Everything else leaves a known guest and its disk alone. */
  lemma Undisturbed(s: State, a: Step, sb: nat)
    requires Enabled(s, a) && !a.Restart? && !Disturbs(s, a, sb)
    requires sb in s.vms && sb <= s.nextSb && Restorers(s)
    ensures sb in Next(s, a).vms && Next(s, a).vms[sb] == s.vms[sb]
    ensures Rootfs(sb) in Next(s, a).files <==> Rootfs(sb) in s.files
    ensures Rootfs(sb) in s.files ==> Next(s, a).files[Rootfs(sb)] == s.files[Rootfs(sb)]
  {
    if EnvStep(a) { UndisturbedEnv(s, a, sb); }
    else if FirstHalf(a) { UndisturbedEarly(s, a, sb); }
    else if SecondHalf(a) { UndisturbedLate(s, a, sb); }
    else { UndisturbedRest(s, a, sb); }
  }

  lemma UndisturbedEnv(s: State, a: Step, sb: nat)
    requires EnvStep(a)
    requires Enabled(s, a) && !a.Restart? && !Disturbs(s, a, sb)
    requires sb in s.vms && sb <= s.nextSb && Restorers(s)
    ensures sb in Next(s, a).vms && Next(s, a).vms[sb] == s.vms[sb]
    ensures Rootfs(sb) in Next(s, a).files <==> Rootfs(sb) in s.files
    ensures Rootfs(sb) in s.files ==> Next(s, a).files[Rootfs(sb)] == s.files[Rootfs(sb)]
  {
    match a {
      case Boot(_, _) =>
      case GuestWrite(_, _, _) =>
      case Kill(_) =>
      case RemoveDir(_) =>
      case Start(_) =>
    }
  }

  lemma UndisturbedEarly(s: State, a: Step, sb: nat)
    requires FirstHalf(a)
    requires Enabled(s, a) && !a.Restart? && !Disturbs(s, a, sb)
    requires sb in s.vms && sb <= s.nextSb && Restorers(s)
    ensures sb in Next(s, a).vms && Next(s, a).vms[sb] == s.vms[sb]
    ensures Rootfs(sb) in Next(s, a).files <==> Rootfs(sb) in s.files
    ensures Rootfs(sb) in s.files ==> Next(s, a).files[Rootfs(sb)] == s.files[Rootfs(sb)]
  {
    match a {
      case DirFails(_) =>
      case Pause(_, _) =>
      case Clear(_, _) =>
      case BeginCapture(_) =>
      case EndCapture(_, _) =>
    }
  }

  lemma UndisturbedLate(s: State, a: Step, sb: nat)
    requires SecondHalf(a)
    requires Enabled(s, a) && !a.Restart? && !Disturbs(s, a, sb)
    requires sb in s.vms && sb <= s.nextSb && Restorers(s)
    ensures sb in Next(s, a).vms && Next(s, a).vms[sb] == s.vms[sb]
    ensures Rootfs(sb) in Next(s, a).files <==> Rootfs(sb) in s.files
    ensures Rootfs(sb) in s.files ==> Next(s, a).files[Rootfs(sb)] == s.files[Rootfs(sb)]
  {
    match a {
      case BeginCopy(_) =>
      case EndCopy(_, _, _) =>
      case BeginWrite(_) =>
      case EndWrite(_, _) =>
      case Rename(_, _) =>
      case Resume(_, _) =>
    }
  }

  lemma UndisturbedRest(s: State, a: Step, sb: nat)
    requires RestStep(a)
    requires Enabled(s, a) && !a.Restart? && !Disturbs(s, a, sb)
    requires sb in s.vms && sb <= s.nextSb && Restorers(s)
    ensures sb in Next(s, a).vms && Next(s, a).vms[sb] == s.vms[sb]
    ensures Rootfs(sb) in Next(s, a).files <==> Rootfs(sb) in s.files
    ensures Rootfs(sb) in s.files ==> Next(s, a).files[Rootfs(sb)] == s.files[Rootfs(sb)]
  {
    match a {
      case BeginRestore(_) =>
      case Clone(id, _, _) => assert RestorerOk(s, id);
      case Load(id, _, _) => assert RestorerOk(s, id);
      case Crash =>
    }
  }

  lemma IdsGrow(s: State, a: Step)
    requires Enabled(s, a) && !a.Restart?
    ensures Next(s, a).nextSb >= s.nextSb && Next(s, a).nextUs >= s.nextUs
    ensures forall sb :: sb in s.vms ==> sb in Next(s, a).vms
  {
    match a {
      case Boot(_, _) =>
      case GuestWrite(_, _, _) =>
      case Kill(_) =>
      case RemoveDir(_) =>
      case Start(_) =>
      case DirFails(_) =>
      case Pause(_, _) =>
      case Clear(_, _) =>
      case BeginCapture(_) =>
      case EndCapture(_, _) =>
      case BeginCopy(_) =>
      case EndCopy(_, _, _) =>
      case BeginWrite(_) =>
      case EndWrite(_, _) =>
      case Rename(_, _) =>
      case Resume(_, _) =>
      case BeginRestore(_) =>
      case Clone(_, _, _) =>
      case Load(_, _, _) =>
      case Crash =>
    }
  }

  lemma GuestStepOk(s: State, a: Step, sb: nat)
    requires Enabled(s, a) && World(s) && !a.Restart?
    ensures GuestOk(Next(s, a), sb)
  {
    assert GuestOk(s, sb);
    IdsGrow(s, a);
    if sb in s.vms && !Disturbs(s, a, sb) {
      Undisturbed(s, a, sb);
    } else if sb in s.vms {
      match a {
        case GuestWrite(_, _, _) =>
        case Kill(_) =>
        case RemoveDir(_) =>
        case Pause(_, _) =>
        case Resume(_, _) =>
      }
    } else if a.Boot? {
    } else if a.Load? {
      LoadedGuest(s, a, sb);
    } else {
      NoNewGuest(s, a, sb);
    }
  }

  lemma LoadedGuest(s: State, a: Step, sb: nat)
    requires Enabled(s, a) && World(s) && a.Load? && sb !in s.vms
    ensures GuestOk(Next(s, a), sb)
  {
    assert RestorerOk(s, a.id);
    var us := s.restorers[a.id].us;
    assert BundleInv(s, us) && FirstInv(s, us) && CallerOk(s, us);
  }

  lemma NoNewGuest(s: State, a: Step, sb: nat)
    requires Enabled(s, a) && !a.Restart? && !a.Boot? && !a.Load? && sb !in s.vms
    ensures sb !in Next(s, a).vms
  {
    match a {
      case GuestWrite(_, _, _) =>
      case Kill(_) =>
      case RemoveDir(_) =>
      case Start(_) =>
      case DirFails(_) =>
      case Pause(_, _) => assert Alive(s, s.creators[a.us].sb) || !a.ok;
      case Clear(_, _) =>
      case BeginCapture(_) =>
      case EndCapture(_, _) =>
      case BeginCopy(_) =>
      case EndCopy(_, _, _) =>
      case BeginWrite(_) =>
      case EndWrite(_, _) =>
      case Rename(_, _) =>
      case Resume(_, _) =>
      case BeginRestore(_) =>
      case Clone(_, _, _) =>
      case Crash =>
    }
  }

  lemma CallerStepOk(s: State, a: Step, us: nat)
    requires Enabled(s, a) && World(s) && !a.Restart?
    ensures CallerOk(Next(s, a), us)
  {
    assert CallerOk(s, us) && BundleInv(s, us) && FirstInv(s, us);
    IdsGrow(s, a);
    if Concerns(a, us) {
      OwnStep(s, a, us);
      assert GuestOk(s, s.creators[us].sb);
      OwnRecordOk(s, a, us);
    } else {
      OthersKeepOut(s, a, us);
      SameBundleAt(s.files, Next(s, a).files, us);
    }
  }

  lemma OwnRecordOk(s: State, a: Step, us: nat)
    requires Enabled(s, a) && Concerns(a, us) && CallerOk(s, us) && GuestOk(s, s.creators[us].sb)
    ensures us in Next(s, a).creators && Next(s, a).creators[us].sb == s.creators[us].sb
    ensures var c := Next(s, a).creators[us]; Holding(c) || c.committed ==> c.disk0.Disk?
  {
    if Opens(a) { OwnRecordOkOpen(s, a, us); }
    else if Captures(a) { OwnRecordOkCapture(s, a, us); }
    else if Copies(a) { OwnRecordOkCopy(s, a, us); }
    else { OwnRecordOkFinish(s, a, us); }
  }

  lemma OwnRecordOkOpen(s: State, a: Step, us: nat)
    requires Opens(a)
    requires Enabled(s, a) && Concerns(a, us) && CallerOk(s, us) && GuestOk(s, s.creators[us].sb)
    ensures us in Next(s, a).creators && Next(s, a).creators[us].sb == s.creators[us].sb
    ensures var c := Next(s, a).creators[us]; Holding(c) || c.committed ==> c.disk0.Disk?
  {
    match a {
      case DirFails(_) =>
      case Pause(_, _) =>
      case Clear(_, _) =>
    }
  }

  lemma OwnRecordOkCapture(s: State, a: Step, us: nat)
    requires Captures(a)
    requires Enabled(s, a) && Concerns(a, us) && CallerOk(s, us) && GuestOk(s, s.creators[us].sb)
    ensures us in Next(s, a).creators && Next(s, a).creators[us].sb == s.creators[us].sb
    ensures var c := Next(s, a).creators[us]; Holding(c) || c.committed ==> c.disk0.Disk?
  {
    match a {
      case BeginCapture(_) =>
      case EndCapture(_, _) =>
    }
  }

  lemma OwnRecordOkCopy(s: State, a: Step, us: nat)
    requires Copies(a)
    requires Enabled(s, a) && Concerns(a, us) && CallerOk(s, us) && GuestOk(s, s.creators[us].sb)
    ensures us in Next(s, a).creators && Next(s, a).creators[us].sb == s.creators[us].sb
    ensures var c := Next(s, a).creators[us]; Holding(c) || c.committed ==> c.disk0.Disk?
  {
    match a {
      case BeginCopy(_) =>
      case EndCopy(_, _, _) =>
    }
  }

  lemma OwnRecordOkFinish(s: State, a: Step, us: nat)
    requires Finishes(a)
    requires Enabled(s, a) && Concerns(a, us) && CallerOk(s, us) && GuestOk(s, s.creators[us].sb)
    ensures us in Next(s, a).creators && Next(s, a).creators[us].sb == s.creators[us].sb
    ensures var c := Next(s, a).creators[us]; Holding(c) || c.committed ==> c.disk0.Disk?
  {
    match a {
      case BeginWrite(_) =>
      case EndWrite(_, _) =>
      case Rename(_, _) =>
      case Resume(_, _) =>
    }
  }

  lemma SameBundleAt(fs: Files, gs: Files, us: nat)
    requires SameBundle(fs, gs, us)
    ensures StateFile(us) in fs <==> StateFile(us) in gs
    ensures MemFile(us) in fs <==> MemFile(us) in gs
    ensures DiskFile(us) in fs <==> DiskFile(us) in gs
    ensures MetaFile(us) in fs <==> MetaFile(us) in gs
    ensures Look(fs, StateFile(us)) == Look(gs, StateFile(us)) && Look(fs, MemFile(us)) == Look(gs, MemFile(us))
    ensures Look(fs, DiskFile(us)) == Look(gs, DiskFile(us))
  {
  }

  // ------------------------------------------------------- steps: restores

  /** A visible bundle stays as it is. */
  lemma VisibleStays(s: State, a: Step, us: nat)
    requires Enabled(s, a) && !a.Restart?
    requires BundleInv(s, us) && us !in s.reused && MetaFile(us) in s.files
    ensures SameBundle(s.files, Next(s, a).files, us)
  {
    if Concerns(a, us) {
      OnlyResumeLeft(s, a, us);
    } else {
      OthersKeepOut(s, a, us);
    }
  }

  /** A call that has committed only resumes from then on. */
  lemma OnlyResumeLeft(s: State, a: Step, us: nat)
    requires Enabled(s, a) && Concerns(a, us)
    requires OnDisk(us, s.creators[us], s.files) && s.creators[us].committed
    ensures a.Resume? && Next(s, a).files == s.files
  {
    match a {
      case Resume(_, _) =>
      case DirFails(_) =>
      case Pause(_, _) =>
      case Clear(_, _) =>
      case BeginCapture(_) =>
      case EndCapture(_, _) =>
      case BeginCopy(_) =>
      case EndCopy(_, _, _) =>
      case BeginWrite(_) =>
      case EndWrite(_, _) =>
      case Rename(_, _) =>
    }
  }

  predicate Drives(a: Step, id: nat) {
    match a
    case Clone(i, _, _) => i == id
    case Load(i, _, _) => i == id
    case _ => false
  }

  lemma RestorerStepOk(s: State, a: Step, id: nat)
    requires Enabled(s, a) && World(s) && !a.Restart?
    ensures RestorerOk(Next(s, a), id)
  {
    assert RestorerOk(s, id);
    IdsGrow(s, a);
    if id in s.restorers {
      var us := s.restorers[id].us;
      assert BundleInv(s, us) && FirstInv(s, us) && CallerOk(s, us);
      VisibleStays(s, a, us);
      SameBundleAt(s.files, Next(s, a).files, us);
      if Drives(a, id) { OwnRestore(s, a, id); } else { IdleRestore(s, a, id); }
    } else if a.BeginRestore? {
      NewRestore(s, a, id);
    } else {
      NoNewRestore(s, a, id);
    }
  }

  lemma OwnRestore(s: State, a: Step, id: nat)
    requires Enabled(s, a) && Drives(a, id) && RestorerOk(s, id)
    requires var us := s.restorers[id].us;
      Complete(s.files, us) && SameBundle(s.files, Next(s, a).files, us)
    ensures RestorerOk(Next(s, a), id)
  {
    SameBundleAt(s.files, Next(s, a).files, s.restorers[id].us);
    match a {
      case Clone(_, _, _) =>
      case Load(_, _, _) =>
    }
  }

  lemma IdleRestore(s: State, a: Step, id: nat)
    requires Enabled(s, a) && !a.Restart? && !Drives(a, id) && Restorers(s)
    requires id in s.restorers && SameBundle(s.files, Next(s, a).files, s.restorers[id].us)
    ensures RestorerOk(Next(s, a), id)
  {
    assert RestorerOk(s, id);
    IdsGrow(s, a);
    SameBundleAt(s.files, Next(s, a).files, s.restorers[id].us);
    SameRestorer(s, a, id);
    if id !in s.vms {
      NotYetGuest(s, a, id);
      SameDisk(s, a, id);
    }
    if s.restorers[id].pc == Restored { RunningOn(s, a, id); }
  }

  /** A restore that somebody else's step leaves alone. */
  lemma SameRestorer(s: State, a: Step, id: nat)
    requires Enabled(s, a) && !a.Restart? && !Drives(a, id)
    requires id in s.restorers && id <= s.nextSb
    ensures id in Next(s, a).restorers && Next(s, a).restorers[id] == s.restorers[id]
  {
    if EnvStep(a) { SameRestorerEnv(s, a, id); }
    else if FirstHalf(a) { SameRestorerEarly(s, a, id); }
    else if SecondHalf(a) { SameRestorerLate(s, a, id); }
    else { SameRestorerRest(s, a, id); }
  }

  lemma SameRestorerEnv(s: State, a: Step, id: nat)
    requires EnvStep(a)
    requires Enabled(s, a) && !a.Restart? && !Drives(a, id)
    requires id in s.restorers && id <= s.nextSb
    ensures id in Next(s, a).restorers && Next(s, a).restorers[id] == s.restorers[id]
  {
    match a {
      case Boot(_, _) =>
      case GuestWrite(_, _, _) =>
      case Kill(_) =>
      case RemoveDir(_) =>
      case Start(_) =>
    }
  }

  lemma SameRestorerEarly(s: State, a: Step, id: nat)
    requires FirstHalf(a)
    requires Enabled(s, a) && !a.Restart? && !Drives(a, id)
    requires id in s.restorers && id <= s.nextSb
    ensures id in Next(s, a).restorers && Next(s, a).restorers[id] == s.restorers[id]
  {
    match a {
      case DirFails(_) =>
      case Pause(_, _) =>
      case Clear(_, _) =>
      case BeginCapture(_) =>
      case EndCapture(_, _) =>
    }
  }

  lemma SameRestorerLate(s: State, a: Step, id: nat)
    requires SecondHalf(a)
    requires Enabled(s, a) && !a.Restart? && !Drives(a, id)
    requires id in s.restorers && id <= s.nextSb
    ensures id in Next(s, a).restorers && Next(s, a).restorers[id] == s.restorers[id]
  {
    match a {
      case BeginCopy(_) =>
      case EndCopy(_, _, _) =>
      case BeginWrite(_) =>
      case EndWrite(_, _) =>
      case Rename(_, _) =>
      case Resume(_, _) =>
    }
  }

  lemma SameRestorerRest(s: State, a: Step, id: nat)
    requires RestStep(a)
    requires Enabled(s, a) && !a.Restart? && !Drives(a, id)
    requires id in s.restorers && id <= s.nextSb
    ensures id in Next(s, a).restorers && Next(s, a).restorers[id] == s.restorers[id]
  {
    match a {
      case BeginRestore(_) =>
      case Clone(_, _, _) =>
      case Load(_, _, _) =>
      case Crash =>
    }
  }

  lemma NotYetGuest(s: State, a: Step, id: nat)
    requires Enabled(s, a) && !a.Restart? && !Drives(a, id)
    requires id <= s.nextSb && id !in s.vms
    ensures id !in Next(s, a).vms
  {
    if !a.Boot? && !a.Load? { NoNewGuest(s, a, id); }
  }

  lemma SameDisk(s: State, a: Step, id: nat)
    requires Enabled(s, a) && !a.Restart? && !Drives(a, id)
    requires id <= s.nextSb && id !in s.vms
    ensures Rootfs(id) in Next(s, a).files <==> Rootfs(id) in s.files
    ensures Rootfs(id) in s.files ==> Next(s, a).files[Rootfs(id)] == s.files[Rootfs(id)]
  {
    if EnvStep(a) { SameDiskEnv(s, a, id); }
    else if FirstHalf(a) { SameDiskEarly(s, a, id); }
    else if SecondHalf(a) { SameDiskLate(s, a, id); }
    else { SameDiskRest(s, a, id); }
  }

  lemma SameDiskEnv(s: State, a: Step, id: nat)
    requires EnvStep(a)
    requires Enabled(s, a) && !a.Restart? && !Drives(a, id)
    requires id <= s.nextSb && id !in s.vms
    ensures Rootfs(id) in Next(s, a).files <==> Rootfs(id) in s.files
    ensures Rootfs(id) in s.files ==> Next(s, a).files[Rootfs(id)] == s.files[Rootfs(id)]
  {
    match a {
      case Boot(_, _) =>
      case GuestWrite(_, _, _) =>
      case Kill(_) =>
      case RemoveDir(_) =>
      case Start(_) =>
    }
  }

  lemma SameDiskEarly(s: State, a: Step, id: nat)
    requires FirstHalf(a)
    requires Enabled(s, a) && !a.Restart? && !Drives(a, id)
    requires id <= s.nextSb && id !in s.vms
    ensures Rootfs(id) in Next(s, a).files <==> Rootfs(id) in s.files
    ensures Rootfs(id) in s.files ==> Next(s, a).files[Rootfs(id)] == s.files[Rootfs(id)]
  {
    match a {
      case DirFails(_) =>
      case Pause(_, _) =>
      case Clear(_, _) =>
      case BeginCapture(_) =>
      case EndCapture(_, _) =>
    }
  }

  lemma SameDiskLate(s: State, a: Step, id: nat)
    requires SecondHalf(a)
    requires Enabled(s, a) && !a.Restart? && !Drives(a, id)
    requires id <= s.nextSb && id !in s.vms
    ensures Rootfs(id) in Next(s, a).files <==> Rootfs(id) in s.files
    ensures Rootfs(id) in s.files ==> Next(s, a).files[Rootfs(id)] == s.files[Rootfs(id)]
  {
    match a {
      case BeginCopy(_) =>
      case EndCopy(_, _, _) =>
      case BeginWrite(_) =>
      case EndWrite(_, _) =>
      case Rename(_, _) =>
      case Resume(_, _) =>
    }
  }

  lemma SameDiskRest(s: State, a: Step, id: nat)
    requires RestStep(a)
    requires Enabled(s, a) && !a.Restart? && !Drives(a, id)
    requires id <= s.nextSb && id !in s.vms
    ensures Rootfs(id) in Next(s, a).files <==> Rootfs(id) in s.files
    ensures Rootfs(id) in s.files ==> Next(s, a).files[Rootfs(id)] == s.files[Rootfs(id)]
  {
    match a {
      case BeginRestore(_) =>
      case Clone(_, _, _) =>
      case Load(_, _, _) =>
      case Crash =>
    }
  }

  lemma RunningOn(s: State, a: Step, id: nat)
    requires Enabled(s, a) && !a.Restart? && Restorers(s)
    requires id in s.restorers && s.restorers[id].pc == Restored
    requires SameBundle(s.files, Next(s, a).files, s.restorers[id].us)
    ensures id in Next(s, a).vms
    ensures Next(s, a).vms[id].epoch == 0 ==> Reborn(Next(s, a), id, s.restorers[id].us)
  {
    assert RestorerOk(s, id);
    SameBundleAt(s.files, Next(s, a).files, s.restorers[id].us);
    if !Disturbs(s, a, id) {
      Undisturbed(s, a, id);
    } else {
      match a {
        case GuestWrite(_, _, _) =>
        case Kill(_) =>
        case RemoveDir(_) =>
        case Pause(_, _) =>
        case Resume(_, _) =>
      }
    }
  }

  lemma NewRestore(s: State, a: Step, id: nat)
    requires Enabled(s, a) && World(s) && a.BeginRestore? && id !in s.restorers
    ensures RestorerOk(Next(s, a), id)
  {
    assert CallerOk(s, a.us) && BundleInv(s, a.us) && FirstInv(s, a.us) && GuestOk(s, s.nextSb + 1);
  }

  lemma NoNewRestore(s: State, a: Step, id: nat)
    requires Enabled(s, a) && !a.BeginRestore? && id !in s.restorers
    ensures id !in Next(s, a).restorers
  {
    match a {
      case Boot(_, _) =>
      case GuestWrite(_, _, _) =>
      case Kill(_) =>
      case RemoveDir(_) =>
      case Start(_) =>
      case DirFails(_) =>
      case Pause(_, _) =>
      case Clear(_, _) =>
      case BeginCapture(_) =>
      case EndCapture(_, _) =>
      case BeginCopy(_) =>
      case EndCopy(_, _, _) =>
      case BeginWrite(_) =>
      case EndWrite(_, _) =>
      case Rename(_, _) =>
      case Resume(_, _) =>
      case Clone(_, _, _) =>
      case Load(_, _, _) =>
      case Crash =>
      case Restart =>
    }
  }

  lemma WorldStep(s: State, a: Step)
    requires Enabled(s, a) && World(s) && !a.Restart?
    ensures World(Next(s, a))
  {
    var t := Next(s, a);
    SameLifetime(s, a);
    forall sb ensures GuestOk(t, sb) { GuestStepOk(s, a, sb); }
    forall us ensures CallerOk(t, us) { CallerStepOk(s, a, us); }
    forall us ensures BundleInv(t, us) && FirstInv(t, us) {
      BundleStep(s, a, us);
      FirstStep(s, a, us);
    }
    forall id ensures RestorerOk(t, id) { RestorerStepOk(s, a, id); }
  }

  // ------------------------------------------------------- steps: one call

  /** While a call is saving its guest, nothing but another call's resume can move it. */
  lemma StaysFrozen(s: State, a: Step, us: nat)
    requires Enabled(s, a) && World(s) && !a.Restart? && !Concerns(a, us) && !Shakes(s, a, us)
    requires us in s.creators && Saving(s.creators[us].pc) && Frozen(s, s.creators[us])
    ensures Frozen(Next(s, a), s.creators[us])
  {
    var c := s.creators[us];
    assert GuestOk(s, c.sb);
    if !Disturbs(s, a, c.sb) {
      Undisturbed(s, a, c.sb);
    } else {
      match a {
        case Kill(_) =>
        case RemoveDir(_) =>
        case Pause(_, _) =>
        case Resume(_, _) =>
        case GuestWrite(_, _, _) =>
      }
    }
  }

  lemma OwnFreeze(s: State, a: Step, us: nat)
    requires Enabled(s, a) && World(s) && Concerns(a, us) && CallOk(s, us)
    ensures us in Next(s, a).creators
    ensures Saving(Next(s, a).creators[us].pc) ==> Frozen(Next(s, a), Next(s, a).creators[us])
  {
    assert CallerOk(s, us) && GuestOk(s, s.creators[us].sb);
    if a.Pause? {
    } else if Saving(s.creators[us].pc) && !a.Resume? {
      Undisturbed(s, a, s.creators[us].sb);
      SavingOn(s, a, us);
    } else {
      NoMoreSaving(s, a, us);
    }
  }

  lemma SavingOn(s: State, a: Step, us: nat)
    requires Enabled(s, a) && Concerns(a, us) && Saving(s.creators[us].pc)
    ensures us in Next(s, a).creators
    ensures var c, d := s.creators[us], Next(s, a).creators[us];
      && d.sb == c.sb && d.machine0 == c.machine0 && d.disk0 == c.disk0
      && (d.pc == Copying ==> c.sb in s.vms && d.seen == Look(s.files, Rootfs(c.sb)) && d.from == s.vms[c.sb].epoch
                              && Rootfs(c.sb) in s.files)
  {
    if FirstHalf(a) { SavingOnEarly(s, a, us); } else { SavingOnLate(s, a, us); }
  }

  lemma SavingOnEarly(s: State, a: Step, us: nat)
    requires FirstHalf(a)
    requires Enabled(s, a) && Concerns(a, us) && Saving(s.creators[us].pc)
    ensures us in Next(s, a).creators
    ensures var c, d := s.creators[us], Next(s, a).creators[us];
      && d.sb == c.sb && d.machine0 == c.machine0 && d.disk0 == c.disk0
      && (d.pc == Copying ==> c.sb in s.vms && d.seen == Look(s.files, Rootfs(c.sb)) && d.from == s.vms[c.sb].epoch
                              && Rootfs(c.sb) in s.files)
  {
    match a {
      case DirFails(_) =>
      case Pause(_, _) =>
      case Clear(_, _) =>
      case BeginCapture(_) =>
      case EndCapture(_, _) =>
    }
  }

  lemma SavingOnLate(s: State, a: Step, us: nat)
    requires SecondHalf(a)
    requires Enabled(s, a) && Concerns(a, us) && Saving(s.creators[us].pc)
    ensures us in Next(s, a).creators
    ensures var c, d := s.creators[us], Next(s, a).creators[us];
      && d.sb == c.sb && d.machine0 == c.machine0 && d.disk0 == c.disk0
      && (d.pc == Copying ==> c.sb in s.vms && d.seen == Look(s.files, Rootfs(c.sb)) && d.from == s.vms[c.sb].epoch
                              && Rootfs(c.sb) in s.files)
  {
    match a {
      case BeginCopy(_) =>
      case EndCopy(_, _, _) =>
      case BeginWrite(_) =>
      case EndWrite(_, _) =>
      case Rename(_, _) =>
      case Resume(_, _) =>
    }
  }

  lemma NoMoreSaving(s: State, a: Step, us: nat)
    requires Enabled(s, a) && Concerns(a, us) && !a.Pause? && (!Saving(s.creators[us].pc) || a.Resume?)
    ensures us in Next(s, a).creators && !Saving(Next(s, a).creators[us].pc)
  {
    if FirstHalf(a) { NoMoreSavingEarly(s, a, us); } else { NoMoreSavingLate(s, a, us); }
  }

  lemma NoMoreSavingEarly(s: State, a: Step, us: nat)
    requires FirstHalf(a)
    requires Enabled(s, a) && Concerns(a, us) && !a.Pause? && (!Saving(s.creators[us].pc) || a.Resume?)
    ensures us in Next(s, a).creators && !Saving(Next(s, a).creators[us].pc)
  {
    match a {
      case DirFails(_) =>
      case Clear(_, _) =>
      case BeginCapture(_) =>
      case EndCapture(_, _) =>
    }
  }

  lemma NoMoreSavingLate(s: State, a: Step, us: nat)
    requires SecondHalf(a)
    requires Enabled(s, a) && Concerns(a, us) && !a.Pause? && (!Saving(s.creators[us].pc) || a.Resume?)
    ensures us in Next(s, a).creators && !Saving(Next(s, a).creators[us].pc)
  {
    assert !Copies(a);
    NoMoreSavingFinish(s, a, us);
  }

  lemma NoMoreSavingFinish(s: State, a: Step, us: nat)
    requires Finishes(a)
    requires Enabled(s, a) && Concerns(a, us) && !a.Pause? && (!Saving(s.creators[us].pc) || a.Resume?)
    ensures us in Next(s, a).creators && !Saving(Next(s, a).creators[us].pc)
  {
    match a {
      case BeginWrite(_) =>
      case EndWrite(_, _) =>
      case Rename(_, _) =>
      case Resume(_, _) =>
    }
  }

  /** What a call saves is the guest it froze. */
  lemma SaveStep(s: State, a: Step, us: nat)
    requires Enabled(s, a) && Concerns(a, us) && CallOk(s, us) && CallerOk(s, us)
    requires OnDisk(us, s.creators[us], s.files)
    ensures us in Next(s, a).creators && Saved(Next(s, a).files, us, Next(s, a).creators[us])
  {
    if Opens(a) { SaveStepOpen(s, a, us); }
    else if Captures(a) { SaveStepCapture(s, a, us); }
    else if Copies(a) { SaveStepCopy(s, a, us); }
    else { SaveStepFinish(s, a, us); }
  }

  lemma SaveStepOpen(s: State, a: Step, us: nat)
    requires Opens(a)
    requires Enabled(s, a) && Concerns(a, us) && CallOk(s, us) && CallerOk(s, us)
    requires OnDisk(us, s.creators[us], s.files)
    ensures us in Next(s, a).creators && Saved(Next(s, a).files, us, Next(s, a).creators[us])
  {
    match a {
      case DirFails(_) =>
      case Pause(_, _) =>
      case Clear(_, _) =>
    }
  }

  lemma SaveStepCapture(s: State, a: Step, us: nat)
    requires Captures(a)
    requires Enabled(s, a) && Concerns(a, us) && CallOk(s, us) && CallerOk(s, us)
    requires OnDisk(us, s.creators[us], s.files)
    ensures us in Next(s, a).creators && Saved(Next(s, a).files, us, Next(s, a).creators[us])
  {
    match a {
      case BeginCapture(_) =>
      case EndCapture(_, _) =>
    }
  }

  lemma SaveStepCopy(s: State, a: Step, us: nat)
    requires Copies(a)
    requires Enabled(s, a) && Concerns(a, us) && CallOk(s, us) && CallerOk(s, us)
    requires OnDisk(us, s.creators[us], s.files)
    ensures us in Next(s, a).creators && Saved(Next(s, a).files, us, Next(s, a).creators[us])
  {
    match a {
      case BeginCopy(_) =>
      case EndCopy(_, _, _) =>
    }
  }

  lemma SaveStepFinish(s: State, a: Step, us: nat)
    requires Finishes(a)
    requires Enabled(s, a) && Concerns(a, us) && CallOk(s, us) && CallerOk(s, us)
    requires OnDisk(us, s.creators[us], s.files)
    ensures us in Next(s, a).creators && Saved(Next(s, a).files, us, Next(s, a).creators[us])
  {
    match a {
      case BeginWrite(_) =>
      case EndWrite(_, _) =>
      case Rename(_, _) =>
      case Resume(_, _) =>
    }
  }

  lemma CallStepOk(s: State, a: Step, us: nat)
    requires Enabled(s, a) && World(s) && !a.Restart? && CallOk(s, us) && !Shakes(s, a, us)
    ensures CallOk(Next(s, a), us)
  {
    assert CallerOk(s, us) && BundleInv(s, us) && FirstInv(s, us);
    if Concerns(a, us) {
      OwnFreeze(s, a, us);
      SaveStep(s, a, us);
    } else if a.Start? && us == s.nextUs + 1 {
    } else {
      OthersKeepOut(s, a, us);
      SameBundleAt(s.files, Next(s, a).files, us);
      if us in s.creators && Saving(s.creators[us].pc) { StaysFrozen(s, a, us); }
    }
  }

  // ------------------------------------------------------------- theorems

  lemma {:induction false} WorldInv(states: seq<State>, steps: seq<Step>, i: nat)
    requires Behaviour(states, steps) && i < |states| && states[i].lifetime == 1
    ensures World(states[i])
    decreases i
  {
    if i > 0 {
      StepAt(states, steps, i - 1);
      StillFirst(states, steps, i);
      WorldInv(states, steps, i - 1);
      WorldStep(states[i - 1], steps[i - 1]);
    }
  }

  lemma StillFirst(states: seq<State>, steps: seq<Step>, i: nat)
    requires Behaviour(states, steps) && 0 < i < |states| && states[i].lifetime == 1
    ensures states[i - 1].lifetime == 1 && !steps[i - 1].Restart?
  {
    StepAt(states, steps, i - 1);
    CommitInv(states, steps, i - 1, 0);
    LifetimesCount(states[i - 1], steps[i - 1]);
  }

  lemma LifetimesCount(s: State, a: Step)
    requires Enabled(s, a)
    ensures Next(s, a).lifetime == if a.Restart? then s.lifetime + 1 else s.lifetime
  {
    if !a.Restart? { SameLifetime(s, a); }
  }

  /** Up to state i no other call has resumed the guest of us while us was saving it. */
  ghost predicate Unshaken(states: seq<State>, steps: seq<Step>, i: nat, us: nat)
    requires Run(states, steps)
  {
    forall k {:trigger steps[k]} :: 0 <= k < i && k < |steps| ==> !Shakes(states[k], steps[k], us)
  }

  lemma {:induction false} CallInvariant(states: seq<State>, steps: seq<Step>, i: nat, us: nat)
    requires Behaviour(states, steps) && i < |states| && states[i].lifetime == 1
    requires Unshaken(states, steps, i, us)
    ensures CallOk(states[i], us)
    decreases i
  {
    if i > 0 {
      StepAt(states, steps, i - 1);
      StillFirst(states, steps, i);
      WorldInv(states, steps, i - 1);
      CallInvariant(states, steps, i - 1, us);
      assert !Shakes(states[i - 1], steps[i - 1], us);
      CallStepOk(states[i - 1], steps[i - 1], us);
    }
  }

  /** The instant of the p-th step, a successful pause for snapshot us. */
  ghost predicate PausedAt(states: seq<State>, steps: seq<Step>, p: nat, us: nat, sb: nat, m: int, d: Content)
    requires Run(states, steps)
  {
    && p < |steps| && steps[p] == Pause(us, true)
    && us in states[p].creators && states[p].creators[us].sb == sb
    && sb in states[p].vms && states[p].vms[sb].machine == m && Look(states[p].files, Rootfs(sb)) == d
  }

  /** What a call remembers of its guest is what the guest was when it was paused. */
  lemma {:induction false} RecordIsThePause(states: seq<State>, steps: seq<Step>, i: nat, us: nat) returns (p: nat)
    requires Behaviour(states, steps) && i < |states| && states[i].lifetime == 1
    requires us in states[i].creators && states[i].creators[us].pausedOk
    ensures p < i
    ensures var c := states[i].creators[us]; PausedAt(states, steps, p, us, c.sb, c.machine0, c.disk0)
    decreases i
  {
    StepAt(states, steps, i - 1);
    PauseOrKept(states[i - 1], steps[i - 1], states[i], us);
    CommitInv(states, steps, i - 1, us);
    if steps[i - 1] == Pause(us, true) {
      p := i - 1;
    } else {
      p := RecordIsThePause(states, steps, i - 1, us);
    }
  }

  /** A record of a pause is made by the pause, and kept by every other step. */
  lemma PauseOrKept(s: State, a: Step, t: State, us: nat)
    requires Enabled(s, a) && t == Next(s, a) && t.lifetime == 1 && 1 <= s.lifetime
    requires us in t.creators && t.creators[us].pausedOk
    ensures us in s.creators && s.lifetime == 1
    ensures a == Pause(us, true) ==>
      t.creators[us].sb == s.creators[us].sb && s.creators[us].sb in s.vms
      && t.creators[us].machine0 == s.vms[s.creators[us].sb].machine
      && t.creators[us].disk0 == Look(s.files, Rootfs(s.creators[us].sb))
    ensures a != Pause(us, true) ==>
      s.creators[us].pausedOk && t.creators[us].sb == s.creators[us].sb
      && t.creators[us].machine0 == s.creators[us].machine0 && t.creators[us].disk0 == s.creators[us].disk0
  {
    if a != Pause(us, true) { RecordKept(s, a, us); } else { SameLifetime(s, a); }
  }

  lemma RecordKept(s: State, a: Step, us: nat)
    requires Enabled(s, a) && Next(s, a).lifetime == 1 && s.lifetime >= 1
    requires a != Pause(us, true) && us in Next(s, a).creators && Next(s, a).creators[us].pausedOk
    ensures s.lifetime == 1 && us in s.creators
    ensures var c, d := s.creators[us], Next(s, a).creators[us];
      c.pausedOk && c.sb == d.sb && c.machine0 == d.machine0 && c.disk0 == d.disk0
  {
    if !a.Restart? {
      SameLifetime(s, a);
      if !Concerns(a, us) {
        OthersKeepOut(s, a, us);
      } else {
        match a {
          case DirFails(_) =>
          case Pause(_, _) =>
          case Clear(_, _) =>
          case BeginCapture(_) =>
          case EndCapture(_, _) =>
          case BeginCopy(_) =>
          case EndCopy(_, _, _) =>
          case BeginWrite(_) =>
          case EndWrite(_, _) =>
          case Rename(_, _) =>
          case Resume(_, _) =>
        }
      }
    }
  }

  /** A snapshot as its metadata shows it holds what the pause of its call found. */
  predicate Faithful(s: State, us: nat) {
    us in s.creators && var c := s.creators[us];
      && Look(s.files, StateFile(us)) == Look(s.files, MemFile(us)) == Machine(c.machine0)
      && Look(s.files, DiskFile(us)) == c.disk0
  }

  lemma VisibleIsFaithful(s: State, us: nat)
    requires World(s) && CallOk(s, us) && MetaFile(us) in s.files
    ensures Faithful(s, us) && s.files[MetaFile(us)] == OwnMeta(us) && s.creators[us].disk0.Disk?
  {
    assert CallerOk(s, us) && BundleInv(s, us) && FirstInv(s, us);
  }

  /** Fidelity, call by call: a visible snapshot whose guest no other call resumed while
      it was being saved holds the memory and the disk its guest had at one instant, that
      of the pause. */
  lemma SnapshotIsOneInstant(states: seq<State>, steps: seq<Step>, i: nat, us: nat) returns (p: nat, sb: nat, m: int, d: int)
    requires Behaviour(states, steps) && i < |states| && states[i].lifetime == 1
    requires MetaFile(us) in states[i].files && Unshaken(states, steps, i, us)
    ensures p < i && PausedAt(states, steps, p, us, sb, m, Disk(d))
    ensures var fs := states[i].files;
      && fs[MetaFile(us)] == OwnMeta(us)
      && Look(fs, StateFile(us)) == Look(fs, MemFile(us)) == Machine(m) && Look(fs, DiskFile(us)) == Disk(d)
  {
    WorldInv(states, steps, i);
    CallInvariant(states, steps, i, us);
    CommitInv(states, steps, i, us);
    VisibleIsFaithful(states[i], us);
    assert CallerOk(states[i], us);
    var c := states[i].creators[us];
    p := RecordIsThePause(states, steps, i, us);
    sb, m, d := c.sb, c.machine0, c.disk0.d;
  }

  /** Restore: until its first write a restored guest has the memory and the disk that
      the original had at the pause. */
  lemma RestoreIsThatInstant(states: seq<State>, steps: seq<Step>, i: nat, id: nat) returns (p: nat, sb: nat, m: int, d: int)
    requires Behaviour(states, steps) && i < |states| && states[i].lifetime == 1
    requires id in states[i].restorers && states[i].restorers[id].pc == Restored
    requires id in states[i].vms && states[i].vms[id].epoch == 0 && states[i].vms[id].alive
    requires Unshaken(states, steps, i, states[i].restorers[id].us)
    ensures p < i && PausedAt(states, steps, p, states[i].restorers[id].us, sb, m, Disk(d))
    ensures states[i].vms[id].machine == m && Look(states[i].files, Rootfs(id)) == Disk(d)
  {
    WorldInv(states, steps, i);
    assert RestorerOk(states[i], id) && GuestOk(states[i], id);
    p, sb, m, d := SnapshotIsOneInstant(states, steps, i, states[i].restorers[id].us);
  }

  /** Once visible a bundle never changes, whatever guests and restores do later. */
  lemma {:induction false} BundleNeverChanges(states: seq<State>, steps: seq<Step>, i: nat, k: nat, us: nat)
    requires Behaviour(states, steps) && i <= k < |states| && states[k].lifetime == 1
    requires MetaFile(us) in states[i].files
    ensures SameBundle(states[i].files, states[k].files, us)
    decreases k
  {
    if i < k {
      StepAt(states, steps, k - 1);
      CommitInv(states, steps, k - 1, us);
      FirstStep(states[k - 1], steps[k - 1], us);
      LifetimesCount(states[k - 1], steps[k - 1]);
      BundleNeverChanges(states, steps, i, k - 1, us);
      SameBundleAt(states[i].files, states[k - 1].files, us);
      VisibleStays(states[k - 1], steps[k - 1], us);
      SameBundleTrans(states[i].files, states[k - 1].files, states[k].files, us);
    }
  }

  lemma SameBundleTrans(fs: Files, gs: Files, hs: Files, us: nat)
    requires SameBundle(fs, gs, us) && SameBundle(gs, hs, us)
    ensures SameBundle(fs, hs, us)
  {
  }
}
