/** meta.json is the commit point of a user snapshot, and pauses are undone. */
module UserSnapshotCommit {
  import opened UserSnapshots

  // ------------------------------------------------------------- invariant

  predicate WholeMachine(fs: Files, us: nat) {
    && StateFile(us) in fs && MemFile(us) in fs
    && fs[StateFile(us)].Machine? && fs[StateFile(us)] == fs[MemFile(us)]
  }

  predicate WholeDisk(fs: Files, us: nat) {
    DiskFile(us) in fs && fs[DiskFile(us)].Disk?
  }

  /** A bundle that can be restored: metadata naming its own three files, each whole. */
  predicate Complete(fs: Files, us: nat) {
    MetaFile(us) in fs && fs[MetaFile(us)] == OwnMeta(us) && WholeMachine(fs, us) && WholeDisk(fs, us)
  }

  predicate PastCapture(pc: Pc) { pc.Captured? || pc.Copying? || PastCopy(pc) }
  predicate PastCopy(pc: Pc) { pc.Copied? || pc.Writing? || pc.Written? || pc.Committed? }

  /** What one creator has on disk, by how far it is. */
  predicate OnDisk(us: nat, c: Creator, fs: Files) {
    && (PastCapture(c.pc) || c.committed ==> WholeMachine(fs, us))
    && (PastCopy(c.pc) || c.committed ==> WholeDisk(fs, us))
    && (c.pc == Written ==> TmpFile(us) in fs && fs[TmpFile(us)] == OwnMeta(us))
    && (c.committed <==> MetaFile(us) in fs)
    && (c.committed ==> fs[MetaFile(us)] == OwnMeta(us) && (c.pc.Committed? || c.pc.Failing? || c.pc.Returned?))
  }

  predicate BundleInv(s: State, us: nat) {
    && (us in s.creators ==> us <= s.nextUs)
    && (us !in s.reused && us in s.creators ==> OnDisk(us, s.creators[us], s.files))
    && (us !in s.reused && us !in s.creators && MetaFile(us) in s.files ==> Complete(s.files, us))
  }

  /** The calls' own bookkeeping: a call that paused leaves only through a resume. */
  predicate CallInv(c: Creator) {
    && (c.pc == Started ==> !c.pausedOk)
    && (!(c.pc.Started? || c.pc.Returned?) ==> c.pausedOk)
    && (c.pc == Returned && c.pausedOk ==> c.resumeSent)
    && (c.resumeSent ==> c.pausedOk && (c.pc.Failing? || c.pc.Returned?))
    && (c.resumedOk ==> c.resumeSent)
    && (c.committed ==> c.pausedOk)
  }

  // ------------------------------------------------------------- steps

  predicate Concerns(a: Step, us: nat) {
    match a
    case DirFails(u) => u == us
    case Pause(u, _) => u == us
    case Clear(u, _) => u == us
    case BeginCapture(u) => u == us
    case EndCapture(u, _) => u == us
    case BeginCopy(u) => u == us
    case EndCopy(u, _, _) => u == us
    case BeginWrite(u) => u == us
    case EndWrite(u, _) => u == us
    case Rename(u, _) => u == us
    case Resume(u, _) => u == us
    case _ => false
  }

  // The steps in groups: guests and new calls, a call up to its capture, a call from its
  // copy on, and the rest.

  predicate EnvStep(a: Step) { a.Boot? || a.GuestWrite? || a.Kill? || a.RemoveDir? || a.Start? }

  predicate FirstHalf(a: Step) { a.DirFails? || a.Pause? || a.Clear? || a.BeginCapture? || a.EndCapture? }

  predicate SecondHalf(a: Step) {
    a.BeginCopy? || a.EndCopy? || a.BeginWrite? || a.EndWrite? || a.Rename? || a.Resume?
  }

  // A call step by step.

  predicate Opens(a: Step) { a.DirFails? || a.Pause? || a.Clear? }

  predicate Captures(a: Step) { a.BeginCapture? || a.EndCapture? }

  predicate Copies(a: Step) { a.BeginCopy? || a.EndCopy? }

  predicate Finishes(a: Step) { a.BeginWrite? || a.EndWrite? || a.Rename? || a.Resume? }

  predicate RestStep(a: Step) { a.BeginRestore? || a.Clone? || a.Load? || a.Crash? }

  predicate SameBundle(fs: Files, gs: Files, us: nat) {
    forall p :: p in {StateFile(us), MemFile(us), DiskFile(us), TmpFile(us), MetaFile(us)} ==>
      (p in fs <==> p in gs) && (p in fs ==> gs[p] == fs[p])
  }

  /** Nobody but its own call touches a bundle or its record. */
  lemma OthersKeepOut(s: State, a: Step, us: nat)
    requires Enabled(s, a) && !Concerns(a, us) && !a.Restart?
    ensures SameBundle(s.files, Next(s, a).files, us)
    ensures !(a.Start? && us == s.nextUs + 1) ==>
      (us in Next(s, a).creators <==> us in s.creators)
      && (us in s.creators ==> Next(s, a).creators[us] == s.creators[us])
    ensures Next(s, a).nextUs >= s.nextUs
    ensures us !in Next(s, a).reused ==> us !in s.reused
  {
    OthersKeepFiles(s, a, us);
    OthersKeepRecord(s, a, us);
  }

  lemma OthersKeepFiles(s: State, a: Step, us: nat)
    requires Enabled(s, a) && !Concerns(a, us) && !a.Restart?
    ensures SameBundle(s.files, Next(s, a).files, us)
  {
    if EnvStep(a) { OthersKeepFilesEnv(s, a, us); }
    else if FirstHalf(a) { OthersKeepFilesEarly(s, a, us); }
    else if SecondHalf(a) { OthersKeepFilesLate(s, a, us); }
    else { OthersKeepFilesRest(s, a, us); }
  }

  lemma OthersKeepFilesEnv(s: State, a: Step, us: nat)
    requires EnvStep(a)
    requires Enabled(s, a) && !Concerns(a, us) && !a.Restart?
    ensures SameBundle(s.files, Next(s, a).files, us)
  {
    match a {
      case Boot(_, _) =>
      case GuestWrite(_, _, _) =>
      case Kill(_) =>
      case RemoveDir(_) =>
      case Start(_) =>
    }
  }

  lemma OthersKeepFilesEarly(s: State, a: Step, us: nat)
    requires FirstHalf(a)
    requires Enabled(s, a) && !Concerns(a, us) && !a.Restart?
    ensures SameBundle(s.files, Next(s, a).files, us)
  {
    match a {
      case DirFails(_) =>
      case Pause(_, _) =>
      case Clear(_, _) =>
      case BeginCapture(_) =>
      case EndCapture(_, _) =>
    }
  }

  lemma OthersKeepFilesLate(s: State, a: Step, us: nat)
    requires SecondHalf(a)
    requires Enabled(s, a) && !Concerns(a, us) && !a.Restart?
    ensures SameBundle(s.files, Next(s, a).files, us)
  {
    match a {
      case BeginCopy(_) =>
      case EndCopy(_, _, _) =>
      case BeginWrite(_) =>
      case EndWrite(_, _) =>
      case Rename(_, _) =>
      case Resume(_, _) =>
    }
  }

  lemma OthersKeepFilesRest(s: State, a: Step, us: nat)
    requires RestStep(a)
    requires Enabled(s, a) && !Concerns(a, us) && !a.Restart?
    ensures SameBundle(s.files, Next(s, a).files, us)
  {
    match a {
      case BeginRestore(_) =>
      case Clone(_, _, _) =>
      case Load(_, _, _) =>
      case Crash =>
    }
  }

  lemma OthersKeepRecord(s: State, a: Step, us: nat)
    requires Enabled(s, a) && !Concerns(a, us) && !a.Restart?
    ensures !(a.Start? && us == s.nextUs + 1) ==>
      (us in Next(s, a).creators <==> us in s.creators)
      && (us in s.creators ==> Next(s, a).creators[us] == s.creators[us])
    ensures Next(s, a).nextUs >= s.nextUs
    ensures us !in Next(s, a).reused ==> us !in s.reused
  {
    if EnvStep(a) { OthersKeepRecordEnv(s, a, us); }
    else if FirstHalf(a) { OthersKeepRecordEarly(s, a, us); }
    else if SecondHalf(a) { OthersKeepRecordLate(s, a, us); }
    else { OthersKeepRecordRest(s, a, us); }
  }

  lemma OthersKeepRecordEnv(s: State, a: Step, us: nat)
    requires EnvStep(a)
    requires Enabled(s, a) && !Concerns(a, us) && !a.Restart?
    ensures !(a.Start? && us == s.nextUs + 1) ==>
      (us in Next(s, a).creators <==> us in s.creators)
      && (us in s.creators ==> Next(s, a).creators[us] == s.creators[us])
    ensures Next(s, a).nextUs >= s.nextUs
    ensures us !in Next(s, a).reused ==> us !in s.reused
  {
    match a {
      case Boot(_, _) =>
      case GuestWrite(_, _, _) =>
      case Kill(_) =>
      case RemoveDir(_) =>
      case Start(_) =>
    }
  }

  lemma OthersKeepRecordEarly(s: State, a: Step, us: nat)
    requires FirstHalf(a)
    requires Enabled(s, a) && !Concerns(a, us) && !a.Restart?
    ensures !(a.Start? && us == s.nextUs + 1) ==>
      (us in Next(s, a).creators <==> us in s.creators)
      && (us in s.creators ==> Next(s, a).creators[us] == s.creators[us])
    ensures Next(s, a).nextUs >= s.nextUs
    ensures us !in Next(s, a).reused ==> us !in s.reused
  {
    match a {
      case DirFails(_) =>
      case Pause(_, _) =>
      case Clear(_, _) =>
      case BeginCapture(_) =>
      case EndCapture(_, _) =>
    }
  }

  lemma OthersKeepRecordLate(s: State, a: Step, us: nat)
    requires SecondHalf(a)
    requires Enabled(s, a) && !Concerns(a, us) && !a.Restart?
    ensures !(a.Start? && us == s.nextUs + 1) ==>
      (us in Next(s, a).creators <==> us in s.creators)
      && (us in s.creators ==> Next(s, a).creators[us] == s.creators[us])
    ensures Next(s, a).nextUs >= s.nextUs
    ensures us !in Next(s, a).reused ==> us !in s.reused
  {
    match a {
      case BeginCopy(_) =>
      case EndCopy(_, _, _) =>
      case BeginWrite(_) =>
      case EndWrite(_, _) =>
      case Rename(_, _) =>
      case Resume(_, _) =>
    }
  }

  lemma OthersKeepRecordRest(s: State, a: Step, us: nat)
    requires RestStep(a)
    requires Enabled(s, a) && !Concerns(a, us) && !a.Restart?
    ensures !(a.Start? && us == s.nextUs + 1) ==>
      (us in Next(s, a).creators <==> us in s.creators)
      && (us in s.creators ==> Next(s, a).creators[us] == s.creators[us])
    ensures Next(s, a).nextUs >= s.nextUs
    ensures us !in Next(s, a).reused ==> us !in s.reused
  {
    match a {
      case BeginRestore(_) =>
      case Clone(_, _, _) =>
      case Load(_, _, _) =>
      case Crash =>
    }
  }

  /** A call keeps its own bundle in order. */
  lemma OwnStep(s: State, a: Step, us: nat)
    requires Enabled(s, a) && Concerns(a, us)
    requires OnDisk(us, s.creators[us], s.files)
    ensures us in Next(s, a).creators && OnDisk(us, Next(s, a).creators[us], Next(s, a).files)
    ensures Next(s, a).reused == s.reused && Next(s, a).nextUs == s.nextUs
  {
    if Opens(a) { OwnStepOpen(s, a, us); }
    else if Captures(a) { OwnStepCapture(s, a, us); }
    else if Copies(a) { OwnStepCopy(s, a, us); }
    else { OwnStepFinish(s, a, us); }
  }

  lemma OwnStepOpen(s: State, a: Step, us: nat)
    requires Opens(a)
    requires Enabled(s, a) && Concerns(a, us)
    requires OnDisk(us, s.creators[us], s.files)
    ensures us in Next(s, a).creators && OnDisk(us, Next(s, a).creators[us], Next(s, a).files)
    ensures Next(s, a).reused == s.reused && Next(s, a).nextUs == s.nextUs
  {
    match a {
      case DirFails(_) =>
      case Pause(_, _) =>
      case Clear(_, _) =>
    }
  }

  lemma OwnStepCapture(s: State, a: Step, us: nat)
    requires Captures(a)
    requires Enabled(s, a) && Concerns(a, us)
    requires OnDisk(us, s.creators[us], s.files)
    ensures us in Next(s, a).creators && OnDisk(us, Next(s, a).creators[us], Next(s, a).files)
    ensures Next(s, a).reused == s.reused && Next(s, a).nextUs == s.nextUs
  {
    match a {
      case BeginCapture(_) =>
      case EndCapture(_, _) =>
    }
  }

  lemma OwnStepCopy(s: State, a: Step, us: nat)
    requires Copies(a)
    requires Enabled(s, a) && Concerns(a, us)
    requires OnDisk(us, s.creators[us], s.files)
    ensures us in Next(s, a).creators && OnDisk(us, Next(s, a).creators[us], Next(s, a).files)
    ensures Next(s, a).reused == s.reused && Next(s, a).nextUs == s.nextUs
  {
    match a {
      case BeginCopy(_) =>
      case EndCopy(_, _, _) =>
    }
  }

  lemma OwnStepFinish(s: State, a: Step, us: nat)
    requires Finishes(a)
    requires Enabled(s, a) && Concerns(a, us)
    requires OnDisk(us, s.creators[us], s.files)
    ensures us in Next(s, a).creators && OnDisk(us, Next(s, a).creators[us], Next(s, a).files)
    ensures Next(s, a).reused == s.reused && Next(s, a).nextUs == s.nextUs
  {
    match a {
      case BeginWrite(_) =>
      case EndWrite(_, _) =>
      case Rename(_, _) =>
      case Resume(_, _) =>
    }
  }

  lemma BundleStep(s: State, a: Step, us: nat)
    requires Enabled(s, a) && BundleInv(s, us)
    ensures BundleInv(Next(s, a), us)
  {
    var t := Next(s, a);
    if a.Restart? {
    } else if Concerns(a, us) {
      if us !in s.reused { OwnStep(s, a, us); } else { OwnRecord(s, a, us); }
    } else {
      OthersKeepOut(s, a, us);
      if us !in t.reused { SameStaysGood(s, t, a, us); }
    }
  }

  lemma OwnRecord(s: State, a: Step, us: nat)
    requires Enabled(s, a) && Concerns(a, us)
    ensures Next(s, a).reused == s.reused && Next(s, a).nextUs == s.nextUs
  {
    if FirstHalf(a) { OwnRecordEarly(s, a, us); }
    else { OwnRecordLate(s, a, us); }
  }

  lemma OwnRecordEarly(s: State, a: Step, us: nat)
    requires FirstHalf(a)
    requires Enabled(s, a) && Concerns(a, us)
    ensures Next(s, a).reused == s.reused && Next(s, a).nextUs == s.nextUs
  {
    match a {
      case DirFails(_) =>
      case Pause(_, _) =>
      case Clear(_, _) =>
      case BeginCapture(_) =>
      case EndCapture(_, _) =>
    }
  }

  lemma OwnRecordLate(s: State, a: Step, us: nat)
    requires SecondHalf(a)
    requires Enabled(s, a) && Concerns(a, us)
    ensures Next(s, a).reused == s.reused && Next(s, a).nextUs == s.nextUs
  {
    match a {
      case BeginCopy(_) =>
      case EndCopy(_, _, _) =>
      case BeginWrite(_) =>
      case EndWrite(_, _) =>
      case Rename(_, _) =>
      case Resume(_, _) =>
    }
  }

  lemma SameFiles(fs: Files, gs: Files, us: nat)
    requires SameBundle(fs, gs, us)
    ensures MetaFile(us) in fs <==> MetaFile(us) in gs
    ensures TmpFile(us) in fs <==> TmpFile(us) in gs
    ensures WholeMachine(fs, us) <==> WholeMachine(gs, us)
    ensures WholeDisk(fs, us) <==> WholeDisk(gs, us)
    ensures forall c :: OnDisk(us, c, fs) <==> OnDisk(us, c, gs)
  {
    assert StateFile(us) in fs <==> StateFile(us) in gs;
    assert MemFile(us) in fs <==> MemFile(us) in gs;
    assert DiskFile(us) in fs <==> DiskFile(us) in gs;
  }

  lemma SameStaysGood(s: State, t: State, a: Step, us: nat)
    requires BundleInv(s, us) && us !in s.reused && us !in t.reused
    requires Enabled(s, a) && !a.Restart? && t == Next(s, a)
    requires SameBundle(s.files, t.files, us) && t.nextUs >= s.nextUs
    requires !(a.Start? && us == s.nextUs + 1) ==>
      (us in t.creators <==> us in s.creators) && (us in s.creators ==> t.creators[us] == s.creators[us])
    ensures BundleInv(t, us)
  {
    SameFiles(s.files, t.files, us);
  }

  /** In a first lifetime on an empty store no id is visible before it is issued. */
  predicate FirstInv(s: State, us: nat) {
    s.lifetime == 1 ==>
      us !in s.reused && (MetaFile(us) in s.files || us in s.creators ==> us <= s.nextUs)
  }

  lemma FirstStep(s: State, a: Step, us: nat)
    requires Enabled(s, a) && FirstInv(s, us) && s.lifetime >= 1
    ensures FirstInv(Next(s, a), us) && Next(s, a).lifetime >= s.lifetime
  {
    if !a.Restart? {
      if Concerns(a, us) { OwnRecord(s, a, us); SameLifetime(s, a); }
      else { OthersKeepOut(s, a, us); SameLifetime(s, a); assert MetaFile(us) in s.files <==> MetaFile(us) in Next(s, a).files; }
    }
  }

  lemma SameLifetime(s: State, a: Step)
    requires Enabled(s, a) && !a.Restart?
    ensures Next(s, a).lifetime == s.lifetime
    ensures Next(s, a).reused == if a.Start? && MetaFile(s.nextUs + 1) in s.files then s.reused + {s.nextUs + 1} else s.reused
    ensures a.Start? ==> Next(s, a).files == s.files
  {
    match a {
      case Boot(_, _) =>
      case GuestWrite(_, _, _) =>
      case Kill(_) =>
      case RemoveDir(_) =>
      case Start(_) =>
      case DirFails(_) =>
      case Pause(_, _) =>
      case Clear(_, _) =>
      case BeginCapture(_) =>
      case EndCapture(_, _) =>
      case BeginCopy(_) =>
      case EndCopy(_, _, _) =>
      case BeginWrite(_) =>
      case EndWrite(_, _) =>
      case Rename(_, _) =>
      case Resume(_, _) =>
      case BeginRestore(_) =>
      case Clone(_, _, _) =>
      case Load(_, _, _) =>
      case Crash =>
    }
  }

  lemma CallStep(s: State, a: Step, us: nat)
    requires Enabled(s, a) && (us in s.creators ==> CallInv(s.creators[us]))
    ensures us in Next(s, a).creators ==> CallInv(Next(s, a).creators[us])
  {
    if a.Restart? {
    } else if Concerns(a, us) {
      OwnCall(s, a, us);
    } else if !(a.Start? && us == s.nextUs + 1) {
      OthersKeepOut(s, a, us);
    }
  }

  lemma OwnCall(s: State, a: Step, us: nat)
    requires Enabled(s, a) && Concerns(a, us) && CallInv(s.creators[us])
    ensures us in Next(s, a).creators && CallInv(Next(s, a).creators[us])
  {
    if FirstHalf(a) { OwnCallEarly(s, a, us); }
    else { OwnCallLate(s, a, us); }
  }

  lemma OwnCallEarly(s: State, a: Step, us: nat)
    requires FirstHalf(a)
    requires Enabled(s, a) && Concerns(a, us) && CallInv(s.creators[us])
    ensures us in Next(s, a).creators && CallInv(Next(s, a).creators[us])
  {
    match a {
      case DirFails(_) =>
      case Pause(_, _) =>
      case Clear(_, _) =>
      case BeginCapture(_) =>
      case EndCapture(_, _) =>
    }
  }

  lemma OwnCallLate(s: State, a: Step, us: nat)
    requires SecondHalf(a)
    requires Enabled(s, a) && Concerns(a, us) && CallInv(s.creators[us])
    ensures us in Next(s, a).creators && CallInv(Next(s, a).creators[us])
  {
    match a {
      case BeginCopy(_) =>
      case EndCopy(_, _, _) =>
      case BeginWrite(_) =>
      case EndWrite(_, _) =>
      case Rename(_, _) =>
      case Resume(_, _) =>
    }
  }

  // ------------------------------------------------------------- theorems

  lemma {:induction false} CommitInv(states: seq<State>, steps: seq<Step>, i: nat, us: nat)
    requires Behaviour(states, steps) && i < |states|
    ensures BundleInv(states[i], us) && FirstInv(states[i], us) && states[i].lifetime >= 1
    ensures us in states[i].creators ==> CallInv(states[i].creators[us])
    decreases i
  {
    if i > 0 {
      CommitInv(states, steps, i - 1, us);
      StepAt(states, steps, i - 1);
      BundleStep(states[i - 1], steps[i - 1], us);
      FirstStep(states[i - 1], steps[i - 1], us);
      CallStep(states[i - 1], steps[i - 1], us);
    }
  }

  lemma StepAt(states: seq<State>, steps: seq<Step>, i: nat)
    requires Run(states, steps) && i < |steps|
    ensures Enabled(states[i], steps[i]) && states[i + 1] == Next(states[i], steps[i])
  {
  }

  /** Commit point: at every moment of every run, with crashes, failures and restarts,
      a visible meta.json stands for a complete bundle, unless the id was used again
      while it was already visible. */
  lemma CommitPoint(states: seq<State>, steps: seq<Step>, i: nat, us: nat)
    requires Behaviour(states, steps) && i < |states|
    requires MetaFile(us) in states[i].files && us !in states[i].reused
    ensures Complete(states[i].files, us)
  {
    CommitInv(states, steps, i, us);
  }

  /** In the first lifetime no id is ever used again. */
  lemma FirstLifetimeCommits(states: seq<State>, steps: seq<Step>, i: nat, us: nat)
    requires Behaviour(states, steps) && i < |states| && states[i].lifetime == 1
    requires MetaFile(us) in states[i].files
    ensures Complete(states[i].files, us)
  {
    CommitInv(states, steps, i, us);
  }

  /** Every call that paused the guest and came back has sent a resume after that. */
  lemma PauseIsUndone(states: seq<State>, steps: seq<Step>, i: nat, us: nat)
    requires Behaviour(states, steps) && i < |states|
    requires us in states[i].creators && states[i].creators[us].pc == Returned
    ensures states[i].creators[us].pausedOk ==> states[i].creators[us].resumeSent
    ensures states[i].creators[us].resumeSent ==> states[i].creators[us].pausedOk
  {
    CommitInv(states, steps, i, us);
  }

  // ------------------------------------------------------- the next lifetime

  /** A run within one lifetime. */
  ghost predicate Leads(s: State, steps: seq<Step>, t: State)
    decreases |steps|
  {
    if steps == [] then s == t
    else Enabled(s, steps[0]) && !steps[0].Restart? && Leads(Next(s, steps[0]), steps[1..], t)
  }

  /** A bundle of this lifetime: its record is in order, and it is not visible without one. */
  predicate IssuedInv(s: State, us: nat) {
    && (us in s.creators ==> us <= s.nextUs && OnDisk(us, s.creators[us], s.files))
    && (MetaFile(us) in s.files ==> us in s.creators)
  }

  lemma IssuedStep(s: State, a: Step, us: nat)
    requires Enabled(s, a) && !a.Restart? && IssuedInv(s, us)
    ensures IssuedInv(Next(s, a), us)
  {
    var t := Next(s, a);
    if Concerns(a, us) {
      OwnStep(s, a, us);
    } else {
      OthersKeepOut(s, a, us);
      SameFiles(s.files, t.files, us);
      if a.Start? && us == s.nextUs + 1 { assert MetaFile(us) !in s.files; }
    }
  }

  lemma {:induction false} IssuedComplete(s: State, steps: seq<Step>, t: State, us: nat)
    requires IssuedInv(s, us) && Leads(s, steps, t)
    ensures MetaFile(us) in t.files ==> Complete(t.files, us)
    decreases |steps|
  {
    if steps != [] {
      IssuedStep(s, steps[0], us);
      IssuedComplete(Next(s, steps[0]), steps[1..], t, us);
    }
  }

  lemma LeadsOn(s: State, a: Step, rest: seq<Step>, t: State)
    requires Enabled(s, a) && !a.Restart? && Leads(Next(s, a), rest, t)
    ensures Leads(s, [a] + rest, t)
  {
    assert ([a] + rest)[1..] == rest;
  }

  predicate Incomplete(t: State, k: nat) { MetaFile(k) in t.files && !Complete(t.files, k) }

  /** Call k, once issued, pauses its guest and clears away the state file. */
  lemma ClearsVisible(s: State, k: nat) returns (steps: seq<Step>, t: State)
    requires At(s, k, Started) && Alive(s, s.creators[k].sb) && MetaFile(k) in s.files
    ensures Leads(s, steps, t) && Incomplete(t, k)
  {
    var p := Next(s, Pause(k, true));
    t := Next(p, Clear(k, {StateFile(k)}));
    assert Leads(t, [], t);
    LeadsOn(p, Clear(k, {StateFile(k)}), [], t);
    LeadsOn(s, Pause(k, true), [Clear(k, {StateFile(k)})], t);
    steps := [Pause(k, true)] + [Clear(k, {StateFile(k)})];
  }

  /** Issuing ids one after another reaches every k. */
  lemma {:induction false} IssuesUpTo(s: State, k: nat) returns (steps: seq<Step>, t: State)
    requires s.up && Alive(s, 1) && s.nextUs < k && MetaFile(k) in s.files
    ensures Leads(s, steps, t) && Incomplete(t, k)
    decreases k - s.nextUs
  {
    var n := Next(s, Start(1));
    var rest;
    if n.nextUs == k {
      rest, t := ClearsVisible(n, k);
    } else {
      rest, t := IssuesUpTo(n, k);
    }
    LeadsOn(s, Start(1), rest, t);
    steps := [Start(1)] + rest;
  }

  /** The condition of CommitPoint is needed: ids start again at us-1, so a store that
      shows us-k when the server starts can show it incomplete after k calls. */
  lemma ReuseBreaksCommit(s: State, k: nat) returns (steps: seq<Step>, t: State)
    requires !s.up && 1 <= k && MetaFile(k) in s.files
    ensures Leads(Next(s, Restart), steps, t) && Incomplete(t, k)
  {
    var r := Next(s, Restart);
    var b := Next(r, Boot(0, 0));
    var rest;
    rest, t := IssuesUpTo(b, k);
    LeadsOn(r, Boot(0, 0), rest, t);
    steps := [Boot(0, 0)] + rest;
  }

  ghost predicate KeepsComplete(r: State) {
    forall steps, t, k: nat :: Leads(r, steps, t) && 1 <= k ==> !Incomplete(t, k)
  }

  ghost predicate NoneVisible(s: State) {
    forall k: nat :: 1 <= k ==> MetaFile(k) !in s.files
  }

  /** Exactly when the next lifetime of a stopped server keeps every visible snapshot
      complete, whatever happens in it: when no issued id is visible at its start. */
  lemma NextLifetimeCommits(s: State)
    requires !s.up
    ensures KeepsComplete(Next(s, Restart)) <==> NoneVisible(s)
  {
    var r := Next(s, Restart);
    if NoneVisible(s) {
      forall steps, t, k: nat | Leads(r, steps, t) && 1 <= k ensures !Incomplete(t, k) {
        IssuedComplete(r, steps, t, k);
      }
    } else {
      var k: nat :| 1 <= k && MetaFile(k) in s.files;
      var steps, t := ReuseBreaksCommit(s, k);
      assert Leads(r, steps, t) && Incomplete(t, k);
    }
  }
}
