/** Who can leave a guest paused, and what overlapping snapshot calls do to a bundle. */
module UserSnapshotOverlap {
  import opened UserSnapshots
  import opened UserSnapshotCommit
  import opened UserSnapshotFidelity

  // ------------------------------------------------------------- left paused

  /** A call that accounts for its guest being paused: still at work on it, or back with
      every one of its resumes refused. */
  predicate Blamed(s: State, us: nat, sb: nat) {
    us in s.creators && s.creators[us].sb == sb
    && (Holding(s.creators[us]) || (s.creators[us].pausedOk && !s.creators[us].resumedOk))
  }

  ghost predicate PausedInv(s: State, sb: nat) {
    Alive(s, sb) && s.vms[sb].paused ==> exists us :: Blamed(s, us, sb)
  }

  lemma BlameStays(s: State, a: Step, us: nat, sb: nat)
    requires Enabled(s, a) && !a.Restart? && Blamed(s, us, sb) && us <= s.nextUs
    requires CallInv(s.creators[us])
    ensures Blamed(Next(s, a), us, sb) || (Alive(Next(s, a), sb) && !Next(s, a).vms[sb].paused)
  {
    if !Concerns(a, us) {
      OthersKeepOut(s, a, us);
    } else {
      match a {
        case DirFails(_) =>
        case Pause(_, _) =>
        case Clear(_, _) =>
        case BeginCapture(_) =>
        case EndCapture(_, _) =>
        case BeginCopy(_) =>
        case EndCopy(_, _, _) =>
        case BeginWrite(_) =>
        case EndWrite(_, _) =>
        case Rename(_, _) =>
        case Resume(_, _) =>
      }
    }
  }

  /** Only a successful pause makes a guest paused. */
  lemma OnlyPausePauses(s: State, a: Step, sb: nat)
    requires Enabled(s, a)
    requires Alive(Next(s, a), sb) && Next(s, a).vms[sb].paused
    ensures (Alive(s, sb) && s.vms[sb].paused && !a.Restart?) || (a.Pause? && a.ok && Blamed(Next(s, a), a.us, sb))
  {
  }

  /** A live guest is never left paused by calls that returned with a resume accepted:
      whenever one is paused, some call is at work on it or had its last resume refused.
      Overlapping calls included. */
  lemma {:induction false} NeverLeftPaused(states: seq<State>, steps: seq<Step>, i: nat, sb: nat)
    requires Behaviour(states, steps) && i < |states|
    ensures PausedInv(states[i], sb)
    decreases i
  {
    if i > 0 && Alive(states[i], sb) && states[i].vms[sb].paused {
      StepAt(states, steps, i - 1);
      var s, a := states[i - 1], steps[i - 1];
      OnlyPausePauses(s, a, sb);
      if !(a.Pause? && a.ok && Blamed(states[i], a.us, sb)) {
        NeverLeftPaused(states, steps, i - 1, sb);
        var us :| Blamed(s, us, sb);
        CommitInv(states, steps, i - 1, us);
        BlameStays(s, a, us, sb);
      }
    }
  }

  // ------------------------------------------------- runs free of further shaking

  /** A continuation in the same lifetime in which no other call resumes the guest of us
      while us is saving it. */
  ghost predicate CalmRun(s: State, us: nat, steps: seq<Step>, t: State)
    decreases |steps|
  {
    if steps == [] then s == t
    else
      var a := steps[0];
      Enabled(s, a) && !a.Restart? && !Shakes(s, a, us) && CalmRun(Next(s, a), us, steps[1..], t)
  }

  lemma {:induction false} CalmKeeps(s: State, us: nat, steps: seq<Step>, t: State)
    requires World(s) && CallOk(s, us) && CalmRun(s, us, steps, t)
    ensures World(t) && CallOk(t, us)
    decreases |steps|
  {
    if steps != [] {
      WorldStep(s, steps[0]);
      CallStepOk(s, steps[0], us);
      CalmKeeps(Next(s, steps[0]), us, steps[1..], t);
    }
  }

  lemma Calmly(s: State, us: nat, a: Step, rest: seq<Step>, t: State)
    requires Enabled(s, a) && !a.Restart? && !a.Resume? && CalmRun(Next(s, a), us, rest, t)
    ensures CalmRun(s, us, [a] + rest, t)
  {
    assert ([a] + rest)[1..] == rest;
  }

  /** Visible, but not the guest of its pause. */
  predicate Spoilt(t: State, us: nat) {
    MetaFile(us) in t.files && us in t.creators && !Faithful(t, us)
  }

  ghost predicate CanSpoil(s: State, us: nat) {
    exists steps, t :: CalmRun(s, us, steps, t) && Spoilt(t, us)
  }

  lemma CanSpoilBy(s: State, a: Step, us: nat)
    requires Enabled(s, a) && !a.Restart? && !a.Resume? && CanSpoil(Next(s, a), us)
    ensures CanSpoil(s, us)
  {
    var rest, t :| CalmRun(Next(s, a), us, rest, t) && Spoilt(t, us);
    Calmly(s, us, a, rest, t);
  }

  // ------------------------------------------- from a shaken call to a false snapshot

  /** What a call has saved so far is not what it found at its pause. */
  predicate Wrong(s: State, us: nat) {
    us in s.creators
    && (Look(s.files, StateFile(us)) != Machine(s.creators[us].machine0)
        || (PastCopy(s.creators[us].pc) && Look(s.files, DiskFile(us)) != s.creators[us].disk0))
  }

  lemma FinishWrong(s: State, us: nat)
    requires At(s, us, Copied) && Wrong(s, us)
    ensures CanSpoil(s, us)
  {
    var b := Next(s, BeginWrite(us));
    RenameWrong(Next(b, EndWrite(us, true)), us);
    CanSpoilBy(b, EndWrite(us, true), us);
    CanSpoilBy(s, BeginWrite(us), us);
  }

  lemma RenameWrong(s: State, us: nat)
    requires At(s, us, Written) && Wrong(s, us) && TmpFile(us) in s.files
    ensures CanSpoil(s, us)
  {
    var t := Next(s, Rename(us, true));
    assert CalmRun(t, us, [], t) && Spoilt(t, us);
    CanSpoilBy(s, Rename(us, true), us);
  }

  /** The guest of us, moved on since the pause. */
  predicate MovedOn(s: State, us: nat) {
    && us in s.creators && s.creators[us].sb in s.vms
    && var sb := s.creators[us].sb;
      && s.vms[sb].alive && s.vms[sb].machine != s.creators[us].machine0
      && Rootfs(sb) in s.files && s.files[Rootfs(sb)].Disk? && s.files[Rootfs(sb)] != s.creators[us].disk0
  }

  lemma CopyMoved(s: State, us: nat)
    requires At(s, us, Captured) && MovedOn(s, us)
    ensures CanSpoil(s, us)
  {
    var b := Next(s, BeginCopy(us));
    var e := Next(b, EndCopy(us, true, 0));
    FinishWrong(e, us);
    CanSpoilBy(b, EndCopy(us, true, 0), us);
    CanSpoilBy(s, BeginCopy(us), us);
  }

  lemma EndCopyMoved(s: State, us: nat)
    requires At(s, us, Copying) && MovedOn(s, us) && s.vms[s.creators[us].sb].epoch != s.creators[us].from
    ensures CanSpoil(s, us)
  {
    var a := EndCopy(us, true, s.files[Rootfs(s.creators[us].sb)].d);
    FinishWrong(Next(s, a), us);
    CanSpoilBy(s, a, us);
  }

  lemma CaptureMoved(s: State, us: nat)
    requires At(s, us, Capturing) && MovedOn(s, us) && s.vms[s.creators[us].sb].paused
    ensures CanSpoil(s, us)
  {
    var c := Next(s, EndCapture(us, true));
    CopyMoved(c, us);
    CanSpoilBy(s, EndCapture(us, true), us);
  }

  lemma BeforeCapture(s: State, us: nat)
    requires (At(s, us, Paused) || At(s, us, Cleared) || At(s, us, Capturing)) && MovedOn(s, us)
    requires s.vms[s.creators[us].sb].paused
    ensures CanSpoil(s, us)
  {
    if At(s, us, Capturing) {
      CaptureMoved(s, us);
    } else if At(s, us, Cleared) {
      CaptureMoved(Next(s, BeginCapture(us)), us);
      CanSpoilBy(s, BeginCapture(us), us);
    } else {
      var c := Next(s, Clear(us, {}));
      CaptureMoved(Next(c, BeginCapture(us)), us);
      CanSpoilBy(c, BeginCapture(us), us);
      CanSpoilBy(s, Clear(us, {}), us);
    }
  }

  /** A third call pauses the guest again, so that the first can capture it late. */
  lemma PausedAgain(s: State, us: nat)
    requires At(s, us, Paused) || At(s, us, Cleared) || At(s, us, Capturing)
    requires MovedOn(s, us) && us <= s.nextUs
    ensures CanSpoil(s, us)
  {
    var sb := s.creators[us].sb;
    var w := s.nextUs + 1;
    var b := Next(s, Start(sb));
    var p := Next(b, Pause(w, true));
    BeforeCapture(p, us);
    CanSpoilBy(b, Pause(w, true), us);
    CanSpoilBy(s, Start(sb), us);
  }

  /** Once it is resumed, the guest may move on. */
  lemma ShakenCanSpoil(s: State, a: Step, us: nat)
    requires World(s) && CallOk(s, us) && Enabled(s, a) && Shakes(s, a, us)
    ensures CanSpoil(Next(s, a), us)
  {
    assert CallerOk(s, us);
    var c := s.creators[us];
    var r := Next(s, a);
    var g := GuestWrite(c.sb, c.machine0 + 1, c.disk0.d + 1);
    var n := Next(r, g);
    assert n.creators[us] == c && MovedOn(n, us);
    if c.pc.Captured? {
      CopyMoved(n, us);
    } else if c.pc.Copying? {
      EndCopyMoved(n, us);
    } else {
      PausedAgain(n, us);
    }
    CanSpoilBy(r, g, us);
  }

  /** The exact guard of fidelity.  Take a call whose guest no other has resumed so far
      while it saves.  After a step a visible snapshot other than the guest of its pause
      can come about, with no further such resume, if and only if that step is one. */
  lemma ResumeIsTheGuard(states: seq<State>, steps: seq<Step>, us: nat, a: Step)
    requires Behaviour(states, steps) && states[|steps|].lifetime == 1
    requires Unshaken(states, steps, |steps|, us)
    requires Enabled(states[|steps|], a) && !a.Restart?
    ensures CanSpoil(Next(states[|steps|], a), us) <==> Shakes(states[|steps|], a, us)
  {
    var s := states[|steps|];
    WorldInv(states, steps, |steps|);
    CallInvariant(states, steps, |steps|, us);
    if Shakes(s, a, us) {
      ShakenCanSpoil(s, a, us);
    } else {
      WorldStep(s, a);
      CallStepOk(s, a, us);
      forall more, t | CalmRun(Next(s, a), us, more, t) ensures !Spoilt(t, us) {
        CalmKeeps(Next(s, a), us, more, t);
        if MetaFile(us) in t.files { VisibleIsFaithful(t, us); }
      }
    }
  }

  // ------------------------------------------------------------- such a run exists

  // Two calls on one sandbox: the failing one resumes the guest under the other.

  ghost predicate Reachable(s: State) {
    exists states, steps :: Behaviour(states, steps) && states[|steps|] == s
  }

  lemma Reach(s: State, a: Step) returns (t: State)
    requires Reachable(s) && Enabled(s, a)
    ensures t == Next(s, a) && Reachable(t)
  {
    t := Next(s, a);
    var states, steps :| Behaviour(states, steps) && states[|steps|] == s;
    var more, all := states + [t], steps + [a];
    forall i {:trigger all[i]} | 0 <= i < |all| ensures Goes(more[i], all[i], more[i + 1]) {
      if i < |steps| { assert Goes(states[i], steps[i], states[i + 1]); }
    }
    assert Behaviour(more, all) && more[|all|] == t;
  }

  /** Sandbox 1, and calls 1 and 2 on it, how far they are. */
  predicate TwoCalls(s: State, first: Pc, second: Pc, v: Vm, disk: int) {
    && s.up && s.lifetime == 1 && 1 in s.creators && 2 in s.creators
    && s.creators[1].sb == 1 && s.creators[1].pc == first
    && s.creators[2].sb == 1 && s.creators[2].pc == second
    && 1 in s.vms && s.vms[1] == v
    && Rootfs(1) in s.files && s.files[Rootfs(1)] == Disk(disk)
  }

  lemma TwoStarted() returns (s: State)
    ensures Reachable(s) && TwoCalls(s, Started, Started, Vm(1, 0, false, true), 1)
  {
    s := INIT;
    var none: seq<Step> := [];
    assert Behaviour([INIT], none) && [INIT][|none|] == INIT;
    s := Reach(s, Boot(1, 1));
    s := Reach(s, Start(1));
    s := Reach(s, Start(1));
  }

  /** Both have paused it, and the first has captured its memory. */
  lemma FirstCaptured() returns (s: State)
    ensures Reachable(s) && TwoCalls(s, Captured, Paused, Vm(1, 0, true, true), 1)
    ensures Look(s.files, StateFile(1)) == Look(s.files, MemFile(1)) == Machine(1)
    ensures s.creators[1].machine0 == 1 && s.creators[1].disk0 == Disk(1)
  {
    s := TwoStarted();
    s := Reach(s, Pause(1, true));
    s := Reach(s, Pause(2, true));
    assert TwoCalls(s, Paused, Paused, Vm(1, 0, true, true), 1);
    s := Reach(s, Clear(1, {}));
    s := Reach(s, BeginCapture(1));
    s := Reach(s, EndCapture(1, true));
  }

  lemma SecondFails() returns (s: State)
    ensures Reachable(s) && TwoCalls(s, Captured, Failing, Vm(1, 0, true, true), 1)
    ensures Look(s.files, StateFile(1)) == Look(s.files, MemFile(1)) == Machine(1)
    ensures s.creators[1].machine0 == 1 && s.creators[1].disk0 == Disk(1)
  {
    s := FirstCaptured();
    s := Reach(s, Clear(2, {}));
    s := Reach(s, BeginCapture(2));
    s := Reach(s, EndCapture(2, false));
  }

  /** A reachable moment at which a call is about to resume the guest under another. */
  lemma ShakeHappens() returns (s: State)
    ensures Reachable(s) && Enabled(s, Resume(2, true)) && Shakes(s, Resume(2, true), 1)
    ensures CanSpoil(Next(s, Resume(2, true)), 1)
  {
    s := SecondFails();
    var states, steps :| Behaviour(states, steps) && states[|steps|] == s;
    CommitInv(states, steps, |steps|, 1);
    WorldInv(states, steps, |steps|);
    ShakenCanSpoil(s, Resume(2, true), 1);
  }

  /** The second call resumes the guest, which writes. */
  lemma GuestMoves() returns (s: State)
    ensures Reachable(s) && TwoCalls(s, Captured, Returned, Vm(2, 1, false, true), 2)
    ensures Look(s.files, StateFile(1)) == Look(s.files, MemFile(1)) == Machine(1)
  {
    s := SecondFails();
    s := Reach(s, Resume(2, true));
    s := Reach(s, GuestWrite(1, 2, 2));
  }

  lemma FirstCopied() returns (s: State)
    ensures Reachable(s) && At(s, 1, Copied)
    ensures Look(s.files, StateFile(1)) == Look(s.files, MemFile(1)) == Machine(1)
    ensures Look(s.files, DiskFile(1)) == Disk(2)
  {
    s := GuestMoves();
    s := Reach(s, BeginCopy(1));
    s := Reach(s, EndCopy(1, true, 0));
  }

  lemma FirstCommits() returns (s: State)
    ensures Reachable(s) && MetaFile(1) in s.files && s.files[MetaFile(1)] == OwnMeta(1)
    ensures Look(s.files, StateFile(1)) == Look(s.files, MemFile(1)) == Machine(1)
    ensures Look(s.files, DiskFile(1)) == Disk(2)
  {
    s := FirstWritten();
    s := Reach(s, Rename(1, true));
  }

  lemma FirstWritten() returns (s: State)
    ensures Reachable(s) && At(s, 1, Written) && Look(s.files, TmpFile(1)) == OwnMeta(1)
    ensures Look(s.files, StateFile(1)) == Look(s.files, MemFile(1)) == Machine(1)
    ensures Look(s.files, DiskFile(1)) == Disk(2)
  {
    s := FirstCopied();
    s := Reach(s, BeginWrite(1));
    s := Reach(s, EndWrite(1, true));
  }

  /** And its end: a visible, complete snapshot whose memory is from
      before the guest's write and whose disk is from after it. */
  lemma OverlapBreaksFidelity() returns (s: State)
    ensures Reachable(s) && Complete(s.files, 1)
    ensures s.files[StateFile(1)] == Machine(1) && s.files[DiskFile(1)] == Disk(2)
  {
    s := FirstCommits();
  }
}
