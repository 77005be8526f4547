/** runExec in the guest agent: a command, a waiter, two copiers, a timer and the main
    thread that joins them. */
module RunExec {

  type Bytes = seq<int>

  // ------------------------------------------------------------- the result

  /** What cmd.Wait reports. */
  datatype Status = Success | Exit(code: int) | WaitFailed(msg: string)

  datatype ExecResponse = ExecResponse(exitCode: int, stdout: Bytes, stderr: Bytes, timedOut: bool)

  datatype Fault = NoFault | Fault(msg: string)

  datatype Outcome = Outcome(resp: ExecResponse, err: Fault)

  const TIMED_OUT_CODE := 124
  const DEFAULT_LIMIT: nat := 0x10_0000

  /** The effective output limit per stream. */
  function Limit(maxOut: int): nat {
    if maxOut <= 0 then DEFAULT_LIMIT else maxOut
  }

  function ExitCode(timedOut: bool, s: Status): int {
    if timedOut then TIMED_OUT_CODE
    else match s
      case Success => 0
      case Exit(code) => code
      case WaitFailed(_) => 1
  }

  // ------------------------------------------------------------- the machine

  datatype Stream = Stream(
    written: Bytes,     // by the command and its descendants
    eof: bool,          // every writer has closed its end
    copied: Bytes,
    done: bool)         // the copier has signalled

  datatype Main = Selecting | Killing | AwaitKilled | JoinOut | JoinErr | Returned

  datatype State = State(
    limit: nat,
    exited: bool, status: Status,
    killed: bool,
    waited: bool,       // cmd.Wait returned: result in waitCh, read ends closed
    out: Stream, err: Stream,
    main: Main, timedOut: bool, waitErr: Status,
    result: Outcome)

  datatype Which = Out | Err

  datatype Step =
    | Write(w: Which, data: Bytes)
    | CloseWriters(w: Which)
    | ProcessExits(s: Status)
    | WaitReturns(s: Status)
    | Copy(w: Which, n: nat)
    | CopierEnds(w: Which)
    | SelectWait
    | SelectTimer
    | Kill
    | KilledWaited
    | OutJoined
    | ErrJoined

  const FRESH_STREAM := Stream([], false, [], false)

  function Init(maxOut: int): State {
    State(Limit(maxOut), false, Success, false, false, FRESH_STREAM, FRESH_STREAM,
          Selecting, false, Success, Outcome(ExecResponse(0, [], [], false), NoFault))
  }

  function At(s: State, w: Which): Stream {
    if w.Out? then s.out else s.err
  }

  function With(s: State, w: Which, t: Stream): State {
    if w.Out? then s.(out := t) else s.(err := t)
  }

  /** io.Copy ends at the limit, at end of file, or when the read end is closed on it. */
  predicate CanEnd(s: State, t: Stream) {
    |t.copied| == s.limit || (t.eof && t.copied == t.written) || s.waited
  }

  predicate Enabled(s: State, a: Step) {
    match a
    case Write(w, data) => !At(s, w).eof
    case CloseWriters(w) => true
    case ProcessExits(_) => !s.exited
    case WaitReturns(r) => s.exited && !s.waited && (r == s.status || r.WaitFailed?)
    case Copy(w, n) =>
      var t := At(s, w);
      !t.done && !s.waited && |t.copied| < n <= |t.written| && n <= s.limit
    case CopierEnds(w) => !At(s, w).done && CanEnd(s, At(s, w))
    case SelectWait => s.main == Selecting && s.waited
    case SelectTimer => s.main == Selecting
    case Kill => s.main == Killing
    case KilledWaited => s.main == AwaitKilled && s.waited
    case OutJoined => s.main == JoinOut && s.out.done
    case ErrJoined => s.main == JoinErr && s.err.done
  }

  function Result(s: State): Outcome {
    Outcome(
      ExecResponse(ExitCode(s.timedOut, s.waitErr), s.out.copied, s.err.copied, s.timedOut),
      if !s.timedOut && s.waitErr.WaitFailed? then Fault(s.waitErr.msg) else NoFault)
  }

  function Next(s: State, a: Step): State
    requires Enabled(s, a)
  {
    match a
    case Write(w, data) => var t := At(s, w); With(s, w, t.(written := t.written + data))
    case CloseWriters(w) => With(s, w, At(s, w).(eof := true))
    case ProcessExits(r) => s.(exited := true, status := r)
    case WaitReturns(r) => s.(waited := true, status := r)
    case Copy(w, n) => var t := At(s, w); With(s, w, t.(copied := t.written[..n]))
    case CopierEnds(w) => With(s, w, At(s, w).(done := true))
    case SelectWait => s.(main := JoinOut, waitErr := s.status)
    case SelectTimer => s.(main := Killing, timedOut := true)
    case Kill => s.(main := AwaitKilled, killed := true)
    case KilledWaited => s.(main := JoinOut, waitErr := Success)
    case OutJoined => s.(main := JoinErr)
    case ErrJoined => s.(main := Returned, result := Result(s))
  }

  ghost predicate Run(s: State, steps: seq<Step>, t: State)
    decreases |steps|
  {
    if steps == [] then s == t
    else Enabled(s, steps[0]) && Run(Next(s, steps[0]), steps[1..], t)
  }

  ghost predicate Reachable(maxOut: int, s: State) {
    exists steps :: Run(Init(maxOut), steps, s)
  }

  // ------------------------------------------------------------- invariant

  predicate StreamInv(s: State, t: Stream) {
    && t.copied <= t.written
    && |t.copied| <= s.limit
    && (t.done ==> CanEnd(s, t))
  }

  predicate Streams(s: State) { StreamInv(s, s.out) && StreamInv(s, s.err) }

  predicate Joined(s: State) {
    && (s.waited ==> s.exited)
    && (s.main in {JoinOut, JoinErr, Returned} ==> s.waited)
    && (s.main in {JoinErr, Returned} ==> s.out.done)
    && (s.main == Returned ==> s.err.done && s.result == Result(s))
  }

  predicate Timed(s: State) {
    && (s.timedOut <==> s.main in {Killing, AwaitKilled} || s.killed)
    && (s.main in {Selecting, Killing} ==> !s.killed)
    && (s.main == AwaitKilled ==> s.killed)
    && (s.main in {JoinOut, JoinErr, Returned} && !s.timedOut ==> s.waitErr == s.status)
  }

  predicate Inv(s: State) { Streams(s) && Joined(s) && Timed(s) }

  lemma NextInv(s: State, a: Step)
    requires Inv(s) && Enabled(s, a)
    ensures Inv(Next(s, a))
  {
    NextStreams(s, a);
    NextJoined(s, a);
    NextTimed(s, a);
  }

  lemma NextStreams(s: State, a: Step)
    requires Streams(s) && Enabled(s, a)
    ensures Streams(Next(s, a))
  {
    NextStream(s, a, Out);
    NextStream(s, a, Err);
  }

  lemma NextStream(s: State, a: Step, w: Which)
    requires StreamInv(s, At(s, w)) && Enabled(s, a)
    ensures StreamInv(Next(s, a), At(Next(s, a), w))
  {
    if Works(a, w) { WorkedStream(s, a, w); } else { RestingStream(s, a, w); }
  }

  /** Steps on the stream itself. */
  predicate Works(a: Step, w: Which) {
    (a.Write? || a.CloseWriters? || a.Copy? || a.CopierEnds?) && a.w == w
  }

  lemma WorkedStream(s: State, a: Step, w: Which)
    requires StreamInv(s, At(s, w)) && Enabled(s, a) && Works(a, w)
    ensures StreamInv(Next(s, a), At(Next(s, a), w))
  {
    match a {
      case Write(_, _) =>
      case CloseWriters(_) =>
      case Copy(_, _) =>
      case CopierEnds(_) =>
    }
  }

  lemma RestingStream(s: State, a: Step, w: Which)
    requires Enabled(s, a) && !Works(a, w)
    ensures At(Next(s, a), w) == At(s, w) && Next(s, a).limit == s.limit && (s.waited ==> Next(s, a).waited)
  {
  }

  lemma NextJoined(s: State, a: Step)
    requires Joined(s) && Enabled(s, a)
    ensures Joined(Next(s, a))
  {
  }

  lemma NextTimed(s: State, a: Step)
    requires Joined(s) && Timed(s) && Enabled(s, a)
    ensures Timed(Next(s, a))
  {
  }

  lemma {:induction false} RunInv(s: State, steps: seq<Step>, t: State)
    requires Inv(s) && Run(s, steps, t)
    ensures Inv(t) && t.limit == s.limit
    decreases |steps|
  {
    if steps != [] {
      NextInv(s, steps[0]);
      RunInv(Next(s, steps[0]), steps[1..], t);
    }
  }

  lemma ReachableInv(maxOut: int, s: State)
    requires Reachable(maxOut, s)
    ensures Inv(s) && s.limit == Limit(maxOut)
  {
    var steps :| Run(Init(maxOut), steps, s);
    RunInv(Init(maxOut), steps, s);
  }

  // ------------------------------------------------------------- theorems

  /** The join: a result exists only when process, waiter and both copiers are through;
      each output is a prefix of what was written, within the limit; a timed-out run
      was killed and reports 124 without error; any other reports the command's own exit
      code without error, or 1 and Wait's error when Wait failed. */
  lemma JoinTheorem(maxOut: int, s: State)
    requires Reachable(maxOut, s) && s.main == Returned
    ensures s.exited && s.waited && s.out.done && s.err.done
    ensures s.limit == if maxOut <= 0 then 1048576 else maxOut
    ensures s.result.resp.stdout <= s.out.written && s.result.resp.stderr <= s.err.written
    ensures |s.result.resp.stdout| <= s.limit && |s.result.resp.stderr| <= s.limit
    ensures s.result.resp.timedOut <==> s.killed
    ensures s.killed ==> s.result.resp.exitCode == 124 && s.result.err == NoFault
    ensures !s.killed ==>
      match s.status
      case Success => s.result.resp.exitCode == 0 && s.result.err == NoFault
      case Exit(code) => s.result.resp.exitCode == code && s.result.err == NoFault
      case WaitFailed(m) => s.result.resp.exitCode == 1 && s.result.err == Fault(m)
  {
    ReachableInv(maxOut, s);
  }

  /** Nothing changes under a returned result: no worker writes to it any more. */
  lemma {:induction false} ResultFrozen(maxOut: int, s: State, steps: seq<Step>, t: State)
    requires Reachable(maxOut, s) && s.main == Returned && Run(s, steps, t)
    ensures t.main == Returned && t.result == s.result
    ensures t.out.copied == s.out.copied && t.err.copied == s.err.copied
  {
    ReachableInv(maxOut, s);
    FrozenFrom(s, steps, t);
  }

  lemma {:induction false} FrozenFrom(s: State, steps: seq<Step>, t: State)
    requires Inv(s) && s.main == Returned && Run(s, steps, t)
    ensures t.main == Returned && t.result == s.result
    ensures t.out.copied == s.out.copied && t.err.copied == s.err.copied
    decreases |steps|
  {
    if steps != [] {
      NextInv(s, steps[0]);
      FrozenFrom(Next(s, steps[0]), steps[1..], t);
    }
  }

  // The outputs need not be complete: cmd.Wait closes the read ends as soon as the
  // process is gone, and a copier that has not caught up is cut off.

  /** Everything, or the first `limit` bytes of it. */
  function Whole(limit: nat, written: Bytes): Bytes {
    if |written| <= limit then written else written[..limit]
  }

  /** Output is complete whenever its copier finished before Wait returned. */
  lemma WholeWhenCopierFirst(maxOut: int, s: State, steps: seq<Step>, t: State)
    requires Reachable(maxOut, s) && !s.waited
    requires Run(s, steps, t) && t.main == Returned
    ensures s.out.done ==> t.result.resp.stdout == Whole(Limit(maxOut), t.out.written)
    ensures s.err.done ==> t.result.resp.stderr == Whole(Limit(maxOut), t.err.written)
  {
    ReachableInv(maxOut, s);
    RunInv(s, steps, t);
    if s.out.done { DeliveredFrom(s, Out, steps, t); }
    if s.err.done { DeliveredFrom(s, Err, steps, t); }
  }

  predicate Delivered(s: State, t: Stream) {
    t.done && (|t.copied| == s.limit || (t.eof && t.copied == t.written))
  }

  lemma {:induction false} DeliveredFrom(s: State, w: Which, steps: seq<Step>, t: State)
    requires Delivered(s, At(s, w)) && Run(s, steps, t)
    ensures Delivered(t, At(t, w))
    decreases |steps|
  {
    if steps != [] {
      DeliveredNext(s, w, steps[0]);
      DeliveredFrom(Next(s, steps[0]), w, steps[1..], t);
    }
  }

  lemma DeliveredNext(s: State, w: Which, a: Step)
    requires Delivered(s, At(s, w)) && Enabled(s, a)
    ensures Delivered(Next(s, a), At(Next(s, a), w))
  {
  }

  lemma {:induction false} NothingCopiedAfterWait(s: State, steps: seq<Step>, t: State)
    requires s.waited && Run(s, steps, t)
    ensures t.waited && t.out.copied == s.out.copied && t.err.copied == s.err.copied
    decreases |steps|
  {
    if steps != [] {
      StillWaited(s, steps[0]);
      NothingCopiedAfterWait(Next(s, steps[0]), steps[1..], t);
    }
  }

  lemma StillWaited(s: State, a: Step)
    requires s.waited && Enabled(s, a)
    ensures var n := Next(s, a); n.waited && n.out.copied == s.out.copied && n.err.copied == s.err.copied
  {
  }

  /** Exactly when a stream comes back whole: when all of it, up to the limit, had been
      copied at the moment Wait returned. */
  lemma WholeIffCopiedAtWait(maxOut: int, s: State, r: Status, steps: seq<Step>, t: State)
    requires Reachable(maxOut, s) && Enabled(s, WaitReturns(r))
    requires Run(Next(s, WaitReturns(r)), steps, t) && t.main == Returned
    ensures t.result.resp.stdout == Whole(Limit(maxOut), t.out.written)
            <==> s.out.copied == Whole(Limit(maxOut), t.out.written)
    ensures t.result.resp.stderr == Whole(Limit(maxOut), t.err.written)
            <==> s.err.copied == Whole(Limit(maxOut), t.err.written)
  {
    ReachableInv(maxOut, s);
    var n := Next(s, WaitReturns(r));
    NextInv(s, WaitReturns(r));
    RunInv(n, steps, t);
    NothingCopiedAfterWait(n, steps, t);
  }

  /** Every run with a result has that moment. */
  lemma {:induction false} WaitHappens(s: State, steps: seq<Step>, t: State) returns (k: nat, m: State)
    requires !s.waited && t.waited && Run(s, steps, t)
    ensures k < |steps| && steps[k].WaitReturns? && Run(s, steps[..k], m)
    ensures Enabled(m, steps[k]) && Run(Next(m, steps[k]), steps[k + 1..], t)
    decreases |steps|
  {
    var a := steps[0];
    if a.WaitReturns? {
      k, m := 0, s;
    } else {
      OnlyWaitWaits(s, a);
      var j;
      j, m := WaitHappens(Next(s, a), steps[1..], t);
      k := j + 1;
      assert steps[..k][0] == a && steps[..k][1..] == steps[1..][..j];
      assert steps[1..][j + 1..] == steps[k + 1..];
    }
  }

  lemma OnlyWaitWaits(s: State, a: Step)
    requires Enabled(s, a) && !a.WaitReturns?
    ensures Next(s, a).waited == s.waited
  {
  }

  /** A command that wrote one byte, succeeded and was not timed out can come back with
      no output at all. */
  lemma OutputCanBeLost(b: int)
    ensures exists s ::
      && Reachable(0, s) && s.main == Returned && s.out.eof && s.out.written == [b]
      && s.result == Outcome(ExecResponse(0, [], [], false), NoFault)
  {
    var s := LostOutput(b);
    s := Reach(0, s, CopierEnds(Err));
    s := Reach(0, s, SelectWait);
    s := Reach(0, s, OutJoined);
    s := Reach(0, s, ErrJoined);
  }

  lemma LostOutput(b: int) returns (s: State)
    ensures Reachable(0, s)
    ensures s == Init(0).(exited := true, waited := true, out := Stream([b], true, [], true))
  {
    s := Init(0);
    assert Run(s, [], s);
    s := Reach(0, s, Write(Out, [b]));
    s := Reach(0, s, CloseWriters(Out));
    s := Reach(0, s, ProcessExits(Success));
    s := Reach(0, s, WaitReturns(Success));
    s := Reach(0, s, CopierEnds(Out));
  }

  lemma Reach(maxOut: int, s: State, a: Step) returns (t: State)
    requires Reachable(maxOut, s) && Enabled(s, a)
    ensures t == Next(s, a) && Reachable(maxOut, t)
  {
    t := Next(s, a);
    var steps :| Run(Init(maxOut), steps, s);
    RunThen(Init(maxOut), steps, s, a);
    assert Run(Init(maxOut), steps + [a], t);
  }

  lemma {:induction false} RunThen(r: State, steps: seq<Step>, s: State, a: Step)
    requires Run(r, steps, s) && Enabled(s, a)
    ensures Run(r, steps + [a], Next(s, a))
    decreases |steps|
  {
    if steps == [] {
      assert ([a])[1..] == [];
      assert [] + [a] == [a];
    } else {
      RunThen(Next(r, steps[0]), steps[1..], s, a);
      assert (steps + [a])[0] == steps[0] && (steps + [a])[1..] == steps[1..] + [a];
    }
  }

  // ------------------------------------------------------------- progress

  function MainLeft(m: Main): nat {
    match m
    case Selecting => 5
    case Killing => 4
    case AwaitKilled => 3
    case JoinOut => 2
    case JoinErr => 1
    case Returned => 0
  }

  /** Steps the agent and the exiting process still have to take, copying aside. */
  function Left(s: State): nat {
    MainLeft(s.main) + (if s.exited then 0 else 1) + (if s.waited then 0 else 1)
    + (if s.out.done then 0 else 1) + (if s.err.done then 0 else 1)
  }

  /** Steps that are bound to come: those of the agent's threads, the timer, and the end
      of a process that has been sent SIGKILL.  Copying is bounded by the limit. */
  predicate Bound(s: State, a: Step) {
    !a.Write? && !a.CloseWriters? && !a.Copy? && (a.ProcessExits? ==> s.killed)
  }

  /** The join cannot deadlock: no step adds to the work left, every bound step takes
      some away, and until the result is out a bound step is possible, even when the
      command ignores everything and outsiders keep the pipes open. */
  lemma NoDeadlock(maxOut: int, s: State)
    requires Reachable(maxOut, s)
    ensures forall a :: Enabled(s, a) ==>
      Left(Next(s, a)) <= Left(s) && (Bound(s, a) ==> Left(Next(s, a)) < Left(s))
    ensures s.main != Returned ==> exists a :: Enabled(s, a) && Bound(s, a)
  {
    ReachableInv(maxOut, s);
    forall a | Enabled(s, a)
      ensures Left(Next(s, a)) <= Left(s) && (Bound(s, a) ==> Left(Next(s, a)) < Left(s))
    {
      LeftShrinks(s, a);
    }
    if s.main != Returned {
      var a := match s.main
        case Selecting => SelectTimer
        case Killing => Kill
        case AwaitKilled =>
          if !s.exited then ProcessExits(Exit(-1)) else if !s.waited then WaitReturns(s.status) else KilledWaited
        case JoinOut => if s.out.done then OutJoined else CopierEnds(Out)
        case _ => if s.err.done then ErrJoined else CopierEnds(Err);
      assert Enabled(s, a) && Bound(s, a);
    }
  }

  lemma LeftShrinks(s: State, a: Step)
    requires Inv(s) && Enabled(s, a)
    ensures Left(Next(s, a)) <= Left(s)
    ensures Bound(s, a) ==> Left(Next(s, a)) < Left(s)
  {
  }
}
