/** /exec over the persistent agent connection: dial when there is none, one redial when
    the call fails.  Host requests, wire bytes and guest answers together. */
module ExecHandler {
  import opened Options
  import opened Frames
  import opened Pairing
  import C = Commands
  import R = RunExec
  import T = Text
  import L = Lifecycle

  /** JSON, both ways, as functions. */
  datatype Codec = Codec(
    encode: C.Request -> Message,
    decodeRequest: Message -> Option<C.Request>,
    encodeReply: C.Response -> Message,
    decode: Message -> Option<C.Response>)
  {
    ghost predicate Faithful() {
      && (forall q :: decodeRequest(encode(q)) == Some(q))
      && (forall r :: decode(encodeReply(r)) == Some(r))
    }
  }

  /** How the commands run on one connection will end, request by request. */
  type Fates = nat -> (C.Fate, R.Fault)

  /** serveConn with handle: the guest at the other end of a connection. */
  function GuestOf(j: Codec, fates: Fates): Guest {
    (k: nat, m: Message) =>
      match j.decodeRequest(m)
      case None => None
      case Some(q) => Some(j.encodeReply(C.Handle(q, fates(k).0, fates(k).1)))
  }

  /** A dialled connection. */
  datatype Line = Line(fates: Fates, conn: Conn)

  datatype CallResult = Good(resp: C.Response) | Refused(resp: C.Response) | Broken

  /** agentConn.Call on a line: a reply counts when it says ok. */
  function CallOn(j: Codec, l: Line, q: C.Request, o: Progress): (Line, CallResult)
    requires Possible(GuestOf(j, l.fates), l.conn, j.encode(q), o)
  {
    var (c, reply) := Call(GuestOf(j, l.fates), l.conn, j.encode(q), o);
    (l.(conn := c), Judged(j, reply))
  }

  function Judged(j: Codec, reply: Option<Message>): CallResult {
    if reply.None? || j.decode(reply.value).None? then Broken
    else
      var resp := j.decode(reply.value).value;
      if resp.ok then Good(resp) else Refused(resp)
  }

  /** What the world does during one /exec: dials, and how far each call gets. */
  datatype World = World(dial: Option<Fates>, first: Progress, redial: Option<Fates>, second: Progress)

  datatype Reply =
    | Ok(resp: C.Response)
    | DialFailed
    | RedialFailed
    | FailedTwice(last: CallResult)

  predicate CanHappen(j: Codec, line: Option<Line>, q: C.Request, w: World) {
    && (line.Some? ==> Possible(GuestOf(j, line.value.fates), line.value.conn, j.encode(q), w.first))
    && (line.None? && w.dial.Some? ==> Possible(GuestOf(j, w.dial.value), DIALED, j.encode(q), w.first))
    && (w.redial.Some? ==> Possible(GuestOf(j, w.redial.value), DIALED, j.encode(q), w.second))
  }

  /** The line in use for the first call. */
  function FirstLine(line: Option<Line>, w: World): Option<Line> {
    if line.Some? then line else if w.dial.Some? then Some(Line(w.dial.value, DIALED)) else None
  }

  /** The transport part of handleExec: the stored connection afterwards, and the reply. */
  function Exec(j: Codec, line: Option<Line>, q: C.Request, w: World): (Option<Line>, Reply)
    requires CanHappen(j, line, q, w)
  {
    var l := FirstLine(line, w);
    if l.None? then (None, DialFailed)
    else
      var (after, r) := CallOn(j, l.value, q, w.first);
      if r.Good? then (Some(after), Ok(r.resp))
      else if w.redial.None? then (None, RedialFailed)
      else
        var (again, s) := CallOn(j, Line(w.redial.value, DIALED), q, w.second);
        (Some(again), if s.Good? then Ok(s.resp) else FailedTwice(s))
  }

  /** No connection stored, or one with no reply outstanding. */
  ghost predicate Settled(j: Codec, line: Option<Line>) {
    line.Some? ==> exists asked :: Clean(GuestOf(j, line.value.fates), line.value.conn, asked)
  }

  /** The reply is the guest's answer to this request, the last one on the line. */
  ghost predicate Own(j: Codec, line: Option<Line>, q: C.Request, resp: C.Response) {
    line.Some? && exists asked ::
      && Clean(GuestOf(j, line.value.fates), line.value.conn, asked + [j.encode(q)])
      && resp == AnswerAsNumber(line.value, q, |asked|)
  }

  function AnswerAsNumber(l: Line, q: C.Request, k: nat): C.Response {
    C.Handle(q, l.fates(k).0, l.fates(k).1)
  }

  // ------------------------------------------------------------- one call

  lemma FreshIsClean(g: Guest)
    ensures Clean(g, DIALED, [])
  {
    assert Answers(g, [], 0)[..0] == [];
  }

  lemma FreshIsSettled(j: Codec, fates: Fates)
    ensures Settled(j, Some(Line(fates, DIALED)))
  {
    FreshIsClean(GuestOf(j, fates));
  }

  /** A call that reads a reply on a clean line reads its own, and the line stays clean. */
  lemma CallIsOwn(j: Codec, l: Line, q: C.Request, o: Progress)
    requires j.Faithful() && Settled(j, Some(l))
    requires Possible(GuestOf(j, l.fates), l.conn, j.encode(q), o)
    requires !CallOn(j, l, q, o).1.Broken?
    ensures Own(j, Some(CallOn(j, l, q, o).0), q, CallOn(j, l, q, o).1.resp)
    ensures Settled(j, Some(CallOn(j, l, q, o).0))
  {
    var g := GuestOf(j, l.fates);
    var asked :| Clean(g, l.conn, asked);
    CleanCallPairs(g, l.conn, asked, j.encode(q), o);
    var k := |asked|;
    var resp := AnswerAsNumber(l, q, k);
    assert g(k, j.encode(q)) == Some(j.encodeReply(resp));
    assert CallOn(j, l, q, o).1.resp == resp;
    assert Clean(g, CallOn(j, l, q, o).0.conn, asked + [j.encode(q)]);
  }

  /** On a clean line no reply is ever undecodable: Broken means none was read. */
  lemma BrokenIsUnread(j: Codec, l: Line, q: C.Request, o: Progress)
    requires j.Faithful() && Settled(j, Some(l))
    requires Possible(GuestOf(j, l.fates), l.conn, j.encode(q), o)
    requires CallOn(j, l, q, o).1.Broken?
    ensures Call(GuestOf(j, l.fates), l.conn, j.encode(q), o).1.None?
    ensures Settled(j, Some(CallOn(j, l, q, o).0)) <==> o == WriteBroke(0)
  {
    if Call(GuestOf(j, l.fates), l.conn, j.encode(q), o).1.Some? {
      ReadIsNotBroken(j, l, q, o);
    }
    var asked :| Clean(GuestOf(j, l.fates), l.conn, asked);
    CleanAfterCall(GuestOf(j, l.fates), l.conn, asked, j.encode(q), o);
  }

  lemma ReadIsNotBroken(j: Codec, l: Line, q: C.Request, o: Progress)
    requires j.Faithful() && Settled(j, Some(l))
    requires Possible(GuestOf(j, l.fates), l.conn, j.encode(q), o)
    requires Call(GuestOf(j, l.fates), l.conn, j.encode(q), o).1.Some?
    ensures !CallOn(j, l, q, o).1.Broken?
  {
    var g := GuestOf(j, l.fates);
    var asked :| Clean(g, l.conn, asked);
    CleanCallPairs(g, l.conn, asked, j.encode(q), o);
    assert g(|asked|, j.encode(q)) == Some(j.encodeReply(AnswerAsNumber(l, q, |asked|)));
  }

  /** The guest's answer to a call on a line that asked these requests before says ok, and
      can be sent. */
  ghost predicate SaysOk(j: Codec, l: Line, asked: seq<Message>, q: C.Request) {
    && Clean(GuestOf(j, l.fates), l.conn, asked)
    && AnswerAsNumber(l, q, |asked|).ok
    && Sendable(j.encodeReply(AnswerAsNumber(l, q, |asked|)))
  }

  function ReplySize(j: Codec, l: Line, asked: seq<Message>, q: C.Request): nat {
    4 + |j.encodeReply(AnswerAsNumber(l, q, |asked|))|
  }

  /** The request went out whole, and the whole of an answer that says ok came in time. */
  ghost predicate Answered(j: Codec, l: Line, q: C.Request, o: Progress) {
    o.Wrote? && exists asked :: SaysOk(j, l, asked, q) && o.seen >= l.conn.read + ReplySize(j, l, asked, q)
  }

  ghost predicate AnsweredBy(j: Codec, l: Line, q: C.Request, t: Transfer) {
    && |j.encode(q)| <= MAX_MESSAGE && (t.cut.Some? ==> t.cut.value >= 4 + |j.encode(q)|)
    && exists asked :: SaysOk(j, l, asked, q) && t.arrived >= ReplySize(j, l, asked, q)
  }

  /** A call on a clean line works exactly when it is answered so. */
  lemma CallIsGoodIff(j: Codec, l: Line, q: C.Request, o: Progress)
    requires j.Faithful() && Settled(j, Some(l))
    requires Possible(GuestOf(j, l.fates), l.conn, j.encode(q), o)
    ensures CallOn(j, l, q, o).1.Good? <==> Answered(j, l, q, o)
  {
    if o.Wrote? {
      var asked :| Clean(GuestOf(j, l.fates), l.conn, asked);
      GoodIffFor(j, l, asked, q, o.seen);
      forall b | SaysOk(j, l, b, q) ensures b == asked {
        AtUnique(GuestOf(j, l.fates), l.conn, asked, |asked|, b, |b|);
      }
    }
  }

  lemma GoodIffFor(j: Codec, l: Line, asked: seq<Message>, q: C.Request, seen: nat)
    requires j.Faithful() && Clean(GuestOf(j, l.fates), l.conn, asked)
    requires Possible(GuestOf(j, l.fates), l.conn, j.encode(q), Wrote(seen))
    ensures CallOn(j, l, q, Wrote(seen)).1.Good? <==>
      SaysOk(j, l, asked, q) && seen >= l.conn.read + ReplySize(j, l, asked, q)
  {
    var g, m, resp := GuestOf(j, l.fates), j.encode(q), AnswerAsNumber(l, q, |asked|);
    assert g(|asked|, m) == Some(j.encodeReply(resp));
    CleanCallAnswered(g, l.conn, asked, m, seen);
    if Call(g, l.conn, m, Wrote(seen)).1.Some? {
      CleanCallPairs(g, l.conn, asked, m, Wrote(seen));
      assert CallOn(j, l, q, Wrote(seen)).1 == if resp.ok then Good(resp) else Refused(resp);
    }
  }

  lemma AnsweredByIs(j: Codec, l: Line, q: C.Request, t: Transfer)
    requires j.Faithful() && Settled(j, Some(l))
    requires j.encode(q) != [] && l.conn.read <= |Serve(GuestOf(j, l.fates), l.conn.wire, 0)|
    ensures AnsweredBy(j, l, q, t) <==> Answered(j, l, q, Reaches(GuestOf(j, l.fates), l.conn, j.encode(q), t))
  {
    var g, m := GuestOf(j, l.fates), j.encode(q);
    if |m| <= MAX_MESSAGE {
      forall asked | SaysOk(j, l, asked, q)
        ensures |Serve(g, l.conn.wire + Frame(m), 0)| == l.conn.read + ReplySize(j, l, asked, q)
      {
        assert g(|asked|, m) == Some(j.encodeReply(AnswerAsNumber(l, q, |asked|)));
        StreamAfter(g, l.conn, asked, m);
      }
    }
  }

  lemma StreamAfter(g: Guest, c: Conn, asked: seq<Message>, m: Message)
    requires Clean(g, c, asked) && Sendable(m) && g(|asked|, m).Some? && Sendable(g(|asked|, m).value)
    ensures |Serve(g, c.wire + Frame(m), 0)| == c.read + |Frame(g(|asked|, m).value)|
  {
    SentWhole(g, c, asked, |asked|, m);
    AnswerFollows(g, asked, m);
    assert Answers(g, asked, 0)[..|asked|] == Answers(g, asked, 0);
  }

  // ------------------------------------------------------------- one exec

  /** The one exit that can leave a reply outstanding: the second call failed after
      putting something on the wire and read no answer. */
  predicate LeavesReply(r: Reply, w: World) {
    r.FailedTwice? && r.last.Broken? && w.second != WriteBroke(0)
  }

  /** /exec from a settled state: a success is the answer to this very request with its
      exec part present, and the state afterwards is settled except after exactly one
      kind of exit. */
  lemma ExecPairs(j: Codec, line: Option<Line>, e: C.ExecRequest, w: World)
    requires j.Faithful() && Settled(j, line)
    requires CanHappen(j, line, C.ExecMessage(e), w)
    ensures var (after, r) := Exec(j, line, C.ExecMessage(e), w);
      && (r.Ok? ==> Own(j, after, C.ExecMessage(e), r.resp) && r.resp.exec.Some?)
      && (Settled(j, after) <==> !LeavesReply(r, w))
  {
    var q := C.ExecMessage(e);
    var l := FirstLine(line, w);
    if l.Some? {
      if line.None? { FreshIsClean(GuestOf(j, l.value.fates)); }
      assert Settled(j, l);
      var (after, r) := CallOn(j, l.value, q, w.first);
      if r.Good? {
        CallIsOwn(j, l.value, q, w.first);
        OwnHasExec(j, Some(after), e, r.resp);
      } else if w.redial.Some? {
        var redialled := Line(w.redial.value, DIALED);
        FreshIsClean(GuestOf(j, w.redial.value));
        assert Settled(j, Some(redialled));
        var (again, s) := CallOn(j, redialled, q, w.second);
        if s.Broken? {
          BrokenIsUnread(j, redialled, q, w.second);
        } else {
          CallIsOwn(j, redialled, q, w.second);
          OwnHasExec(j, Some(again), e, s.resp);
        }
      }
    }
  }

  /** /exec from a settled state succeeds if and only if the first call is answered with
      ok, on the stored connection or on one just dialled, or else the redial comes up and
      the second call is. */
  lemma ExecSucceedsIff(j: Codec, line: Option<Line>, q: C.Request, w: World)
    requires j.Faithful() && Settled(j, line) && CanHappen(j, line, q, w)
    ensures Exec(j, line, q, w).1.Ok? <==>
      || (line.Some? && Answered(j, line.value, q, w.first))
      || (line.None? && w.dial.Some? && Answered(j, Line(w.dial.value, DIALED), q, w.first))
      || ((line.Some? || w.dial.Some?) && w.redial.Some? && Answered(j, Line(w.redial.value, DIALED), q, w.second))
    ensures Exec(j, line, q, w).1.Ok? ==> Exec(j, line, q, w).1.resp.ok
  {
    if line.Some? || w.dial.Some? {
      var l := if line.Some? then line.value else Line(w.dial.value, DIALED);
      if line.None? { FreshIsClean(GuestOf(j, l.fates)); }
      assert Settled(j, Some(l));
      CallIsGoodIff(j, l, q, w.first);
      if w.redial.Some? {
        FreshIsClean(GuestOf(j, w.redial.value));
        assert Settled(j, Some(Line(w.redial.value, DIALED)));
        CallIsGoodIff(j, Line(w.redial.value, DIALED), q, w.second);
      }
    }
  }

  /** The last request on this line was this one, its command was joined without a fault,
      and this is what the join reported. */
  ghost predicate Ran(j: Codec, line: Option<Line>, e: C.ExecRequest, out: R.ExecResponse) {
    line.Some? && C.NormalizeArgv(e).Argv? && exists asked ::
      && Clean(GuestOf(j, line.value.fates), line.value.conn, asked + [j.encode(C.ExecMessage(e))])
      && line.value.fates(|asked|).0 == C.Joined(R.Outcome(out, R.NoFault))
  }

  /** What a success of /exec says about the command. */
  lemma OkWasRun(j: Codec, line: Option<Line>, e: C.ExecRequest, w: World)
    requires j.Faithful() && Settled(j, line) && CanHappen(j, line, C.ExecMessage(e), w)
    requires Exec(j, line, C.ExecMessage(e), w).1.Ok?
    ensures var (after, r) := Exec(j, line, C.ExecMessage(e), w);
      r.resp.exec.Some? && Ran(j, after, e, r.resp.exec.value)
  {
    ExecPairs(j, line, e, w);
    ExecSucceedsIff(j, line, C.ExecMessage(e), w);
    var (after, r) := Exec(j, line, C.ExecMessage(e), w);
    OwnWasRun(j, after, e, r.resp);
  }

  lemma OwnWasRun(j: Codec, line: Option<Line>, e: C.ExecRequest, resp: C.Response)
    requires Own(j, line, C.ExecMessage(e), resp) && resp.ok
    ensures resp.exec.Some? && Ran(j, line, e, resp.exec.value)
  {
    var l, q := line.value, C.ExecMessage(e);
    var asked :| Clean(GuestOf(j, l.fates), l.conn, asked + [j.encode(q)]) && resp == AnswerAsNumber(l, q, |asked|);
    var k: nat := |asked|;
    C.OkCarriesExec(e, l.fates(k).0, l.fates(k).1);
    assert l.fates(k).0 == C.Joined(R.Outcome(resp.exec.value, R.NoFault));
  }

  lemma OwnHasExec(j: Codec, line: Option<Line>, e: C.ExecRequest, resp: C.Response)
    requires Own(j, line, C.ExecMessage(e), resp)
    ensures resp.exec.Some?
  {
    var asked: seq<Message> :| resp == AnswerAsNumber(line.value, C.ExecMessage(e), |asked|);
    var k: nat := |asked|;
    C.OkCarriesExec(e, line.value.fates(k).0, line.value.fates(k).1);
  }

  /** A call puts at most its own frame on the wire. */
  lemma CallWritesOneFrame(j: Codec, l: Line, q: C.Request, o: Progress)
    requires Possible(GuestOf(j, l.fates), l.conn, j.encode(q), o) && |j.encode(q)| <= MAX_MESSAGE
    ensures l.conn.wire <= CallOn(j, l, q, o).0.conn.wire <= l.conn.wire + Frame(j.encode(q))
  {
  }

  /** One /exec writes at most two frames of its request, never both on one connection:
      one behind what the first connection carried, one on a connection dialled anew. */
  lemma ExecWritesTwoFramesAtMost(j: Codec, line: Option<Line>, q: C.Request, w: World)
    requires CanHappen(j, line, q, w) && |j.encode(q)| <= MAX_MESSAGE
    requires FirstLine(line, w).Some?
    ensures var l := FirstLine(line, w).value;
      && l.conn.wire <= CallOn(j, l, q, w.first).0.conn.wire <= l.conn.wire + Frame(j.encode(q))
      && (CallOn(j, l, q, w.first).1.Good? ==> Exec(j, line, q, w).0 == Some(CallOn(j, l, q, w.first).0))
    ensures var (after, r) := Exec(j, line, q, w);
      !CallOn(j, FirstLine(line, w).value, q, w.first).1.Good? && after.Some? ==>
        w.redial.Some? && after.value.fates == w.redial.value && after.value.conn.wire <= Frame(j.encode(q))
  {
    CallWritesOneFrame(j, FirstLine(line, w).value, q, w.first);
    if w.redial.Some? {
      CallWritesOneFrame(j, Line(w.redial.value, DIALED), q, w.second);
      assert DIALED.wire + Frame(j.encode(q)) == Frame(j.encode(q));
    }
  }

  // ------------------------------------------------------------- whole runs

  /** What happens to a sandbox's agent connection over its life. */
  datatype Op =
    | DoExec(e: C.ExecRequest, w: World, reply: Reply)
    | DropConn        // snapshot creation, cleanup: close it and forget it

  ghost predicate Does(j: Codec, before: Option<Line>, op: Op, after: Option<Line>) {
    match op
    case DropConn => after.None?
    case DoExec(e, w, reply) =>
      CanHappen(j, before, C.ExecMessage(e), w) && Exec(j, before, C.ExecMessage(e), w) == (after, reply)
  }

  ghost predicate Trace(j: Codec, lines: seq<Option<Line>>, ops: seq<Op>) {
    && |lines| == |ops| + 1
    && Settled(j, lines[0])
    && forall i :: 0 <= i < |ops| ==> Does(j, lines[i], ops[i], lines[i + 1])
  }

  lemma TraceAt(j: Codec, lines: seq<Option<Line>>, ops: seq<Op>, i: nat)
    requires Trace(j, lines, ops) && i < |ops|
    ensures Does(j, lines[i], ops[i], lines[i + 1])
  {
  }

  predicate Dirties(op: Op) {
    op.DoExec? && LeavesReply(op.reply, op.w)
  }

  /** Over any run from a settled start, whenever the last exec or drop did not leave a
      reply outstanding, a success carries the guest's answer to its own request. */
  lemma RunPairs(j: Codec, lines: seq<Option<Line>>, ops: seq<Op>, i: nat)
    requires j.Faithful() && Trace(j, lines, ops) && i < |ops|
    requires forall k :: 0 <= k < i && Dirties(ops[k]) ==> ops[k + 1].DropConn?
    ensures ops[i].DoExec? && ops[i].reply.Ok? ==>
      Own(j, lines[i + 1], C.ExecMessage(ops[i].e), ops[i].reply.resp) && ops[i].reply.resp.exec.Some?
    ensures Settled(j, lines[i + 1]) <==> !Dirties(ops[i])
  {
    TraceAt(j, lines, ops, i);
    if ops[i].DoExec? {
      SettledBefore(j, lines, ops, i);
      ExecPairs(j, lines[i], ops[i].e, ops[i].w);
    }
  }

  lemma {:induction false} SettledBefore(j: Codec, lines: seq<Option<Line>>, ops: seq<Op>, i: nat)
    requires j.Faithful() && Trace(j, lines, ops) && i < |ops| && ops[i].DoExec?
    requires forall k :: 0 <= k < i && Dirties(ops[k]) ==> ops[k + 1].DropConn?
    ensures Settled(j, lines[i])
    decreases i
  {
    if i > 0 {
      var p := i - 1;
      assert ops[p + 1] == ops[i];
      TraceAt(j, lines, ops, p);
      if ops[p].DoExec? {
        SettledBefore(j, lines, ops, p);
        ExecPairs(j, lines[p], ops[p].e, ops[p].w);
      }
    }
  }

  // The condition is needed: after the one dirty exit the next exec on that connection
  // is given the result of the command before it.

  /** An /exec whose retry writes its request and gives up before any reply byte. */
  lemma DirtyExit(j: Codec, e: C.ExecRequest, fates: Fates) returns (w: World, conn: Conn)
    requires j.Faithful() && Sendable(j.encode(C.ExecMessage(e)))
    ensures CanHappen(j, None, C.ExecMessage(e), w)
    ensures Exec(j, None, C.ExecMessage(e), w) == (Some(Line(fates, conn)), FailedTwice(Broken))
    ensures LeavesReply(FailedTwice(Broken), w)
    ensures conn == Conn(Frame(j.encode(C.ExecMessage(e))), 0)
  {
    var q := C.ExecMessage(e);
    w := World(Some(fates), WriteBroke(0), Some(fates), Wrote(0));
    conn := Conn(Frame(j.encode(q)), 0);
    NothingWritten(j, fates, q);
    NothingRead(j, fates, q);
  }

  lemma NothingWritten(j: Codec, fates: Fates, q: C.Request)
    ensures CallOn(j, Line(fates, DIALED), q, WriteBroke(0)) == (Line(fates, DIALED), Broken)
  {
    assert DIALED.wire + [] == DIALED.wire;
  }

  lemma NothingRead(j: Codec, fates: Fates, q: C.Request)
    requires Sendable(j.encode(q))
    ensures CallOn(j, Line(fates, DIALED), q, Wrote(0)) == (Line(fates, Conn(Frame(j.encode(q)), 0)), Broken)
  {
    var wire := Frame(j.encode(q));
    assert DIALED.wire + wire == wire;
    NothingCame(Serve(GuestOf(j, fates), wire, 0));
  }

  lemma NothingCame(stream: seq<Byte>)
    ensures ReadUpTo(stream, 0, 0) == (0, None)
  {
    assert stream[0..0] == [];
  }

  /** The /exec after it is answered with the result of the command before. */
  lemma StaleExec(j: Codec, before: C.ExecRequest, e: C.ExecRequest, fates: Fates) returns (w: World, v: World)
    requires j.Faithful()
    requires Sendable(j.encode(C.ExecMessage(before))) && Sendable(j.encode(C.ExecMessage(e)))
    requires var a := C.Handle(C.ExecMessage(before), fates(0).0, fates(0).1); a.ok && Sendable(j.encodeReply(a))
    ensures CanHappen(j, None, C.ExecMessage(before), w)
    ensures var (line, r) := Exec(j, None, C.ExecMessage(before), w);
      && LeavesReply(r, w)
      && CanHappen(j, line, C.ExecMessage(e), v)
      && Exec(j, line, C.ExecMessage(e), v).1 == Ok(C.Handle(C.ExecMessage(before), fates(0).0, fates(0).1))
  {
    var conn;
    w, conn := DirtyExit(j, before, fates);
    v := StaleRead(j, Line(fates, conn), C.ExecMessage(before), C.ExecMessage(e));
  }

  lemma StaleRead(j: Codec, l: Line, before: C.Request, q: C.Request) returns (v: World)
    requires j.Faithful() && Sendable(j.encode(before)) && Sendable(j.encode(q))
    requires l.conn == Conn(Frame(j.encode(before)), 0)
    requires AnswerAsNumber(l, before, 0).ok && Sendable(j.encodeReply(AnswerAsNumber(l, before, 0)))
    ensures CanHappen(j, Some(l), q, v)
    ensures Exec(j, Some(l), q, v).1 == Ok(AnswerAsNumber(l, before, 0))
  {
    var g := GuestOf(j, l.fates);
    var m, n := j.encode(before), j.encode(q);
    var whole := Serve(g, l.conn.wire + Frame(n), 0);
    v := World(None, Wrote(|whole|), None, WriteBroke(0));
    var a := j.encodeReply(AnswerAsNumber(l, before, 0));
    ParseInvertsFrame(l.conn.wire + Frame(n), m, Frame(n));
    assert g(0, m) == Some(a);
    assert whole[0..|whole|] == whole == Frame(a) + Serve(g, Frame(n), 1);
    ParseInvertsFrame(whole, a, Serve(g, Frame(n), 1));
    assert CallOn(j, l, q, Wrote(|whole|)).1 == Good(AnswerAsNumber(l, before, 0));
  }

  // ------------------------------------------------------------- the objects

  class AgentConn {
    const j: Codec
    const fates: Fates
    var conn: Conn
    var closed: bool

    function View(): Line
      reads this
    {
      Line(fates, conn)
    }

    constructor (j: Codec, fates: Fates)
      ensures this.j == j && View() == Line(fates, DIALED) && !closed
    {
      this.j, this.fates, conn, closed := j, fates, DIALED, false;
    }

    method Close()
      modifies this`closed
      ensures closed
    {
      closed := true;
    }

    /** No more reply bytes consumed than the guest has sent. */
    ghost predicate Valid()
      reads this
    {
      conn.read <= |Serve(GuestOf(j, fates), conn.wire, 0)|
    }

    /** Call: write one frame, then read one reply before the deadline, as far as the
        transfer gets.  Whatever is written is a prefix of this request's frame.  On a
        clean line it works exactly when an answer that says ok has come whole. */
    method Call(q: C.Request, t: Transfer) returns (r: CallResult)
      requires Valid() && j.encode(q) != []
      modifies this`conn
      ensures Valid()
      ensures (View(), r) == CallOn(j, old(View()), q, Reaches(GuestOf(j, fates), old(conn), j.encode(q), t))
      ensures j.Faithful() && Settled(j, Some(old(View()))) ==> (r.Good? <==> AnsweredBy(j, old(View()), q, t))
      ensures j.Faithful() && Settled(j, Some(old(View()))) && r.Good? ==> Settled(j, Some(View()))
    {
      var m := j.encode(q);
      ghost var o := Reaches(GuestOf(j, fates), conn, m, t);
      if j.Faithful() && Settled(j, Some(View())) {
        AnsweredByIs(j, View(), q, t);
        CallIsGoodIff(j, View(), q, o);
        if CallOn(j, View(), q, o).1.Good? { CallIsOwn(j, View(), q, o); }
      }
      var reply := Transact(m, t);
      r := Judged(j, reply);
    }

    method Transact(m: Message, t: Transfer) returns (reply: Option<Message>)
      requires Valid() && m != []
      modifies this`conn
      ensures Valid()
      ensures (conn, reply) == Pairing.Call(GuestOf(j, fates), old(conn), m, Reaches(GuestOf(j, fates), old(conn), m, t))
    {
      if |m| > MAX_MESSAGE {
        WriteBreaks(m, 0);
        return None;
      }
      if t.cut.Some? && t.cut.value < 4 + |m| {
        WriteBreaks(m, t.cut.value);
        return None;
      }
      reply := WriteThenRead(m, t.arrived);
    }

    method WriteBreaks(m: Message, cut: nat)
      requires Valid() && Possible(GuestOf(j, fates), conn, m, WriteBroke(cut))
      modifies this`conn
      ensures Valid()
      ensures (conn, None) == Pairing.Call(GuestOf(j, fates), old(conn), m, WriteBroke(cut))
    {
      var part := if cut == 0 then [] else Frame(m)[..cut];
      ServeExtends(GuestOf(j, fates), conn.wire, part, 0);
      conn := conn.(wire := conn.wire + part);
    }

    method WriteThenRead(m: Message, arrived: nat) returns (reply: Option<Message>)
      requires Valid() && Sendable(m)
      modifies this`conn
      ensures Valid()
      ensures var g, len := GuestOf(j, fates), |Serve(GuestOf(j, fates), old(conn.wire) + Frame(m), 0)|;
        && old(conn.read) <= len
        && (conn, reply) == Pairing.Call(g, old(conn), m,
              Wrote(if old(conn.read) + arrived < len then old(conn.read) + arrived else len))
    {
      var g := GuestOf(j, fates);
      ServeExtends(g, conn.wire, Frame(m), 0);
      var stream := Serve(g, conn.wire + Frame(m), 0);
      var seen := if conn.read + arrived < |stream| then conn.read + arrived else |stream|;
      ReadsForward(stream, conn.read, seen);
      var (read, got) := ReadUpTo(stream, conn.read, seen);
      conn, reply := Conn(conn.wire + Frame(m), read), got;
    }
  }

  /** dialAgent: a new connection that has passed the handshake, or an error. */
  method DialAgent(j: Codec, dial: Option<Fates>) returns (c: AgentConn?)
    ensures c == null <==> dial.None?
    ensures c != null ==> fresh(c) && c.j == j && c.View() == Line(dial.value, DIALED) && !c.closed
  {
    if dial.None? { return null; }
    c := new AgentConn(j, dial.value);
  }

  const PING := C.Request("ping", None, None)

  /** A connection that is open and owed no reply. */
  ghost predicate Usable(j: Codec, c: AgentConn)
    reads c
  {
    c.j == j && !c.closed && c.Valid() && Settled(j, Some(c.View()))
  }

  /** One turn of the waiting loop works: the dial comes up and the ping is answered. */
  ghost predicate Pings(j: Codec, dial: Option<Fates>, t: Transfer) {
    dial.Some? && AnsweredBy(j, Line(dial.value, DIALED), PING, t)
  }

  /** One turn of the loop. */
  method DialAndPing(j: Codec, dial: Option<Fates>, t: Transfer) returns (c: AgentConn?)
    requires j.Faithful() && j.encode(PING) != []
    ensures c != null <==> Pings(j, dial, t)
    ensures c != null ==> fresh(c) && Usable(j, c) && dial == Some(c.fates)
  {
    c := DialAgent(j, dial);
    if c == null { return; }
    FreshIsSettled(j, c.fates);
    var r := c.Call(PING, t);
    if !r.Good? {
      c.Close();
      c := null;
    }
  }

  /** waitForAgentReady: dial and ping until a ping is answered, as often as the deadline
      allows.  It hands on the connection of the first turn that works, clean, and nothing
      if and only if none does. */
  method WaitForAgentReady(j: Codec, turns: seq<(Option<Fates>, Transfer)>) returns (c: AgentConn?)
    requires j.Faithful() && j.encode(PING) != []
    ensures c == null <==> forall i :: 0 <= i < |turns| ==> !Pings(j, turns[i].0, turns[i].1)
    ensures c != null ==> fresh(c) && Usable(j, c)
    ensures c != null ==> exists i ::
      && 0 <= i < |turns| && turns[i].0 == Some(c.fates) && Pings(j, turns[i].0, turns[i].1)
      && forall k :: 0 <= k < i ==> !Pings(j, turns[k].0, turns[k].1)
  {
    for i := 0 to |turns|
      invariant forall k :: 0 <= k < i ==> !Pings(j, turns[k].0, turns[k].1)
    {
      c := DialAndPing(j, turns[i].0, turns[i].1);
      if c != null { return; }
    }
    c := null;
  }

  /** configureSandboxGuestNetwork: one call, which works exactly when the guest could set
      its network up and its answer came; the connection then stays clean and becomes the
      sandbox's. */
  method ConfigureGuestNetwork(j: Codec, c: AgentConn, address: string, gateway: string, t: Transfer) returns (ok: bool)
    requires j.Faithful() && Usable(j, c)
    requires j.encode(C.Request("net", None, Some((address, gateway)))) != []
    modifies c`conn
    ensures ok <==> AnsweredBy(j, old(c.View()), C.Request("net", None, Some((address, gateway))), t)
    ensures ok ==> Usable(j, c)
  {
    var q := C.Request("net", None, Some((address, gateway)));
    var r := c.Call(q, t);
    ok := r.Good?;
  }

  /** How the dials and calls of one /exec go. */
  datatype Luck = Luck(dial: Option<Fates>, first: Transfer, redial: Option<Fates>, second: Transfer)

  predicate Sound(j: Codec, line: Option<Line>) {
    line.Some? ==> line.value.conn.read <= |Serve(GuestOf(j, line.value.fates), line.value.conn.wire, 0)|
  }

  /** How far that lets its calls get. */
  function WorldOf(j: Codec, line: Option<Line>, q: C.Request, k: Luck): (w: World)
    requires Sound(j, line) && j.encode(q) != []
    ensures CanHappen(j, line, q, w)
  {
    var first := if line.Some? then line else if k.dial.Some? then Some(Line(k.dial.value, DIALED)) else None;
    World(k.dial,
          if first.Some? then Reaches(GuestOf(j, first.value.fates), first.value.conn, j.encode(q), k.first) else WriteBroke(0),
          k.redial,
          if k.redial.Some? then Reaches(GuestOf(j, k.redial.value), DIALED, j.encode(q), k.second) else WriteBroke(0))
  }

  /** The first call is answered with ok, or else the redial comes up and the second is. */
  ghost predicate GetsThrough(j: Codec, line: Option<Line>, q: C.Request, k: Luck) {
    || (line.Some? && AnsweredBy(j, line.value, q, k.first))
    || (line.None? && k.dial.Some? && AnsweredBy(j, Line(k.dial.value, DIALED), q, k.first))
    || ((line.Some? || k.dial.Some?) && k.redial.Some? && AnsweredBy(j, Line(k.redial.value, DIALED), q, k.second))
  }

  lemma GetsThroughIff(j: Codec, line: Option<Line>, q: C.Request, k: Luck)
    requires j.Faithful() && Settled(j, line) && Sound(j, line) && j.encode(q) != []
    ensures Exec(j, line, q, WorldOf(j, line, q, k)).1.Ok? <==> GetsThrough(j, line, q, k)
  {
    ExecSucceedsIff(j, line, q, WorldOf(j, line, q, k));
    if line.Some? {
      AnsweredByIs(j, line.value, q, k.first);
    } else if k.dial.Some? {
      FreshIsClean(GuestOf(j, k.dial.value));
      AnsweredByIs(j, Line(k.dial.value, DIALED), q, k.first);
    }
    if k.redial.Some? {
      FreshIsClean(GuestOf(j, k.redial.value));
      AnsweredByIs(j, Line(k.redial.value, DIALED), q, k.second);
    }
  }

  /** What the client of /exec gets: a bare status, 200 with the result, or a connection
      cut off because the handler dereferenced a missing exec part. */
  datatype Http =
    | Status(code: nat)
    | Answer(stdout: R.Bytes, stderr: R.Bytes, exitCode: int)
    | CutOff

  /** The part of a sandbox that /exec works on: sb.Agent under agentMu, and the
      lifecycle fields under lifecycleMu. */
  class Sandbox {
    const j: Codec
    var agent: AgentConn?
    var life: L.Life

    ghost predicate Valid()
      reads this, agent
    {
      agent != null ==> agent.j == j && !agent.closed && agent.Valid()
    }

    function View(): Option<Line>
      reads this, agent
    {
      if agent == null then None else Some(agent.View())
    }

    constructor (j: Codec)
      ensures this.j == j && Valid() && View() == None && life == L.Life(L.Running, 0)
    {
      this.j, agent, life := j, null, L.Life(L.Running, 0);
    }

    /** The agent transport of handleExec.  A first connection that fails is closed and
        dropped; the retry runs on another one. */
    method ExecOverAgent(q: C.Request, k: Luck) returns (r: Reply)
      requires Valid() && j.encode(q) != []
      modifies this`agent, agent
      ensures Valid()
      ensures (View(), r) == Exec(j, old(View()), q, WorldOf(j, old(View()), q, k))
      ensures old(agent) != null && agent != old(agent) ==> old(agent).closed
      ensures agent != null && agent != old(agent) ==> fresh(agent)
    {
      var ac := agent;
      if ac == null {
        var c := DialAgent(j, k.dial);
        if c == null { return DialFailed; }
        agent, ac := c, c;
      }
      var resp := ac.Call(q, k.first);
      if resp.Good? { return Ok(resp.resp); }
      ac.Close();
      agent := null;
      var c := DialAgent(j, k.redial);
      if c == null { return RedialFailed; }
      agent := c;
      var resp' := c.Call(q, k.second);
      r := if resp'.Good? then Ok(resp'.resp) else FailedTwice(resp');
    }

    /** Snapshot creation and cleanup close the connection and forget it. */
    method Drop()
      requires Valid()
      modifies this`agent, agent
      ensures Valid() && View() == None
      ensures old(agent) != null ==> old(agent).closed
    {
      if agent != null {
        agent.Close();
        agent := null;
      }
    }
  }

  predicate Admitted(r: C.ExecCall, sb: Sandbox?)
    reads sb
  {
    !T.Blank(r.sandboxId) && sb != null && sb.life.phase.Running?
  }

  /** The request a body is forwarded as. */
  function Forwarded(r: C.ExecCall, cfg: C.Config): C.Request {
    C.ExecMessage(C.ForwardOf(r, cfg))
  }

  /** The answer to a transport's outcome. */
  function AnswerTo(reply: Reply): Http {
    if !reply.Ok? then Status(500)
    else if reply.resp.exec.None? then CutOff
    else
      var x := reply.resp.exec.value;
      Answer(x.stdout, x.stderr, x.exitCode)
  }

  predicate OverAgent(r: C.ExecCall, cfg: C.Config) {
    C.WellFormed(r) && cfg.transport in {"agent", ""}
  }

  /** handleExec for the sandbox found under the id, if any.  `sshWorks` is how the other
      transport would end.  Whatever way it ends, the in-flight count is what it was.
      From a settled connection the answer is 200 if and only if a call gets through, and
      then reports the command this very request ran; every other end is a 500. */
  method HandleExec(r: C.ExecCall, cfg: C.Config, sb: Sandbox?, sshWorks: bool, k: Luck) returns (h: Http)
    requires sb != null ==> sb.Valid() && sb.life.inFlight >= 0 && sb.j.encode(Forwarded(r, cfg)) != []
    modifies sb, if sb != null then sb.agent else null
    ensures sb != null ==> sb.Valid() && sb.life == old(if sb == null then L.Life(L.Closed, 0) else sb.life)
    ensures T.Blank(r.sandboxId) ==> h == Status(400)
    ensures !T.Blank(r.sandboxId) && sb == null ==> h == Status(404)
    ensures !T.Blank(r.sandboxId) && sb != null && !old(Admitted(r, sb)) ==> h == Status(409)
    ensures old(Admitted(r, sb)) && !(C.WellFormed(r) && C.Transportable(r, cfg)) ==> h == Status(400)
    ensures old(Admitted(r, sb)) && C.WellFormed(r) && C.Transportable(r, cfg) && cfg.transport == "ssh" ==>
      h == if sshWorks then SSH_OK else Status(500)
    ensures sb != null && !(old(Admitted(r, sb)) && OverAgent(r, cfg)) ==>
      sb.View() == old(if sb == null then None else sb.View())
    ensures old(Admitted(r, sb)) && OverAgent(r, cfg) ==>
      var line, q := old(sb.View()), Forwarded(r, cfg);
      && sb.View() == Exec(sb.j, line, q, WorldOf(sb.j, line, q, k)).0
      && h == AnswerTo(Exec(sb.j, line, q, WorldOf(sb.j, line, q, k)).1)
    ensures old(Admitted(r, sb)) && OverAgent(r, cfg) && sb.j.Faithful() && Settled(sb.j, old(sb.View())) ==>
      && (h.Answer? <==> GetsThrough(sb.j, old(sb.View()), Forwarded(r, cfg), k))
      && (h.Answer? || h == Status(500))
      && (h.Answer? ==> Reports(sb.j, sb.View(), C.ForwardOf(r, cfg), h))
  {
    T.TrimSpaceMeaning(r.sandboxId);
    if T.TrimSpace(r.sandboxId) == "" { return Status(400); }
    if sb == null { return Status(404); }
    var (started, admitted) := L.TryStartExec(sb.life);
    if !admitted { return Status(409); }
    sb.life := started;
    var v := C.Check(r, cfg);
    match v {
      case BadRequest(_) => h := Status(400);
      case OverSsh(_, _) => h := if sshWorks then SSH_OK else Status(500);
      case OverAgent(q) =>
        assert unchanged(sb`agent);
        ghost var line := sb.View();
        if sb.j.Faithful() && Settled(sb.j, line) { OutcomeOf(sb.j, line, q, k); }
        var reply := sb.ExecOverAgent(C.ExecMessage(q), k);
        h := AnswerTo(reply);
    }
    sb.life := L.FinishExec(sb.life);
  }

  const SSH_OK := Status(200)

  /** A 200 whose three parts are those of a command run for this request. */
  ghost predicate Reports(j: Codec, line: Option<Line>, e: C.ExecRequest, h: Http) {
    h.Answer? && exists timedOut :: Ran(j, line, e, R.ExecResponse(h.exitCode, h.stdout, h.stderr, timedOut))
  }

  lemma OutcomeOf(j: Codec, line: Option<Line>, e: C.ExecRequest, k: Luck)
    requires j.Faithful() && Settled(j, line) && Sound(j, line) && j.encode(C.ExecMessage(e)) != []
    ensures var (after, reply) := Exec(j, line, C.ExecMessage(e), WorldOf(j, line, C.ExecMessage(e), k));
      && (AnswerTo(reply).Answer? <==> GetsThrough(j, line, C.ExecMessage(e), k))
      && (AnswerTo(reply).Answer? || AnswerTo(reply) == Status(500))
      && (AnswerTo(reply).Answer? ==> Reports(j, after, e, AnswerTo(reply)))
  {
    var q := C.ExecMessage(e);
    GetsThroughIff(j, line, q, k);
    if Exec(j, line, q, WorldOf(j, line, q, k)).1.Ok? {
      OkWasRun(j, line, e, WorldOf(j, line, q, k));
      var (after, reply) := Exec(j, line, q, WorldOf(j, line, q, k));
      var x := reply.resp.exec.value;
      assert Ran(j, after, e, R.ExecResponse(x.exitCode, x.stdout, x.stderr, x.timedOut));
    }
  }
}
