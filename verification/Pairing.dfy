/** Request and response over one connection: agentConn.Call on the host against
    serveConn in the guest, down to the bytes. */
module Pairing {
  import opened Options
  import opened Frames

  type Message = seq<Byte>

  /** What the guest answers to the k-th request on a connection; None when it gives
      the connection up instead (undecodable request, unsendable answer). */
  type Guest = (nat, Message) -> Option<Message>

  /** serveConn: answers in order until a read or an answer fails. */
  function Serve(g: Guest, wire: seq<Byte>, k: nat): seq<Byte>
    decreases |wire|
  {
    var (r, rest) := Parse(wire);
    if r.Payload? && g(k, r.p).Some? && Sendable(g(k, r.p).value)
    then Frame(g(k, r.p).value) + Serve(g, rest, k + 1)
    else []
  }

  /** The answers to a list of requests, up to the first one that is not given. */
  function Answers(g: Guest, asked: seq<Message>, k: nat): (out: seq<Message>)
    ensures |out| <= |asked|
  {
    if asked != [] && g(k, asked[0]).Some? && Sendable(g(k, asked[0]).value)
    then [g(k, asked[0]).value] + Answers(g, asked[1..], k + 1)
    else []
  }

  lemma {:induction false} AnswerAt(g: Guest, asked: seq<Message>, k: nat, i: nat)
    requires i < |Answers(g, asked, k)|
    ensures g(k + i, asked[i]) == Some(Answers(g, asked, k)[i])
    decreases i
  {
    if i > 0 { AnswerAt(g, asked[1..], k + 1, i - 1); }
  }

  /** One end of the stream: bytes the host wrote, and how many reply bytes it consumed. */
  datatype Conn = Conn(wire: seq<Byte>, read: nat)

  const DIALED := Conn([], 0)

  /** How far one Call gets: an error after `cut` bytes of its frame, or a whole frame
      and then a read that sees the reply stream up to `seen`. */
  datatype Progress = WriteBroke(cut: nat) | Wrote(seen: nat)

  predicate Possible(g: Guest, c: Conn, q: Message, o: Progress) {
    match o
    case WriteBroke(cut) => cut < 4 + |q| && (|q| > MAX_MESSAGE ==> cut == 0)
    case Wrote(seen) => Sendable(q) && c.read <= seen <= |Serve(g, c.wire + Frame(q), 0)|
  }

  /** One ReadMessage on a stream of which `seen` bytes have come and `read` are consumed:
      how many are consumed afterwards, and the payload if there is one. */
  function ReadUpTo(stream: seq<Byte>, read: nat, seen: nat): (int, Option<Message>)
    requires read <= seen <= |stream|
  {
    var (r, rest) := Parse(stream[read..seen]);
    (seen - |rest|, if r.Payload? then Some(r.p) else None)
  }

  lemma ReadsForward(stream: seq<Byte>, read: nat, seen: nat)
    requires read <= seen <= |stream|
    ensures read <= ReadUpTo(stream, read, seen).0 <= seen
  {
    RestIsShorter(stream[read..seen]);
  }

  /** agentConn.Call: the connection afterwards and the reply read, if any. */
  function Call(g: Guest, c: Conn, q: Message, o: Progress): (Conn, Option<Message>)
    requires Possible(g, c, q, o)
  {
    match o
    case WriteBroke(cut) => (c.(wire := c.wire + if cut == 0 then [] else Frame(q)[..cut]), None)
    case Wrote(seen) =>
      var wire := c.wire + Frame(q);
      var stream := Serve(g, wire, 0);
      ReadsForward(stream, c.read, seen);
      var (read, reply) := ReadUpTo(stream, c.read, seen);
      (Conn(wire, read), reply)
  }

  /** How the I/O of one Call goes: where its write breaks, if it does, and how many
      reply bytes come before the deadline. */
  datatype Transfer = Transfer(cut: Option<nat>, arrived: nat)

  /** How far that lets a Call get. */
  function Reaches(g: Guest, c: Conn, q: Message, t: Transfer): (o: Progress)
    requires q != [] && c.read <= |Serve(g, c.wire, 0)|
    ensures Possible(g, c, q, o)
  {
    if |q| > MAX_MESSAGE then WriteBroke(0)
    else if t.cut.Some? && t.cut.value < 4 + |q| then WriteBroke(t.cut.value)
    else
      ServeExtends(g, c.wire, Frame(q), 0);
      var stream := Serve(g, c.wire + Frame(q), 0);
      Wrote(if c.read + t.arrived < |stream| then c.read + t.arrived else |stream|)
  }

  // ------------------------------------------------------------- alignment

  /** Whole requests on the wire and `taken` whole replies consumed. */
  predicate At(g: Guest, c: Conn, asked: seq<Message>, taken: nat) {
    && AllSendable(asked)
    && c.wire == FrameAll(asked)
    && taken <= |Answers(g, asked, 0)|
    && c.read == |FrameAll(Answers(g, asked, 0)[..taken])|
  }

  /** Every request asked has been answered and its answer consumed. */
  predicate Clean(g: Guest, c: Conn, asked: seq<Message>) {
    At(g, c, asked, |asked|)
  }

  lemma {:induction false} FrameAllJoins(a: seq<Message>, b: seq<Message>)
    ensures FrameAll(a + b) == FrameAll(a) + FrameAll(b)
  {
    if a == [] {
      assert a + b == b;
    } else {
      FrameAllJoins(a[1..], b);
      assert (a + b)[1..] == a[1..] + b && (a + b)[0] == a[0];
    }
  }

  /** What the guest sends is the frames of its answers. */
  lemma {:induction false} ServeIsAnswers(g: Guest, asked: seq<Message>, k: nat)
    requires AllSendable(asked)
    ensures AllSendable(Answers(g, asked, k))
    ensures Serve(g, FrameAll(asked), k) == FrameAll(Answers(g, asked, k))
    decreases |asked|
  {
    if asked != [] {
      ParseInvertsFrame(FrameAll(asked), asked[0], FrameAll(asked[1..]));
      ServeIsAnswers(g, asked[1..], k + 1);
      if g(k, asked[0]).Some? && Sendable(g(k, asked[0]).value) {
        assert Answers(g, asked, k)[1..] == Answers(g, asked[1..], k + 1);
      }
    }
  }

  /** More requests never change the answers already given. */
  lemma {:induction false} AnswersExtend(g: Guest, a: seq<Message>, b: seq<Message>, k: nat)
    ensures Answers(g, a, k) <= Answers(g, a + b, k)
    ensures |Answers(g, a, k)| < |a| ==> Answers(g, a + b, k) == Answers(g, a, k)
    decreases |a|
  {
    if a != [] {
      assert (a + b)[0] == a[0] && (a + b)[1..] == a[1..] + b;
      AnswersExtend(g, a[1..], b, k + 1);
    }
  }

  /** A payload read from a cut-off stream is the one the whole stream would give. */
  lemma ParseOfPrefix(s: seq<Byte>, t: seq<Byte>)
    ensures Parse(s).0.Payload? ==> Parse(s + t) == (Parse(s).0, Parse(s).1 + t)
  {
    var (r, rest) := Parse(s);
    if r.Payload? {
      ParseInvertsFrame(s, r.p, rest);
      assert s + t == Frame(r.p) + (rest + t);
      ParseInvertsFrame(s + t, r.p, rest + t);
    }
  }

  lemma RestIsShorter(s: seq<Byte>)
    ensures |Parse(s).1| <= |s|
  {
  }

  /** More on the wire only ever adds to the reply stream. */
  lemma {:induction false} ServeExtends(g: Guest, w: seq<Byte>, more: seq<Byte>, k: nat)
    ensures Serve(g, w, k) <= Serve(g, w + more, k)
    decreases |w|
  {
    var (r, rest) := Parse(w);
    if r.Payload? {
      ParseOfPrefix(w, more);
      ServeExtends(g, rest, more, k + 1);
    }
  }

  /** The reply stream from a frame boundary on. */
  lemma StreamFrom(g: Guest, asked: seq<Message>, taken: nat)
    requires AllSendable(asked) && taken <= |Answers(g, asked, 0)|
    ensures var ans := Answers(g, asked, 0);
            AllSendable(ans) && AllSendable(ans[..taken]) && AllSendable(ans[taken..])
            && Serve(g, FrameAll(asked), 0) == FrameAll(ans[..taken]) + FrameAll(ans[taken..])
  {
    var ans := Answers(g, asked, 0);
    ServeIsAnswers(g, asked, 0);
    FrameAllJoins(ans[..taken], ans[taken..]);
    assert ans == ans[..taken] + ans[taken..];
  }

  lemma SentWhole(g: Guest, c: Conn, asked: seq<Message>, taken: nat, q: Message)
    requires At(g, c, asked, taken) && Sendable(q)
    ensures AllSendable(asked + [q]) && FrameAll(asked + [q]) == c.wire + Frame(q)
    ensures At(g, Conn(c.wire + Frame(q), c.read), asked + [q], taken)
  {
    FrameAllJoins(asked, [q]);
    assert FrameAll([q]) == Frame(q) + [] == Frame(q);
    AnswersExtend(g, asked, [q], 0);
    assert Answers(g, asked + [q], 0)[..taken] == Answers(g, asked, 0)[..taken];
  }

  // ------------------------------------------------------------- the theorems

  /** A cut-off reply stream gives its first message or nothing. */
  lemma FirstMessage(s: seq<Byte>, t: seq<Byte>, ms: seq<Message>)
    requires AllSendable(ms) && s + t == FrameAll(ms) && Parse(s).0.Payload?
    ensures ms != [] && Parse(s).0.p == ms[0] && |s| - |Parse(s).1| == |Frame(ms[0])|
  {
    ParseOfPrefix(s, t);
    ParseInvertsFrame(s + t, ms[0], FrameAll(ms[1..]));
    ParseInvertsFrame(s, ms[0], Parse(s).1);
  }

  /** Consuming one more reply. */
  lemma TakeOne(g: Guest, asked: seq<Message>, taken: nat)
    requires AllSendable(asked) && taken < |Answers(g, asked, 0)|
    ensures Sendable(Answers(g, asked, 0)[taken])
    ensures |FrameAll(Answers(g, asked, 0)[..taken + 1])|
            == |FrameAll(Answers(g, asked, 0)[..taken])| + |Frame(Answers(g, asked, 0)[taken])|
  {
    ServeIsAnswers(g, asked, 0);
    OneMore(Answers(g, asked, 0), taken);
  }

  /** A read from a frame boundary gives the next answer. */
  lemma ReadsNext(g: Guest, all: seq<Message>, taken: nat, read: nat, seen: nat)
    requires AllSendable(all) && taken <= |Answers(g, all, 0)|
    requires read == |FrameAll(Answers(g, all, 0)[..taken])|
    requires read <= seen <= |Serve(g, FrameAll(all), 0)|
    requires ReadUpTo(Serve(g, FrameAll(all), 0), read, seen).1.Some?
    ensures taken < |Answers(g, all, 0)|
    ensures ReadUpTo(Serve(g, FrameAll(all), 0), read, seen)
            == (|FrameAll(Answers(g, all, 0)[..taken + 1])|, Some(Answers(g, all, 0)[taken]))
  {
    ServeIsAnswers(g, all, 0);
    ReadsNextOf(Answers(g, all, 0), taken, read, seen);
  }

  /** The same for the frames of any list of messages. */
  lemma ReadsNextOf(ans: seq<Message>, taken: nat, read: nat, seen: nat)
    requires AllSendable(ans) && taken <= |ans| && read == |FrameAll(ans[..taken])|
    requires read <= seen <= |FrameAll(ans)|
    requires ReadUpTo(FrameAll(ans), read, seen).1.Some?
    ensures taken < |ans|
    ensures ReadUpTo(FrameAll(ans), read, seen) == (|FrameAll(ans[..taken + 1])|, Some(ans[taken]))
  {
    var a, b := ans[..taken], ans[taken..];
    assert ans == a + b;
    FrameAllJoins(a, b);
    Behind(FrameAll(a), FrameAll(b));
    ReadIsFirst(FrameAll(ans), read, seen, b);
    OneMore(ans, taken);
  }

  lemma OneMore(ans: seq<Message>, taken: nat)
    requires taken < |ans|
    ensures |FrameAll(ans[..taken + 1])| == |FrameAll(ans[..taken])| + |Frame(ans[taken])|
  {
    var b := ans[taken];
    FrameAllJoins(ans[..taken], [b]);
    assert FrameAll([b]) == Frame(b) + [] == Frame(b);
    assert ans[..taken + 1] == ans[..taken] + [b];
  }

  lemma Between(s: seq<Byte>, i: nat, j: nat)
    requires i <= j <= |s|
    ensures s[i..j] + s[j..] == s[i..]
  {
  }

  lemma Behind(a: seq<Byte>, b: seq<Byte>)
    ensures (a + b)[|a|..] == b
  {
  }

  /** What is read first of a stream of frames is the first message. */
  lemma ReadIsFirst(stream: seq<Byte>, read: nat, seen: nat, ms: seq<Message>)
    requires read <= seen <= |stream| && AllSendable(ms) && stream[read..] == FrameAll(ms)
    requires ReadUpTo(stream, read, seen).1.Some?
    ensures ms != [] && ReadUpTo(stream, read, seen) == (read + |Frame(ms[0])|, Some(ms[0]))
  {
    var ahead := stream[read..seen];
    Between(stream, read, seen);
    FirstMessage(ahead, stream[seen..], ms);
  }

  /** On a connection with `taken` replies consumed, a Call that reads a reply reads the
      answer to request number `taken`, and moves on by one. */
  lemma ReplyIsNextAnswer(g: Guest, c: Conn, asked: seq<Message>, taken: nat, q: Message, o: Progress)
    requires At(g, c, asked, taken) && Possible(g, c, q, o)
    requires Call(g, c, q, o).1.Some?
    ensures taken <= |asked|
    ensures g(taken, (asked + [q])[taken]) == Call(g, c, q, o).1
    ensures At(g, Call(g, c, q, o).0, asked + [q], taken + 1)
  {
    var all := asked + [q];
    CallReadsNext(g, c, asked, taken, q, o.seen);
    AnswerIs(g, all, taken);
    AtAfter(g, Call(g, c, q, o).0, all, taken + 1);
  }

  lemma CallReadsNext(g: Guest, c: Conn, asked: seq<Message>, taken: nat, q: Message, seen: nat)
    requires At(g, c, asked, taken) && Possible(g, c, q, Wrote(seen)) && Call(g, c, q, Wrote(seen)).1.Some?
    ensures AllSendable(asked + [q]) && taken < |Answers(g, asked + [q], 0)|
    ensures Call(g, c, q, Wrote(seen)) == (
      Conn(FrameAll(asked + [q]), |FrameAll(Answers(g, asked + [q], 0)[..taken + 1])|),
      Some(Answers(g, asked + [q], 0)[taken]))
  {
    SentWhole(g, c, asked, taken, q);
    ReadsNext(g, asked + [q], taken, c.read, seen);
  }

  lemma AnswerIs(g: Guest, all: seq<Message>, i: nat)
    requires i < |Answers(g, all, 0)|
    ensures i < |all| && g(i, all[i]) == Some(Answers(g, all, 0)[i])
  {
    AnswerAt(g, all, 0, i);
    assert 0 + i == i;
  }

  lemma AtAfter(g: Guest, c: Conn, all: seq<Message>, taken: nat)
    requires AllSendable(all) && c.wire == FrameAll(all) && taken <= |Answers(g, all, 0)|
    requires c.read == |FrameAll(Answers(g, all, 0)[..taken])|
    ensures At(g, c, all, taken)
  {
  }

  /** Pairing: on a clean connection the reply is the answer to this very request, and
      the connection is clean again. */
  lemma CleanCallPairs(g: Guest, c: Conn, asked: seq<Message>, q: Message, o: Progress)
    requires Clean(g, c, asked) && Possible(g, c, q, o)
    requires Call(g, c, q, o).1.Some?
    ensures Call(g, c, q, o).1 == g(|asked|, q)
    ensures Clean(g, Call(g, c, q, o).0, asked + [q])
  {
    ReplyIsNextAnswer(g, c, asked, |asked|, q, o);
    assert (asked + [q])[|asked|] == q && |asked + [q]| == |asked| + 1;
  }

  /** And exactly when there is a reply: when the guest answers and the whole frame of its
      answer has come. */
  lemma CleanCallAnswered(g: Guest, c: Conn, asked: seq<Message>, q: Message, seen: nat)
    requires Clean(g, c, asked) && Possible(g, c, q, Wrote(seen))
    ensures Call(g, c, q, Wrote(seen)).1.Some? <==>
      && g(|asked|, q).Some? && Sendable(g(|asked|, q).value)
      && seen >= c.read + |Frame(g(|asked|, q).value)|
  {
    var k := |asked|;
    SentWhole(g, c, asked, k, q);
    if Call(g, c, q, Wrote(seen)).1.Some? {
      CleanCallPairs(g, c, asked, q, Wrote(seen));
      CallReadsNext(g, c, asked, k, q, seen);
      TakeOne(g, asked + [q], k);
      ReadsForward(Serve(g, c.wire + Frame(q), 0), c.read, seen);
    } else if g(k, q).Some? && Sendable(g(k, q).value) {
      AnswerFollows(g, asked, q);
      WholeAnswerIsRead(g, c, asked, q, seen);
    }
  }

  lemma {:induction false} AnswersLast(g: Guest, asked: seq<Message>, q: Message, k: nat)
    requires |Answers(g, asked, k)| == |asked|
    requires g(k + |asked|, q).Some? && Sendable(g(k + |asked|, q).value)
    ensures Answers(g, asked + [q], k) == Answers(g, asked, k) + [g(k + |asked|, q).value]
  {
    if asked == [] {
      assert asked + [q] == [q] && Answers(g, [q][1..], k + 1) == [];
    } else {
      assert (asked + [q])[0] == asked[0] && (asked + [q])[1..] == asked[1..] + [q];
      AnswersLast(g, asked[1..], q, k + 1);
    }
  }

  lemma AnswerFollows(g: Guest, asked: seq<Message>, q: Message)
    requires AllSendable(asked) && |Answers(g, asked, 0)| == |asked|
    requires Sendable(q) && g(|asked|, q).Some? && Sendable(g(|asked|, q).value)
    ensures Serve(g, FrameAll(asked + [q]), 0) == FrameAll(Answers(g, asked, 0)) + Frame(g(|asked|, q).value)
  {
    var b := g(|asked|, q).value;
    AnswersLast(g, asked, q, 0);
    ServeIsAnswers(g, asked + [q], 0);
    FrameAllJoins(Answers(g, asked, 0), [b]);
    assert FrameAll([b]) == Frame(b) + [] == Frame(b);
  }

  lemma WholeAnswerIsRead(g: Guest, c: Conn, asked: seq<Message>, q: Message, seen: nat)
    requires Clean(g, c, asked) && Possible(g, c, q, Wrote(seen))
    requires g(|asked|, q).Some? && Sendable(g(|asked|, q).value)
    requires FrameAll(asked + [q]) == c.wire + Frame(q)
    requires Serve(g, FrameAll(asked + [q]), 0) == FrameAll(Answers(g, asked, 0)) + Frame(g(|asked|, q).value)
    ensures seen >= c.read + |Frame(g(|asked|, q).value)| ==> Call(g, c, q, Wrote(seen)).1.Some?
  {
    var b := g(|asked|, q).value;
    var stream := Serve(g, FrameAll(asked + [q]), 0);
    assert Answers(g, asked, 0)[..|asked|] == Answers(g, asked, 0);
    Behind(FrameAll(Answers(g, asked, 0)), Frame(b));
    if seen >= c.read + |Frame(b)| {
      assert stream[c.read..seen] == stream[c.read..] == Frame(b) + [];
      ParseInvertsFrame(stream[c.read..seen], b, []);
    }
  }

  /** With `lag` answers unread every reply is that of an earlier request, and the lag
      stays: it never heals on this connection. */
  lemma LaggingCallIsStale(g: Guest, c: Conn, asked: seq<Message>, lag: nat, q: Message, o: Progress)
    requires 0 < lag <= |asked| && At(g, c, asked, |asked| - lag) && Possible(g, c, q, o)
    requires Call(g, c, q, o).1.Some?
    ensures Call(g, c, q, o).1 == g(|asked| - lag, asked[|asked| - lag])
    ensures At(g, Call(g, c, q, o).0, asked + [q], |asked + [q]| - lag)
  {
    ReplyIsNextAnswer(g, c, asked, |asked| - lag, q, o);
  }

  /** The requests and the replies consumed are determined by the connection. */
  lemma AtUnique(g: Guest, c: Conn, a: seq<Message>, i: nat, b: seq<Message>, j: nat)
    requires At(g, c, a, i) && At(g, c, b, j)
    ensures a == b && i == j
  {
    StreamRoundTrip(a);
    StreamRoundTrip(b);
    var ans := Answers(g, a, 0);
    ServeIsAnswers(g, a, 0);
    if i < j {
      FramesGrow(ans[..i], ans[..j]);
    } else if j < i {
      FramesGrow(ans[..j], ans[..i]);
    }
  }

  lemma FramesGrow(a: seq<Message>, b: seq<Message>)
    requires AllSendable(b) && a <= b && a != b
    ensures AllSendable(a) && |FrameAll(a)| < |FrameAll(b)|
  {
    assert AllSendable(a) && AllSendable(b[|a|..]);
    assert b == a + b[|a|..] && Sendable(b[|a|]);
    FrameAllJoins(a, b[|a|..]);
  }

  /** Which calls leave a clean connection clean: those that put nothing on the wire,
      and those that read their reply. */
  lemma CleanAfterCall(g: Guest, c: Conn, asked: seq<Message>, q: Message, o: Progress)
    requires Clean(g, c, asked) && Possible(g, c, q, o)
    ensures (exists now :: Clean(g, Call(g, c, q, o).0, now))
            <==> o == WriteBroke(0) || Call(g, c, q, o).1.Some?
  {
    var after := Call(g, c, q, o).0;
    if o == WriteBroke(0) {
      assert c.wire + [] == c.wire;
      assert Clean(g, after, asked);
    } else if Call(g, c, q, o).1.Some? {
      CleanCallPairs(g, c, asked, q, o);
    } else {
      forall now ensures !Clean(g, after, now) {
        if Clean(g, after, now) { UnreadIsDirty(g, c, asked, q, o, now); }
      }
    }
  }

  lemma UnreadIsDirty(g: Guest, c: Conn, asked: seq<Message>, q: Message, o: Progress, now: seq<Message>)
    requires Clean(g, c, asked) && Possible(g, c, q, o)
    requires o != WriteBroke(0) && Call(g, c, q, o).1.None?
    ensures !Clean(g, Call(g, c, q, o).0, now)
  {
    match o {
      case WriteBroke(cut) =>
        if AllSendable(now) { PartialFrame(asked, q, cut, now); }
      case Wrote(seen) =>
        if Clean(g, Call(g, c, q, o).0, now) {
          SentWhole(g, c, asked, |asked|, q);
          StreamRoundTrip(now);
          StreamRoundTrip(asked + [q]);
          UnreadReply(g, c, asked, q, seen);
        }
    }
  }

  /** A call that wrote everything and read no reply has not consumed the answer. */
  lemma UnreadReply(g: Guest, c: Conn, asked: seq<Message>, q: Message, seen: nat)
    requires Clean(g, c, asked) && Possible(g, c, q, Wrote(seen))
    requires Call(g, c, q, Wrote(seen)).1.None?
    ensures !Clean(g, Call(g, c, q, Wrote(seen)).0, asked + [q])
  {
    var all := asked + [q];
    var after := Call(g, c, q, Wrote(seen)).0;
    SentWhole(g, c, asked, |asked|, q);
    if Clean(g, after, all) {
      TakeOne(g, all, |asked|);
      StreamFrom(g, all, |asked|);
      var b := Answers(g, all, 0)[|asked|];
      assert Answers(g, all, 0)[|asked|..] == [b];
      assert FrameAll([b]) == Frame(b) + [] == Frame(b);
      var stream := Serve(g, FrameAll(all), 0);
      assert stream[c.read..] == Frame(b) + [];
      assert stream[c.read..seen] == stream[c.read..];
      ParseInvertsFrame(stream[c.read..], b, []);
    }
  }

  lemma ParseAllFrame(m: Message, tail: seq<Byte>)
    requires Sendable(m)
    ensures ParseAll(Frame(m) + tail).0 == [m] + ParseAll(tail).0
  {
    ParseInvertsFrame(Frame(m) + tail, m, tail);
  }

  lemma FirstFrame(ms: seq<Message>, t: seq<Byte>)
    requires ms != []
    ensures FrameAll(ms) + t == Frame(ms[0]) + (FrameAll(ms[1..]) + t)
  {
  }

  lemma FirstOf(ms: seq<Message>, r: seq<Message>)
    requires ms != []
    ensures [ms[0]] + (ms[1..] + r) == ms + r
  {
  }

  lemma {:induction false} ParseAllAfter(ms: seq<Message>, t: seq<Byte>)
    requires AllSendable(ms)
    ensures ParseAll(FrameAll(ms) + t).0 == ms + ParseAll(t).0
  {
    if ms == [] {
      assert FrameAll(ms) + t == t && ms + ParseAll(t).0 == ParseAll(t).0;
    } else {
      FirstFrame(ms, t);
      ParseAllAfter(ms[1..], t);
      ParseAllFrame(ms[0], FrameAll(ms[1..]) + t);
      FirstOf(ms, ParseAll(t).0);
    }
  }

  /** A piece of a frame behind whole frames is never whole frames again. */
  lemma PartialFrame(asked: seq<Message>, q: Message, cut: nat, now: seq<Message>)
    requires AllSendable(asked) && AllSendable(now)
    requires |q| <= MAX_MESSAGE && 0 < cut < 4 + |q|
    ensures FrameAll(now) != FrameAll(asked) + Frame(q)[..cut]
  {
    var part := Frame(q)[..cut];
    NoMessageInPart(q, cut);
    ParseAllAfter(asked, part);
    StreamRoundTrip(now);
    assert asked + [] == asked;
  }

  lemma NoMessageInPart(q: Message, cut: nat)
    requires |q| <= MAX_MESSAGE && cut < 4 + |q|
    ensures !Parse(Frame(q)[..cut]).0.Payload?
  {
    if cut >= 4 {
      assert Frame(q)[..cut][..4] == BigEndian(|q|);
      BigEndianRoundTrip(|q|, [0, 0, 0, 0]);
    }
  }
}
