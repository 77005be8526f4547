/** The framed byte stream between host and agent: agentrpc.go, and the vsock
    handshake line that comes before the first frame. */
module Frames {
  import opened Options

  type Byte = b: int | 0 <= b < 256

  const MAX_MESSAGE: nat := 8 * 1024 * 1024
  const NEWLINE: Byte := 10

  // --------------------------------------------------------- the codec

  /** binary.BigEndian.PutUint32 of a number cast to uint32. */
  function BigEndian(n: nat): (h: seq<Byte>)
    ensures |h| == 4
  {
    seq(4, (i: nat) requires i < 4 => Octet(n, 3 - i))
  }

  /** The i-th byte of a number, from the low end. */
  function Octet(n: nat, i: nat): Byte {
    if i == 0 then n % 256 else Octet(n / 256, i - 1)
  }

  lemma BigEndianBytes(n: nat)
    requires n < 0x1_0000_0000
    ensures BigEndian(n) == [n / 0x100_0000, n / 0x1_0000 % 256, n / 256 % 256, n % 256]
  {
    assert n / 0x1_0000 == n / 256 / 256 && n / 0x100_0000 == n / 256 / 256 / 256;
    assert Octet(n, 1) == Octet(n / 256, 0);
    assert Octet(n, 2) == Octet(n / 256, 1) == Octet(n / 256 / 256, 0);
    assert Octet(n, 3) == Octet(n / 256, 2) == Octet(n / 256 / 256, 1) == Octet(n / 256 / 256 / 256, 0);
  }

  function FromBigEndian(h: seq<Byte>): (n: nat)
    requires |h| == 4
    ensures n < 0x1_0000_0000
  {
    h[0] as nat * 0x100_0000 + h[1] as nat * 0x1_0000 + h[2] as nat * 256 + h[3] as nat
  }

  /** Header and number determine each other. */
  lemma BigEndianRoundTrip(n: nat, h: seq<Byte>)
    requires n < 0x1_0000_0000 && |h| == 4
    ensures FromBigEndian(BigEndian(n)) == n
    ensures BigEndian(FromBigEndian(h)) == h
  {
    var a: int, b: int, c: int, d: int := h[0], h[1], h[2], h[3];
    var m := FromBigEndian(h);
    BigEndianBytes(m);
    BigEndianBytes(n);
    assert m / 256 == (a * 256 + b) * 256 + c;
    assert m / 0x1_0000 == a * 256 + b && m / 0x1_0000 % 256 == b;
    assert m / 0x100_0000 == a;
    assert n / 0x1_0000 == n / 256 / 256 && n / 0x100_0000 == n / 256 / 256 / 256;
  }

  predicate Sendable(p: seq<Byte>) { 1 <= |p| <= MAX_MESSAGE }

  /** A message as it goes over the wire. */
  function Frame(p: seq<Byte>): seq<Byte> {
    BigEndian(|p|) + p
  }

  datatype Received =
    | Payload(p: seq<Byte>)
    | Eof
    | Torn
    | BadLength(n: nat)

  /** What one ReadMessage makes of a stream, and what it leaves. */
  function Parse(s: seq<Byte>): (Received, seq<Byte>) {
    if s == [] then (Eof, [])
    else if |s| < 4 then (Torn, [])
    else
      var n := FromBigEndian(s[..4]);
      if n == 0 || n > MAX_MESSAGE then (BadLength(n), s[4..])
      else if |s| == 4 then (Eof, [])
      else if |s| < 4 + n then (Torn, [])
      else (Payload(s[4..4 + n]), s[4 + n..])
  }

  /** Reading is the exact inverse of writing: a payload comes back iff the stream
      starts with its frame, and the rest is untouched. */
  lemma ParseInvertsFrame(s: seq<Byte>, p: seq<Byte>, rest: seq<Byte>)
    ensures Parse(s) == (Payload(p), rest) <==> Sendable(p) && s == Frame(p) + rest
  {
    if Sendable(p) && s == Frame(p) + rest {
      BigEndianRoundTrip(|p|, [0, 0, 0, 0]);
      assert s[..4] == BigEndian(|p|) && s[4..] == p + rest;
      assert s[4..4 + |p|] == p && s[4 + |p|..] == rest;
    }
    if Parse(s) == (Payload(p), rest) {
      BigEndianRoundTrip(0, s[..4]);
      assert s == s[..4] + s[4..4 + |p|] + s[4 + |p|..];
    }
  }

  /** When no payload comes: at the end of the stream, or of a header with nothing behind
      it, the clean end; inside a header or a message, a torn one; and a header that
      announces nothing or too much is refused with only the header consumed. */
  lemma ParseRefuses(s: seq<Byte>)
    ensures Parse(s) == (Eof, []) <==> s == [] || exists n: nat :: 1 <= n <= MAX_MESSAGE && s == BigEndian(n)
    ensures Parse(s) == (Torn, []) <==>
      1 <= |s| < 4 || (|s| > 4 && exists n: nat :: |s| - 4 < n <= MAX_MESSAGE && s[..4] == BigEndian(n))
    ensures forall n: nat, rest :: Parse(s) == (BadLength(n), rest) <==>
      n < 0x1_0000_0000 && (n == 0 || n > MAX_MESSAGE) && s == BigEndian(n) + rest
  {
    if |s| >= 4 {
      var n := FromBigEndian(s[..4]);
      BigEndianRoundTrip(0, s[..4]);
      assert s == BigEndian(n) + s[4..];
      forall k: nat | k < 0x1_0000_0000 && s[..4] == BigEndian(k) ensures k == n { BigEndianRoundTrip(k, s[..4]); }
      assert |s| == 4 ==> s[..4] == s;
      forall k: nat, rest | s == BigEndian(k) + rest ensures s[..4] == BigEndian(k) && s[4..] == rest {
      }
    }
  }

  predicate AllSendable(ps: seq<seq<Byte>>) {
    forall i :: 0 <= i < |ps| ==> Sendable(ps[i])
  }

  function FrameAll(ps: seq<seq<Byte>>): seq<Byte> {
    if ps == [] then []
    else Frame(ps[0]) + FrameAll(ps[1..])
  }

  /** Repeated reads, as long as payloads come. */
  function ParseAll(s: seq<Byte>): (seq<seq<Byte>>, Received, seq<Byte>)
    decreases |s|
  {
    var (r, rest) := Parse(s);
    if r.Payload? then
      var (ps, last, left) := ParseAll(rest);
      ([r.p] + ps, last, left)
    else ([], r, rest)
  }

  /** Any list of messages comes back whole, in order, with nothing lost or left. */
  lemma {:induction false} StreamRoundTrip(ps: seq<seq<Byte>>)
    requires AllSendable(ps)
    ensures ParseAll(FrameAll(ps)) == (ps, Eof, [])
  {
    if ps != [] {
      StreamRoundTrip(ps[1..]);
      ParseInvertsFrame(FrameAll(ps), ps[0], FrameAll(ps[1..]));
      assert ps == [ps[0]] + ps[1..];
    }
  }

  // ----------------------------------------------------------- the reader

  function Joined(chunks: seq<seq<Byte>>): seq<Byte> {
    if chunks == [] then [] else chunks[0] + Joined(chunks[1..])
  }

  /** A buffered reader over a connection that delivers its bytes in chunks. */
  class Reader {
    var buffered: seq<Byte>
    var coming: seq<seq<Byte>>

    /** The bytes not yet consumed. */
    function Remaining(): seq<Byte>
      reads this
    {
      buffered + Joined(coming)
    }

    constructor (chunks: seq<seq<Byte>>)
      ensures Remaining() == Joined(chunks)
    {
      buffered, coming := [], chunks;
    }

    /** One fill of the buffer from the connection. */
    method Fill() returns (more: bool)
      requires buffered == []
      modifies this
      ensures Remaining() == old(Remaining())
      ensures more <==> old(coming) != []
      ensures more ==> |coming| == |old(coming)| - 1
      ensures !more ==> Remaining() == []
    {
      more := coming != [];
      if more { buffered, coming := coming[0], coming[1..]; }
    }

    /** io.ReadFull into a buffer: all of it or an error, whatever the chunks. */
    method ReadFull(buf: array<Byte>) returns (got: nat)
      modifies this, buf
      ensures got == if |old(Remaining())| < buf.Length then |old(Remaining())| else buf.Length
      ensures buf[..got] == old(Remaining())[..got]
      ensures Remaining() == old(Remaining())[got..]
    {
      got := 0;
      ghost var all := Remaining();
      while got < buf.Length
        invariant 0 <= got <= buf.Length && got <= |all|
        invariant buf[..got] == all[..got]
        invariant Remaining() == all[got..]
        decreases |coming|, buf.Length - got
      {
        if buffered == [] {
          var more := Fill();
          if !more { return; }
        } else {
          ghost var done := buf[..got];
          assert Remaining()[0] == all[got] && Remaining()[1..] == buffered[1..] + Joined(coming);
          buf[got] := buffered[0];
          buffered := buffered[1..];
          assert all[got..][1..] == all[got + 1..];
          assert buf[..got] == done && buf[..got + 1] == done + [all[got]] == all[..got + 1];
          got := got + 1;
        }
      }
    }

    /** ReadMessage. */
    method ReadMessage() returns (r: Received)
      modifies this
      ensures (r, Remaining()) == Parse(old(Remaining()))
    {
      ghost var all := Remaining();
      var hdr := new Byte[4];
      var got := ReadFull(hdr);
      if got < 4 { return if got == 0 then Eof else Torn; }
      assert hdr[..] == hdr[..4] == all[..4];
      var n := FromBigEndian(hdr[..]);
      if n == 0 || n > MAX_MESSAGE { return BadLength(n); }
      var buf := new Byte[n];
      got := ReadFull(buf);
      if got < n { return if got == 0 then Eof else Torn; }
      assert buf[..] == buf[..n] == all[4..4 + n];
      r := Payload(buf[..]);
    }

    /** ReadLine: up to and including the first newline, or everything when none comes.
        `late` says that the deadline passed first.  After that the goroutine it started
        goes on reading, so that nothing is known of what remains. */
    method ReadLine(late: bool) returns (line: seq<Byte>, found: bool)
      modifies this
      ensures found <==> !late && NEWLINE in old(Remaining())
      ensures found ==> IsLine(line) && old(Remaining()) == line + Remaining()
      ensures !found && !late ==> line == old(Remaining()) && Remaining() == []
    {
      line, found := [], false;
      ghost var all := Remaining();
      if late { return; }
      while true
        invariant all == line + Remaining() && NEWLINE !in line
        decreases |coming|, |buffered|
      {
        if buffered == [] {
          var more := Fill();
          if !more { return; }
        } else {
          var b := buffered[0];
          line, buffered := line + [b], buffered[1..];
          if b == NEWLINE {
            found := true;
            assert line[..|line| - 1] + [b] == line;
            assert all[|line| - 1] == NEWLINE;
            return;
          }
        }
      }
    }
  }

  // ----------------------------------------------------------- the writer

  /** What a write puts out. */
  function Put(p: seq<Byte>, short: Option<nat>): seq<Byte> {
    if short.Some? && short.value < |p| then p[..short.value] else p
  }

  class Writer {
    var sent: seq<Byte>

    constructor ()
      ensures sent == []
    {
      sent := [];
    }

    /** One write on the connection: all of it, or an error after `short` bytes. */
    method Write(p: seq<Byte>, short: Option<nat>) returns (ok: bool)
      modifies this
      ensures ok <==> short.None?
      ensures sent == old(sent) + Put(p, short)
    {
      ok := short.None?;
      sent := sent + Put(p, short);
    }

    /** WriteMessage, for given results of its two writes: refuses an oversized message
        without writing; otherwise it succeeds if and only if both writes do, with the
        whole frame on the wire, and a failure leaves a prefix of it: as much of the
        header as went out, or the header and as much of the message. */
    method WriteMessage(raw: seq<Byte>, header: Option<nat>, body: Option<nat>) returns (ok: bool)
      modifies this
      ensures ok <==> |raw| <= 8_388_608 && header.None? && body.None?
      ensures |raw| > MAX_MESSAGE ==> sent == old(sent)
      ensures ok ==> sent == old(sent) + Frame(raw)
      ensures |raw| <= MAX_MESSAGE && header.Some? ==>
        sent == old(sent) + Frame(raw)[..if header.value < 4 then header.value else 4]
      ensures |raw| <= MAX_MESSAGE && header.None? && body.Some? ==>
        sent == old(sent) + Frame(raw)[..4 + if body.value < |raw| then body.value else |raw|]
    {
      if |raw| > MAX_MESSAGE { return false; }
      var hdr := new Byte[4];
      var n := |raw|;
      hdr[0], hdr[1], hdr[2], hdr[3] := n / 0x100_0000, n / 0x1_0000 % 256, n / 256 % 256, n % 256;
      BigEndianBytes(n);
      assert hdr[..] == BigEndian(n);
      ok := Write(hdr[..], header);
      if !ok { return; }
      ok := Write(raw, body);
      assert old(sent) + hdr[..] + Put(raw, body) == old(sent) + (hdr[..] + Put(raw, body));
    }
  }

  // -------------------------------------------------------- the handshake

  /** The UTF-8 encodings of unicode.IsSpace. */
  predicate SpaceBytes(w: seq<Byte>) {
    || (|w| == 1 && (9 <= w[0] <= 13 || w[0] == 32))
    || (|w| == 2 && w[0] == 0xC2 && (w[1] == 0x85 || w[1] == 0xA0))
    || w == [0xE1, 0x9A, 0x80]
    || (|w| == 3 && w[0] == 0xE2 && w[1] == 0x80 && (0x80 <= w[2] <= 0x8A || w[2] == 0xA8 || w[2] == 0xA9 || w[2] == 0xAF))
    || w == [0xE2, 0x81, 0x9F]
    || w == [0xE3, 0x80, 0x80]
  }

  /** How many bytes the white-space character at the front takes, 0 for none. */
  function FrontSpace(s: seq<Byte>): (n: nat)
    ensures n <= |s|
  {
    if |s| >= 1 && SpaceBytes(s[..1]) then 1
    else if |s| >= 2 && SpaceBytes(s[..2]) then 2
    else if |s| >= 3 && SpaceBytes(s[..3]) then 3
    else 0
  }

  function BackSpace(s: seq<Byte>): (n: nat)
    ensures n <= |s|
  {
    if |s| >= 1 && SpaceBytes(s[|s| - 1..]) then 1
    else if |s| >= 2 && SpaceBytes(s[|s| - 2..]) then 2
    else if |s| >= 3 && SpaceBytes(s[|s| - 3..]) then 3
    else 0
  }

  const O: Byte := 79
  const K: Byte := 75

  /** strings.TrimSpace on bytes. */
  function Stripped(s: seq<Byte>): seq<Byte>
    decreases |s|
  {
    if FrontSpace(s) > 0 then Stripped(s[FrontSpace(s)..])
    else if BackSpace(s) > 0 then Stripped(s[..|s| - BackSpace(s)])
    else s
  }

  /** dialAgent accepts a line that starts with "OK " or is "OK" but for white space. */
  predicate AcceptsLine(line: seq<Byte>) {
    [O, K, 32] <= line || Stripped(line) == [O, K]
  }

  /** Exactly one newline, at the end. */
  predicate IsLine(s: seq<Byte>) {
    s != [] && s[|s| - 1] == NEWLINE && forall i :: 0 <= i < |s| - 1 ==> s[i] != NEWLINE
  }

  /** The first newline fixes the line. */
  lemma FirstLineUnique(a: seq<Byte>, b: seq<Byte>, x: seq<Byte>, y: seq<Byte>)
    requires IsLine(a) && IsLine(b) && a + x == b + y
    ensures a == b && x == y
  {
    assert (a + x)[|a| - 1] == NEWLINE && (b + y)[|b| - 1] == NEWLINE;
    assert forall i :: 0 <= i < |a| ==> (a + x)[i] == a[i];
    assert forall i :: 0 <= i < |b| ==> (b + y)[i] == b[i];
    assert |a| == |b|;
    assert a == (a + x)[..|a|] && x == (a + x)[|a|..];
  }

  // What is accepted, without the trimming loop.

  /** A run of white space, character by character. */
  predicate Blanks(chars: seq<seq<Byte>>) {
    forall i :: 0 <= i < |chars| ==> SpaceBytes(chars[i])
  }

  /** "OK" between two runs of white space. */
  predicate Around(line: seq<Byte>, before: seq<seq<Byte>>, after: seq<seq<Byte>>) {
    Blanks(before) && Blanks(after) && line == Joined(before) + [O, K] + Joined(after)
  }

  /** A line is accepted exactly when it starts with "OK " or is "OK" with nothing but
      white space around it. */
  lemma AcceptsLineMeaning(line: seq<Byte>)
    ensures AcceptsLine(line) <==> [O, K, 32] <= line || exists before, after :: Around(line, before, after)
  {
    if Stripped(line) == [O, K] { var before, after := StrippedIsAround(line); }
    forall before, after | Around(line, before, after) ensures Stripped(line) == [O, K] {
      AroundStrips(line, before, after);
    }
  }

  lemma {:induction false} StrippedIsAround(line: seq<Byte>) returns (before: seq<seq<Byte>>, after: seq<seq<Byte>>)
    requires Stripped(line) == [O, K]
    ensures Around(line, before, after)
    decreases |line|
  {
    var f, b := FrontSpace(line), BackSpace(line);
    if f > 0 {
      before, after := StrippedIsAround(line[f..]);
      AroundFront(line[f..], line[..f], before, after);
      assert line == line[..f] + line[f..];
      before := [line[..f]] + before;
    } else if b > 0 {
      before, after := StrippedIsAround(line[..|line| - b]);
      AroundBack(line[..|line| - b], line[|line| - b..], before, after);
      assert line == line[..|line| - b] + line[|line| - b..];
      after := after + [line[|line| - b..]];
    } else {
      before, after := [], [];
      assert line == [] + [O, K] + [];
    }
  }

  lemma AroundFront(line: seq<Byte>, c: seq<Byte>, before: seq<seq<Byte>>, after: seq<seq<Byte>>)
    requires Around(line, before, after) && SpaceBytes(c)
    ensures Around(c + line, [c] + before, after)
  {
    assert ([c] + before)[1..] == before;
    Reassociate(c, Joined(before), [O, K], Joined(after));
  }

  lemma AroundBack(line: seq<Byte>, c: seq<Byte>, before: seq<seq<Byte>>, after: seq<seq<Byte>>)
    requires Around(line, before, after) && SpaceBytes(c)
    ensures Around(line + c, before, after + [c])
  {
    JoinedOneMore(after, c);
    ReassociateBack(Joined(before), [O, K], Joined(after), c);
  }

  lemma Reassociate(a: seq<Byte>, b: seq<Byte>, c: seq<Byte>, d: seq<Byte>)
    ensures a + (b + c + d) == (a + b) + c + d
  {
  }

  lemma ReassociateBack(a: seq<Byte>, b: seq<Byte>, c: seq<Byte>, d: seq<Byte>)
    ensures a + b + c + d == a + b + (c + d)
  {
  }

  lemma {:induction false} JoinedOneMore(chunks: seq<seq<Byte>>, last: seq<Byte>)
    ensures Joined(chunks + [last]) == Joined(chunks) + last
  {
    if chunks == [] {
      assert chunks + [last] == [last] && Joined([last][1..]) == [];
    } else {
      JoinedOneMore(chunks[1..], last);
      assert (chunks + [last])[0] == chunks[0] && (chunks + [last])[1..] == chunks[1..] + [last];
    }
  }

  lemma FrontIs(c: seq<Byte>, rest: seq<Byte>)
    requires SpaceBytes(c)
    ensures FrontSpace(c + rest) == |c| > 0
  {
    var s := c + rest;
    assert s[..|c|] == c && s[0] == c[0];
  }

  lemma BackIs(rest: seq<Byte>, c: seq<Byte>)
    requires SpaceBytes(c)
    ensures BackSpace(rest + c) == |c| > 0
  {
    var s := rest + c;
    assert s[|s| - |c|..] == c && s[|s| - 1] == c[|c| - 1];
    if |c| == 3 { assert s[|s| - 2..] == c[1..]; }
  }

  lemma {:induction false} AroundStrips(line: seq<Byte>, before: seq<seq<Byte>>, after: seq<seq<Byte>>)
    requires Around(line, before, after)
    ensures Stripped(line) == [O, K]
    decreases |before| + |after|
  {
    if before != [] {
      var c, rest := before[0], Joined(before[1..]) + [O, K] + Joined(after);
      Reassociate(c, Joined(before[1..]), [O, K], Joined(after));
      StripFront(c, rest);
      AroundStrips(rest, before[1..], after);
    } else if after != [] {
      var rest := WithoutLast(line, after);
      StripBack(rest, after[|after| - 1]);
      AroundStrips(rest, [], after[..|after| - 1]);
    } else {
      assert line == [O, K];
    }
  }

  lemma WithoutLast(line: seq<Byte>, after: seq<seq<Byte>>) returns (rest: seq<Byte>)
    requires Around(line, [], after) && after != []
    ensures Around(rest, [], after[..|after| - 1]) && line == rest + after[|after| - 1]
    ensures |rest| >= 2 && rest[0] == O && rest[1] == K
  {
    var init, c := after[..|after| - 1], after[|after| - 1];
    rest := Joined([]) + [O, K] + Joined(init);
    assert after == init + [c];
    JoinedOneMore(init, c);
    ReassociateBack(Joined([]), [O, K], Joined(init), c);
  }

  lemma StripFront(c: seq<Byte>, rest: seq<Byte>)
    requires SpaceBytes(c)
    ensures Stripped(c + rest) == Stripped(rest)
  {
    FrontIs(c, rest);
    assert (c + rest)[|c|..] == rest;
  }

  lemma StripBack(rest: seq<Byte>, c: seq<Byte>)
    requires SpaceBytes(c) && |rest| >= 2 && rest[0] == O && rest[1] == K
    ensures Stripped(rest + c) == Stripped(rest)
  {
    BackIs(rest, c);
    assert FrontSpace(rest + c) == 0;
    assert (rest + c)[..|rest|] == rest;
  }

  /** dialAgent after the CONNECT line is out, whatever the stream: it succeeds exactly on
      an accepted first line that comes in time, and then has consumed that line and not a
      byte of the frames behind it. */
  method Handshake(r: Reader, late: bool) returns (ok: bool)
    modifies r
    ensures late || NEWLINE !in old(r.Remaining()) ==> !ok
    ensures !late ==> forall line, rest {:trigger line + rest} ::
      IsLine(line) && old(r.Remaining()) == line + rest ==> (ok <==> AcceptsLine(line)) && r.Remaining() == rest
  {
    ghost var all := r.Remaining();
    var got, found := r.ReadLine(late);
    ok := found && AcceptsLine(got);
    if found { assert all[|got| - 1] == NEWLINE; }
    forall line, rest {:trigger line + rest} | !late && IsLine(line) && all == line + rest
      ensures (ok <==> AcceptsLine(line)) && r.Remaining() == rest
    {
      assert all[|line| - 1] == NEWLINE;
      FirstLineUnique(line, got, rest, r.Remaining());
    }
  }

  /** Reads until something other than a payload comes. */
  method ReadAll(r: Reader) returns (out: seq<seq<Byte>>, last: Received)
    modifies r
    ensures (out, last, r.Remaining()) == ParseAll(old(r.Remaining()))
  {
    out := [];
    ghost var before := r.Remaining();
    assert [] + ParseAll(before).0 == ParseAll(before).0;
    last := r.ReadMessage();
    while last.Payload?
      invariant Parse(before) == (last, r.Remaining())
      invariant ParseAll(old(r.Remaining())) == Prepend(out, ParseAll(before))
      decreases |before|
    {
      ghost var tail := ParseAll(r.Remaining());
      assert out + ([last.p] + tail.0) == out + [last.p] + tail.0;
      out := out + [last.p];
      before := r.Remaining();
      last := r.ReadMessage();
    }
    assert ParseAll(before) == ([], last, r.Remaining());
    assert out + [] == out;
  }

  ghost function Prepend(ps: seq<seq<Byte>>, t: (seq<seq<Byte>>, Received, seq<Byte>)): (seq<seq<Byte>>, Received, seq<Byte>) {
    (ps + t.0, t.1, t.2)
  }

  /** A dial followed by reads: for any chunking of an accepted line that comes in time
      and any messages behind it, the reads return exactly those messages and end at the
      end. */
  method DialAndReadAll(r: Reader, late: bool, ghost line: seq<Byte>, ghost ps: seq<seq<Byte>>)
    returns (ok: bool, out: seq<seq<Byte>>, last: Received)
    requires IsLine(line) && AcceptsLine(line)
    requires AllSendable(ps)
    requires r.Remaining() == line + FrameAll(ps)
    modifies r
    ensures ok <==> !late
    ensures ok ==> out == ps && last == Eof && r.Remaining() == []
  {
    ok := Handshake(r, late);
    out, last := [], Eof;
    if !ok { return; }
    out, last := ReadAll(r);
    StreamRoundTrip(ps);
  }
}
