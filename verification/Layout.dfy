/** Names and addresses of the per-sandbox networks. */
module Layout {
  import opened Options
  import opened Text
  import Orchestrator

  // ------------------------------------------------- dotted-decimal form

  /** The scanner behind net.ParseIP and ParseCIDR: finished fields, the field under
      way, and how many digits it has. */
  datatype Scan = Bad | Scan(fields: seq<nat>, val: nat, digits: nat)

  function Feed1(st: Scan, c: char): Scan {
    if st.Bad? then Bad
    else if IsDigit(c) then
      if st.digits == 1 && st.val == 0 then Bad
      else
        var v: nat := st.val * 10 + (c as int - '0' as int);
        if v > 255 then Bad else Scan(st.fields, v, st.digits + 1)
    else if c == '.' then
      if st.digits == 0 || |st.fields| == 3 then Bad else Scan(st.fields + [st.val], 0, 0)
    else Bad
  }

  function Feed(st: Scan, s: string): Scan {
    if s == "" then st else Feed1(Feed(st, s[..|s| - 1]), s[|s| - 1])
  }

  function ParseQuad(s: string): Option<seq<nat>> {
    match Feed(Scan([], 0, 0), s)
    case Bad => None
    case Scan(fields, v, digits) => if |fields| == 3 && digits > 0 then Some(fields + [v]) else None
  }

  lemma {:induction false} FeedConcat(st: Scan, s: string, t: string)
    ensures Feed(st, s + t) == Feed(Feed(st, s), t)
    decreases |t|
  {
    if t == "" {
      assert s + t == s;
    } else {
      FeedConcat(st, s, t[..|t| - 1]);
      assert (s + t)[..|s + t| - 1] == s + t[..|t| - 1];
    }
  }

  /** A rendered number fills one field, or is refused when it is no octet. */
  lemma {:induction false} FeedDec(fields: seq<nat>, n: nat)
    ensures Feed(Scan(fields, 0, 0), Dec(n)) == if n <= 255 then Scan(fields, n, |Dec(n)|) else Bad
    ensures |Dec(n)| >= 1
    decreases n
  {
    var st := Scan(fields, 0, 0);
    if n < 10 {
      assert Dec(n)[..0] == "";
    } else {
      FeedDec(fields, n / 10);
      assert Dec(n)[..|Dec(n)| - 1] == Dec(n / 10);
    }
  }

  function Quad(a: nat, b: nat, c: nat, d: nat): string {
    Dec(a) + "." + Dec(b) + "." + Dec(c) + "." + Dec(d)
  }

  lemma FeedField(fields: seq<nat>, n: nat)
    requires n <= 255 && |fields| < 3
    ensures Feed(Scan(fields, 0, 0), Dec(n) + ".") == Scan(fields + [n], 0, 0)
  {
    FeedDec(fields, n);
    FeedConcat(Scan(fields, 0, 0), Dec(n), ".");
    assert "."[..0] == "";
  }

  lemma {:induction false} FeedBad(s: string)
    ensures Feed(Bad, s) == Bad
    decreases |s|
  {
    if s != "" { FeedBad(s[..|s| - 1]); }
  }

  lemma FeedHead(a: nat, b: nat)
    requires a <= 255 && b <= 255
    ensures Feed(Scan([], 0, 0), Dec(a) + "." + Dec(b) + ".") == Scan([a, b], 0, 0)
  {
    FeedConcat(Scan([], 0, 0), Dec(a) + ".", Dec(b) + ".");
    FeedField([], a);
    FeedField([a], b);
    assert [] + [a] == [a] && [a] + [b] == [a, b];
    assert Dec(a) + "." + Dec(b) + "." == (Dec(a) + ".") + (Dec(b) + ".");
  }

  lemma FeedTail(a: nat, b: nat, c: nat, d: nat)
    requires d <= 255
    ensures Feed(Scan([a, b], 0, 0), Dec(c) + "." + Dec(d)) ==
      if c <= 255 then Scan([a, b, c], d, |Dec(d)|) else Bad
    ensures |Dec(d)| >= 1
  {
    FeedDec([a, b, c], d);
    if c <= 255 {
      FeedConcat(Scan([a, b], 0, 0), Dec(c) + ".", Dec(d));
      FeedField([a, b], c);
      assert [a, b] + [c] == [a, b, c];
    } else {
      FeedConcat(Scan([a, b], 0, 0), Dec(c), "." + Dec(d));
      FeedDec([a, b], c);
      FeedBad("." + Dec(d));
      assert Dec(c) + "." + Dec(d) == Dec(c) + ("." + Dec(d));
    }
  }

  /** Rendering and parsing agree: the third field decides. */
  lemma QuadParses(a: nat, b: nat, c: nat, d: nat)
    requires a <= 255 && b <= 255 && d <= 255
    ensures ParseQuad(Quad(a, b, c, d)) == if c <= 255 then Some([a, b, c, d]) else None
  {
    var head, tail := Dec(a) + "." + Dec(b) + ".", Dec(c) + "." + Dec(d);
    FeedHead(a, b);
    FeedTail(a, b, c, d);
    FeedConcat(Scan([], 0, 0), head, tail);
    Regroup(head, Dec(c), Dec(d));
    assert [a, b, c] + [d] == [a, b, c, d];
  }

  lemma Regroup(head: string, c: string, d: string)
    ensures head + c + "." + d == head + (c + "." + d)
  {
  }

  /** setupSandboxNetnsAndRouting's addresses, as it renders them. */
  function VethHostIp(n: nat): string { "10.200." + Dec(n) + ".1" }
  function VethNsIp(n: nat): string { "10.200." + Dec(n) + ".2" }
  function HostIp(n: nat): string { "172.16." + Dec(n) + ".1" }
  function GuestIp(n: nat): string { "172.16." + Dec(n) + ".2" }

  lemma SmallDecs()
    ensures Dec(1) == "1" && Dec(2) == "2" && Dec(10) == "10" && Dec(16) == "16" && Dec(172) == "172" && Dec(200) == "200"
  {
    assert Dec(17) == "17" && Dec(20) == "20";
  }

  /** A subnet number can be given addresses exactly when it is an octet: the bound
      the orchestrator's Configure stage uses. */
  lemma AddressesParse(n: nat)
    ensures ParseQuad(VethHostIp(n)) == if n <= Orchestrator.MAX_OCTET then Some([10, 200, n, 1]) else None
    ensures ParseQuad(VethNsIp(n)) == if n <= Orchestrator.MAX_OCTET then Some([10, 200, n, 2]) else None
    ensures ParseQuad(HostIp(n)) == if n <= Orchestrator.MAX_OCTET then Some([172, 16, n, 1]) else None
    ensures ParseQuad(GuestIp(n)) == if n <= Orchestrator.MAX_OCTET then Some([172, 16, n, 2]) else None
  {
    AddressQuads(n);
    QuadParses(10, 200, n, 1);
    QuadParses(10, 200, n, 2);
    QuadParses(172, 16, n, 1);
    QuadParses(172, 16, n, 2);
  }

  lemma AddressQuads(n: nat)
    ensures VethHostIp(n) == Quad(10, 200, n, 1) && VethNsIp(n) == Quad(10, 200, n, 2)
    ensures HostIp(n) == Quad(172, 16, n, 1) && GuestIp(n) == Quad(172, 16, n, 2)
  {
    SmallDecs();
    var d := Dec(n);
    assert "10.200." == "10" + "." + "200" + "." && "172.16." == "172" + "." + "16" + ".";
    assert ".1" == "." + "1" && ".2" == "." + "2";
  }

  // ------------------------------------------------------ address blocks

  /** An address as a 32-bit number. */
  function Ip4(q: seq<nat>): nat
    requires |q| == 4
  {
    ((q[0] * 256 + q[1]) * 256 + q[2]) * 256 + q[3]
  }

  /** The addresses of the block of size 2^(32-prefix) that starts at `base`. */
  predicate InBlock(addr: nat, base: nat, size: nat) { base <= addr < base + size }

  function GuestBase(n: nat): nat { Ip4([172, 16, n, 0]) }
  function VethBase(n: nat): nat { Ip4([10, 200, n, 0]) }

  /** For all subnets: guest and veth /30s are aligned and pairwise disjoint, own their
      end points, and the guest side lies inside the masqueraded 172.16.0.0/16. */
  lemma BlocksDisjoint(m: nat, n: nat, addr: nat)
    requires m <= 255 && n <= 255
    ensures m != n ==> !(InBlock(addr, GuestBase(m), 4) && InBlock(addr, GuestBase(n), 4))
    ensures m != n ==> !(InBlock(addr, VethBase(m), 4) && InBlock(addr, VethBase(n), 4))
    ensures !(InBlock(addr, GuestBase(m), 4) && InBlock(addr, VethBase(n), 4))
    ensures GuestBase(n) % 4 == 0 && VethBase(n) % 4 == 0
    ensures InBlock(Ip4([172, 16, n, 1]), GuestBase(n), 4) && InBlock(Ip4([172, 16, n, 2]), GuestBase(n), 4)
    ensures InBlock(Ip4([10, 200, n, 1]), VethBase(n), 4) && InBlock(Ip4([10, 200, n, 2]), VethBase(n), 4)
    ensures InBlock(addr, GuestBase(n), 4) ==> InBlock(addr, Ip4([172, 16, 0, 0]), 65536)
  {
  }

  // ---------------------------------------------------------------- names

  /** netnsNameForSandbox. */
  function NetnsName(raw: string): string {
    var id := TrimSpace(raw);
    if id == "" then "manta-unknown"
    else
      var name := "manta-" + id;
      if |name| > 63 then name[..63] else name
  }

  function VethName(n: nat): string { "veth" + Padded(n, 3) }

  function PoolId(i: nat): string { "pool-" + Padded(i, 3) }
  function SandboxId(k: nat): string { "sb-" + Dec(k) }
  const GOLDEN_ID := "snapshot"

  /** The id the code gives the network of an owner. */
  function IdOf(name: Orchestrator.NsName): string {
    match name
    case PoolNs(i) => PoolId(i)
    case SandboxNs(k) => SandboxId(k)
    case GoldenNs => GOLDEN_ID
  }

  /** Names as the server makes them: pool numbers and 64-bit sandbox numbers. */
  predicate Proper(name: Orchestrator.NsName) {
    match name
    case PoolNs(i) => i < Orchestrator.WRAP32
    case SandboxNs(k) => k < Orchestrator.WRAP64
    case GoldenNs => true
  }

  lemma Pow10Bounds()
    ensures Pow10(10) > Orchestrator.WRAP32 && Pow10(20) > Orchestrator.WRAP64
  {
    assert Pow10(5) == 100000;
    assert Pow10(10) == 10_000_000_000;
    assert Pow10(15) == 1_000_000_000_000_000;
  }

  lemma ProperShort(name: Orchestrator.NsName)
    requires Proper(name)
    ensures |IdOf(name)| <= 57 && IdOf(name) != "" && Trimmed(IdOf(name))
  {
    Pow10Bounds();
    match name {
      case PoolNs(i) =>
        DecLength(i, 10);
        PaddedValue(i, 3);
      case SandboxNs(k) =>
        DecLength(k, 20);
        DecDigits(k);
      case GoldenNs =>
    }
  }

  lemma NameNotCut(name: Orchestrator.NsName)
    requires Proper(name)
    ensures NetnsName(IdOf(name)) == "manta-" + IdOf(name)
  {
    ProperShort(name);
    TrimmedIsFixed(IdOf(name));
  }

  /** Different owners get different netns names, none of them cut to 63 characters;
      so the orchestrator may treat the names as the owners' identities. */
  lemma NetnsNamesInjective(a: Orchestrator.NsName, b: Orchestrator.NsName)
    requires Proper(a) && Proper(b)
    ensures NetnsName(IdOf(a)) == NetnsName(IdOf(b)) ==> a == b
    ensures |NetnsName(IdOf(a))| <= 63
  {
    NameNotCut(a);
    NameNotCut(b);
    ProperShort(a);
    var x, y := NetnsName(IdOf(a)), NetnsName(IdOf(b));
    if x == y {
      assert IdOf(a) == x[6..] && IdOf(b) == y[6..];
      IdsInjective(a, b);
    }
  }

  lemma IdHead(name: Orchestrator.NsName)
    ensures |IdOf(name)| >= 2
    ensures name.PoolNs? ==> IdOf(name)[0] == 'p'
    ensures name.SandboxNs? ==> IdOf(name)[0] == 's' && IdOf(name)[1] == 'b'
    ensures name.GoldenNs? ==> IdOf(name)[0] == 's' && IdOf(name)[1] == 'n'
  {
  }

  lemma IdsInjective(a: Orchestrator.NsName, b: Orchestrator.NsName)
    requires IdOf(a) == IdOf(b)
    ensures a == b
  {
    IdHead(a);
    IdHead(b);
    if a.PoolNs? {
      assert IdOf(a)[5..] == Padded(a.i, 3) && IdOf(b)[5..] == Padded(b.i, 3);
      PaddedInjective(a.i, b.i, 3);
    } else if a.SandboxNs? {
      assert IdOf(a)[3..] == Dec(a.id) && IdOf(b)[3..] == Dec(b.id);
      DecInjective(a.id, b.id);
    }
  }

  /** A name begins with the prefix and the id, up to 63 characters, and is never bare. */
  lemma NetnsNameMeaning(raw: string)
    ensures Blank(raw) ==> NetnsName(raw) == "manta-unknown"
    ensures !Blank(raw) ==> NetnsName(raw) <= "manta-" + TrimSpace(raw)
    ensures !Blank(raw) ==> |NetnsName(raw)| == if |TrimSpace(raw)| < 57 then 6 + |TrimSpace(raw)| else 63
  {
    TrimSpaceMeaning(raw);
  }

  lemma SmallPadded()
    ensures Padded(1, 3) == "001" && Padded(1017, 3) == "1017" && Dec(17) == "17"
  {
    assert Zeros(1) == "0" && Zeros(2) == "00";
    assert Dec(1) == "1" && Dec(10) == "10" && Dec(101) == "101";
  }

  /** What an operator sees: the first pool slot, a sandbox, the golden snapshot. */
  lemma NamesAsSeen()
    ensures NetnsName(PoolId(1)) == "manta-pool-001" && VethName(1) == "veth001"
    ensures NetnsName(SandboxId(17)) == "manta-sb-17" && VethName(1017) == "veth1017"
    ensures NetnsName(GOLDEN_ID) == "manta-snapshot"
  {
    SmallPadded();
    NameNotCut(Orchestrator.PoolNs(1));
    NameNotCut(Orchestrator.SandboxNs(17));
    NameNotCut(Orchestrator.GoldenNs);
  }

  /** Host link names tell subnets apart. */
  lemma VethNameInjective(m: nat, n: nat)
    ensures VethName(m) == VethName(n) ==> m == n
    ensures VethName(m) != "veth0"
  {
    PaddedValue(m, 3);
    if VethName(m) == VethName(n) {
      assert VethName(m)[4..] == Padded(m, 3) && VethName(n)[4..] == Padded(n, 3);
      PaddedInjective(m, n, 3);
    }
  }
}
