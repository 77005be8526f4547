/** RFC3339Nano stamps in UTC, and when comparing them as strings compares the times. */
module Stamps {
  import opened Text

  // ------------------------------------------------------ string order

  /** Go's < on strings. */
  predicate Lex(a: string, b: string) {
    b != "" && (a == "" || a[0] < b[0] || (a[0] == b[0] && Lex(a[1..], b[1..])))
  }

  /** a and b part at position k, a being the smaller. */
  predicate PartAt(a: string, b: string, k: nat) {
    k <= |a| && k < |b| && a[..k] == b[..k] && (k == |a| || a[k] < b[k])
  }

  lemma SameHead(a: string, b: string, k: nat)
    requires k <= |a| && k <= |b| && a[..k] == b[..k]
    ensures k > 0 ==> a[0] == b[0]
  {
    if k > 0 { assert a[0] == a[..k][0] && b[0] == b[..k][0]; }
  }

  lemma {:induction false} LexParts(a: string, b: string)
    ensures Lex(a, b) <==> exists k: nat :: PartAt(a, b, k)
  {
    if a != "" && b != "" && a[0] == b[0] {
      LexParts(a[1..], b[1..]);
      if Lex(a[1..], b[1..]) {
        var k: nat :| PartAt(a[1..], b[1..], k);
        assert a[..k + 1] == [a[0]] + a[1..][..k] && b[..k + 1] == [b[0]] + b[1..][..k];
        assert PartAt(a, b, k + 1);
      }
      forall k: nat | PartAt(a, b, k) ensures Lex(a, b) {
        assert k > 0;
        assert a[1..][..k - 1] == a[..k][1..] && b[1..][..k - 1] == b[..k][1..];
        assert PartAt(a[1..], b[1..], k - 1);
      }
    } else {
      assert Lex(a, b) ==> PartAt(a, b, 0);
      forall k: nat | PartAt(a, b, k) ensures Lex(a, b) {
        assert a[..k] == b[..k];
        SameHead(a, b, k);
      }
    }
  }

  /** A strict total order. */
  lemma {:induction false} LexTotal(a: string, b: string)
    ensures Lex(a, b) ==> a != b && !Lex(b, a)
    ensures a == b || Lex(a, b) || Lex(b, a)
    decreases |a|
  {
    if a != "" && b != "" && a[0] == b[0] {
      LexTotal(a[1..], b[1..]);
      assert a == [a[0]] + a[1..] && b == [b[0]] + b[1..];
    }
  }

  lemma {:induction false} LexTransitive(a: string, b: string, c: string)
    requires Lex(a, b) && Lex(b, c)
    ensures Lex(a, c)
    decreases |a|
  {
    if a != "" && a[0] == b[0] == c[0] {
      LexTransitive(a[1..], b[1..], c[1..]);
    }
  }

  /** Equally long heads are compared before the tails. */
  lemma {:induction false} LexJoin(a: string, b: string, x: string, y: string)
    requires |a| == |b|
    ensures Lex(a + x, b + y) <==> Lex(a, b) || (a == b && Lex(x, y))
    decreases |a|
  {
    if a == "" {
      assert a + x == x && b + y == y;
    } else {
      assert (a + x)[1..] == a[1..] + x && (b + y)[1..] == b[1..] + y;
      LexJoin(a[1..], b[1..], x, y);
      assert a == [a[0]] + a[1..] && b == [b[0]] + b[1..];
    }
  }

  predicate Digits(s: string) { forall i :: 0 <= i < |s| ==> IsDigit(s[i]) }

  /** Equally long digit strings are ordered as their numbers. */
  lemma {:induction false} LexIsValue(a: string, b: string)
    requires Digits(a) && Digits(b) && |a| == |b|
    ensures Lex(a, b) <==> Value(a) < Value(b)
    decreases |a|
  {
    if a != "" {
      var n := |a| - 1;
      var i, j, x, y := a[..n], b[..n], a[n..], b[n..];
      assert a == i + x && b == j + y && x == [a[n]] && y == [b[n]];
      assert IsDigit(a[n]) && IsDigit(b[n]);
      LexIsValue(i, j);
      LexIsValue(j, i);
      LexTotal(i, j);
      LexJoin(i, j, x, y);
      assert Lex(x, y) <==> a[n] < b[n];
    }
  }

  /** Zero-padded numbers of one width. */
  lemma PaddedOrder(m: nat, n: nat, w: nat)
    requires w >= 1 && m < Pow10(w) && n < Pow10(w)
    ensures |Padded(m, w)| == |Padded(n, w)| == w
    ensures Lex(Padded(m, w), Padded(n, w)) <==> m < n
    ensures Padded(m, w) == Padded(n, w) <==> m == n
  {
    DecLength(m, w);
    DecLength(n, w);
    PaddedValue(m, w);
    PaddedValue(n, w);
    LexIsValue(Padded(m, w), Padded(n, w));
  }

  // ------------------------------------------------------------- stamps

  /** The fields from the year to the second. */
  datatype Stamp = Stamp(year: nat, month: nat, day: nat, hour: nat, minute: nat, second: nat, nanos: nat)

  predicate Valid(t: Stamp) {
    && t.year < 10000 && 1 <= t.month <= 12 && 1 <= t.day <= 31
    && t.hour < 24 && t.minute < 60 && t.second < 60 && t.nanos < 1_000_000_000
  }

  /** A number, its width and the character after it. */
  datatype Field = Field(value: nat, width: nat, after: char)

  function Fields(t: Stamp): seq<Field> {
    [Field(t.year, 4, '-'), Field(t.month, 2, '-'), Field(t.day, 2, 'T'),
     Field(t.hour, 2, ':'), Field(t.minute, 2, ':')]
  }

  function RenderFields(fs: seq<Field>): string {
    if fs == [] then "" else Padded(fs[0].value, fs[0].width) + [fs[0].after] + RenderFields(fs[1..])
  }

  function TrimZeros(s: string): string {
    if s != "" && s[|s| - 1] == '0' then TrimZeros(s[..|s| - 1]) else s
  }

  /** The layout's .999999999: trailing zeros dropped, and the point with them. */
  function Fraction(nanos: nat): string {
    if nanos == 0 then "" else "." + TrimZeros(Padded(nanos, 9))
  }

  /** time.RFC3339Nano in UTC. */
  function Render(t: Stamp): string {
    RenderFields(Fields(t)) + Padded(t.second, 2) + (Fraction(t.nanos) + "Z")
  }

  predicate SameSecond(a: Stamp, b: Stamp) {
    Fields(a) == Fields(b) && a.second == b.second
  }

  predicate FieldsBefore(xs: seq<Field>, ys: seq<Field>)
    requires |xs| == |ys|
  {
    xs != [] && (xs[0].value < ys[0].value || (xs[0].value == ys[0].value && FieldsBefore(xs[1..], ys[1..])))
  }

  /** a is the earlier time. */
  predicate Before(a: Stamp, b: Stamp) {
    || FieldsBefore(Fields(a), Fields(b))
    || (Fields(a) == Fields(b) && (a.second < b.second || (a.second == b.second && a.nanos < b.nanos)))
  }

  predicate ProperPrefix(a: string, b: string) { |a| < |b| && b[..|a|] == a }

  /** Two times of one second, the earlier with a fraction that begins the later's. */
  predicate Clash(a: Stamp, b: Stamp) {
    SameSecond(a, b) && ProperPrefix(Fraction(a.nanos), Fraction(b.nanos))
  }

  // ------------------------------------------------------ the whole seconds

  predicate Fits(f: Field) { f.width >= 1 && f.value < Pow10(f.width) }

  predicate SameLayout(xs: seq<Field>, ys: seq<Field>) {
    && |xs| == |ys|
    && forall i :: 0 <= i < |xs| ==>
         Fits(xs[i]) && Fits(ys[i]) && xs[i].width == ys[i].width && xs[i].after == ys[i].after
  }

  lemma {:induction false} FieldsOrder(xs: seq<Field>, ys: seq<Field>)
    requires SameLayout(xs, ys)
    ensures |RenderFields(xs)| == |RenderFields(ys)|
    ensures Lex(RenderFields(xs), RenderFields(ys)) <==> FieldsBefore(xs, ys)
    ensures RenderFields(xs) == RenderFields(ys) <==> xs == ys
    decreases |xs|
  {
    if xs != [] {
      var f, g := xs[0], ys[0];
      FieldsOrder(xs[1..], ys[1..]);
      PaddedOrder(f.value, g.value, f.width);
      var a, b := Padded(f.value, f.width), Padded(g.value, g.width);
      LexJoin(a, b, [f.after], [g.after]);
      LexJoin(a + [f.after], b + [g.after], RenderFields(xs[1..]), RenderFields(ys[1..]));
      HeadsEqual(a, b, [f.after], RenderFields(xs[1..]), RenderFields(ys[1..]));
      assert xs == [f] + xs[1..] && ys == [g] + ys[1..];
    }
  }

  lemma HeadsEqual(a: string, b: string, sep: string, x: string, y: string)
    requires |a| == |b|
    ensures a + sep + x == b + sep + y <==> a == b && x == y
    ensures a + sep == b + sep <==> a == b
  {
    var m, n := a + sep + x, b + sep + y;
    assert m[..|a|] == a && n[..|a|] == b;
    assert m[|a| + |sep|..] == x && n[|a| + |sep|..] == y;
    assert (a + sep)[..|a|] == a && (b + sep)[..|a|] == b;
  }

  lemma SecondsOrder(a: Stamp, b: Stamp)
    requires Valid(a) && Valid(b)
    ensures var x, y := RenderFields(Fields(a)) + Padded(a.second, 2), RenderFields(Fields(b)) + Padded(b.second, 2);
      && |x| == |y|
      && (x == y <==> SameSecond(a, b))
      && (Lex(x, y) <==> FieldsBefore(Fields(a), Fields(b)) || (Fields(a) == Fields(b) && a.second < b.second))
  {
    assert Pow10(2) == 10 * Pow10(1) == 100 && Pow10(4) == 100 * Pow10(2) == 10000 by {
      assert Pow10(3) == 10 * Pow10(2);
    }
    FieldsOrder(Fields(a), Fields(b));
    PaddedOrder(a.second, b.second, 2);
    var x, y := RenderFields(Fields(a)), RenderFields(Fields(b));
    LexJoin(x, y, Padded(a.second, 2), Padded(b.second, 2));
    HeadsEqual(x, y, "", Padded(a.second, 2), Padded(b.second, 2));
    assert x + "" == x && y + "" == y;
  }

  // ------------------------------------------------------ the fractions

  lemma {:induction false} TrimZerosCuts(s: string)
    ensures |TrimZeros(s)| <= |s| && s[..|TrimZeros(s)|] == TrimZeros(s)
    ensures forall i :: |TrimZeros(s)| <= i < |s| ==> s[i] == '0'
    decreases |s|
  {
    if s != "" && s[|s| - 1] == '0' {
      TrimZerosCuts(s[..|s| - 1]);
      var k := |TrimZeros(s)|;
      assert s[..|s| - 1][..k] == s[..k];
    }
  }

  lemma {:induction false} TrimZerosEnds(s: string)
    ensures TrimZeros(s) != "" ==> TrimZeros(s)[|TrimZeros(s)| - 1] != '0'
    decreases |s|
  {
    if s != "" && s[|s| - 1] == '0' { TrimZerosEnds(s[..|s| - 1]); }
  }

  /** The digits of a fraction: not ending in zero, and with zeros up to nine places the
      nanoseconds. */
  predicate FractionOf(digits: string, nanos: nat) {
    && digits != "" && digits[|digits| - 1] != '0' && |digits| <= 9
    && Digits(digits + Zeros(9 - |digits|)) && Value(digits + Zeros(9 - |digits|)) == nanos
  }

  /** What a stamp looks like. */
  lemma RenderMeaning(t: Stamp)
    requires Valid(t)
    ensures Render(t) ==
      Padded(t.year, 4) + "-" + (Padded(t.month, 2) + "-" + (Padded(t.day, 2) + "T"
      + (Padded(t.hour, 2) + ":" + (Padded(t.minute, 2) + ":"
      + (Padded(t.second, 2) + (Fraction(t.nanos) + "Z"))))))
  {
    var fs := Fields(t);
    var tail := Padded(t.second, 2) + (Fraction(t.nanos) + "Z");
    RenderNext(fs, tail);
    RenderNext(fs[1..], tail);
    RenderNext(fs[2..], tail);
    RenderNext(fs[3..], tail);
    RenderNext(fs[4..], tail);
    assert fs[5..] == [] && "" + tail == tail;
    assert RenderFields(fs) + Padded(t.second, 2) + (Fraction(t.nanos) + "Z") == RenderFields(fs) + tail;
  }

  lemma RenderNext(fs: seq<Field>, tail: string)
    requires fs != []
    ensures RenderFields(fs) + tail == Padded(fs[0].value, fs[0].width) + [fs[0].after] + (RenderFields(fs[1..]) + tail)
  {
  }

  lemma NotAllZeros(s: string)
    requires Digits(s) && TrimZeros(s) == ""
    ensures Value(s) == 0
  {
    TrimZerosCuts(s);
    ZerosValue(|s|);
    assert s == Zeros(|s|);
  }

  lemma FractionMeaning(nanos: nat)
    requires nanos < 1_000_000_000
    ensures nanos == 0 ==> Fraction(nanos) == ""
    ensures nanos > 0 ==> exists d :: FractionOf(d, nanos) && Fraction(nanos) == "." + d
  {
    if nanos > 0 {
      NinePlaces();
      PaddedOrder(nanos, nanos, 9);
      PaddedValue(nanos, 9);
      TrimmedDenotes(Padded(nanos, 9));
    }
  }

  lemma TrimmedDenotes(p: string)
    requires Digits(p) && |p| == 9 && Value(p) > 0
    ensures FractionOf(TrimZeros(p), Value(p))
  {
    var d := TrimZeros(p);
    if d == "" { NotAllZeros(p); }
    TrimZerosCuts(p);
    TrimZerosEnds(p);
    ZerosValue(9 - |d|);
    assert d + Zeros(9 - |d|) == p;
  }

  /** Of two fractions of equal width the smaller one either parts from the larger at a
      kept digit, or is what the larger begins with. */
  lemma TrimmedOrder(m: nat, n: nat)
    requires m < n < 1_000_000_000
    ensures var x, y := TrimZeros(Padded(m, 9)), TrimZeros(Padded(n, 9));
      ProperPrefix(x, y) || exists k: nat :: k < |x| && PartAt(x, y, k)
  {
    NinePlaces();
    PaddedOrder(m, n, 9);
    PaddedValue(m, 9);
    PartTrimmed(Padded(m, 9), Padded(n, 9));
  }

  lemma NinePlaces()
    ensures Pow10(9) == 1_000_000_000
  {
    assert Pow10(3) == 1000;
    assert Pow10(6) == 1000 * Pow10(3);
  }

  lemma PartTrimmed(s: string, t: string)
    requires Digits(s) && |s| == |t| && Lex(s, t)
    ensures ProperPrefix(TrimZeros(s), TrimZeros(t))
      || exists k: nat :: k < |TrimZeros(s)| && PartAt(TrimZeros(s), TrimZeros(t), k)
  {
    LexParts(s, t);
    var k: nat :| PartAt(s, t, k);
    TrimZerosCuts(s);
    TrimZerosCuts(t);
    var x, y := TrimZeros(s), TrimZeros(t);
    assert IsDigit(s[k]);
    assert k < |y|;
    if k < |x| {
      assert x[..k] == s[..k] && y[..k] == t[..k];
      assert x[k] == s[k] && y[k] == t[k];
      assert PartAt(x, y, k);
    } else {
      assert x == s[..k][..|x|] && y[..|x|] == t[..k][..|x|];
    }
  }

  /** The same with the point and the Z around them. */
  lemma FractionOrder(m: nat, n: nat)
    requires m < n < 1_000_000_000
    ensures Lex(Fraction(m) + "Z", Fraction(n) + "Z") <==> !ProperPrefix(Fraction(m), Fraction(n))
  {
    var p, q := Fraction(m), Fraction(n);
    if m == 0 {
      assert p + "Z" == "Z" && (q + "Z")[0] == '.';
    } else {
      var x, y := TrimZeros(Padded(m, 9)), TrimZeros(Padded(n, 9));
      TrimmedOrder(m, n);
      PaddedValue(n, 9);
      TrimZerosCuts(Padded(n, 9));
      assert Digits(y) by { assert forall i :: 0 <= i < |y| ==> y[i] == Padded(n, 9)[i]; }
      PointedOrder(x, y);
    }
  }

  lemma PointedOrder(x: string, y: string)
    requires Digits(y)
    requires ProperPrefix(x, y) || exists k: nat :: k < |x| && PartAt(x, y, k)
    ensures Lex("." + x + "Z", "." + y + "Z") <==> !ProperPrefix("." + x, "." + y)
  {
    if ProperPrefix(x, y) {
      PrefixOrder("." + x, "." + y);
    } else {
      var k: nat :| k < |x| && PartAt(x, y, k);
      PartedOrder("." + x, "." + y, k + 1);
    }
  }

  lemma PrefixOrder(p: string, q: string)
    requires ProperPrefix(p, q) && IsDigit(q[|p|])
    ensures !Lex(p + "Z", q + "Z")
  {
    var rest := q[|p|..] + "Z";
    assert q + "Z" == p + rest && rest[0] == q[|p|];
    LexJoin(p, p, "Z", rest);
    LexTotal(p, p);
  }

  lemma PartedOrder(p: string, q: string, k: nat)
    requires k < |p| && PartAt(p, q, k)
    ensures Lex(p + "Z", q + "Z") && !ProperPrefix(p, q)
  {
    assert (p + "Z")[..k] == p[..k] && (q + "Z")[..k] == q[..k];
    assert PartAt(p + "Z", q + "Z", k);
    LexParts(p + "Z", q + "Z");
    assert |p| < |q| ==> q[..|p|][k] == q[k];
  }

  // ------------------------------------------------------------- theorems

  /** Comparing two UTC stamps as strings gives their order in time if and only if they
      do not clash. */
  lemma StampOrder(a: Stamp, b: Stamp)
    requires Valid(a) && Valid(b) && Before(a, b)
    ensures Lex(Render(a), Render(b)) <==> !Clash(a, b)
  {
    SecondsOrder(a, b);
    var x, y := RenderFields(Fields(a)) + Padded(a.second, 2), RenderFields(Fields(b)) + Padded(b.second, 2);
    LexJoin(x, y, Fraction(a.nanos) + "Z", Fraction(b.nanos) + "Z");
    LexTotal(x, y);
    if SameSecond(a, b) {
      NotBeforeItself(Fields(a));
      FractionOrder(a.nanos, b.nanos);
    }
  }

  lemma {:induction false} NotBeforeItself(xs: seq<Field>)
    ensures !FieldsBefore(xs, xs)
    decreases |xs|
  {
    if xs != [] { NotBeforeItself(xs[1..]); }
  }

  /** Stamps of equally many fraction digits never clash. */
  lemma EqualFractionsAgree(a: Stamp, b: Stamp)
    requires Valid(a) && Valid(b) && |Fraction(a.nanos)| == |Fraction(b.nanos)|
    requires Before(a, b)
    ensures Lex(Render(a), Render(b))
  {
    StampOrder(a, b);
  }

  /** A whole second sorts after every other instant of that second. */
  lemma WholeSecondSortsLast(a: Stamp, b: Stamp)
    requires Valid(a) && Valid(b) && SameSecond(a, b) && a.nanos == 0 < b.nanos
    ensures Before(a, b) && Lex(Render(b), Render(a))
  {
    StampOrder(a, b);
    LexTotal(Render(a), Render(b));
    SecondsOrder(a, b);
    var x, y := RenderFields(Fields(a)) + Padded(a.second, 2), RenderFields(Fields(b)) + Padded(b.second, 2);
    assert Render(a) == x + (Fraction(a.nanos) + "Z") && Render(b) == y + (Fraction(b.nanos) + "Z");
    assert Render(a)[|x|] == 'Z' && Render(b)[|y|] == '.';
  }
}
