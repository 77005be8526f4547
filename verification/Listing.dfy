/** Listing user snapshots, and the ids they go by. */
module Listing {
  import opened Options
  import opened Text
  import opened Stamps

  // ------------------------------------------------------------- ids

  predicate IsAlnum(c: char) { 'A' <= c <= 'Z' || 'a' <= c <= 'z' || '0' <= c <= '9' }

  predicate IsIdChar(c: char) { IsAlnum(c) || c == '.' || c == '_' || c == '-' }

  /** The pattern ^[A-Za-z0-9][A-Za-z0-9._-]{0,127}$. */
  predicate MatchesPattern(s: string) {
    && 1 <= |s| <= 128 && IsAlnum(s[0])
    && forall i :: 1 <= i < |s| ==> IsIdChar(s[i])
  }

  /** normalizeSnapshotID. */
  function Normalize(raw: string): Option<string> {
    var id := TrimSpace(raw);
    if id == "" || !MatchesPattern(id) then None else Some(id)
  }

  predicate IsIdTail(rest: string) {
    |rest| <= 127 && forall c :: c in rest ==> IsIdChar(c)
  }

  /** Which ids are accepted: one letter or digit, then up to 127 letters, digits, dots,
      underscores and dashes, white space around them aside. */
  lemma NormalizeMeaning(raw: string)
    ensures Normalize(raw).Some? <==> exists c, rest :: IsAlnum(c) && IsIdTail(rest) && TrimSpace(raw) == [c] + rest
    ensures Normalize(raw).Some? ==> Normalize(raw).value == TrimSpace(raw)
  {
    var id := TrimSpace(raw);
    if Normalize(raw).Some? {
      assert id == [id[0]] + id[1..];
      assert IsIdTail(id[1..]);
    }
    forall c, rest | IsAlnum(c) && IsIdTail(rest) && id == [c] + rest ensures Normalize(raw).Some? {
      assert forall i :: 1 <= i < |id| ==> id[i] == rest[i - 1] && rest[i - 1] in rest;
    }
  }

  /** An accepted id is a fixed point, and a plain path component: joined to a directory
      it can only name an entry of that directory. */
  lemma NormalizedIsPlain(raw: string)
    requires Normalize(raw).Some?
    ensures var id := Normalize(raw).value;
      && Normalize(id) == Some(id)
      && id != "." && id != ".." && '/' !in id
  {
    var id := Normalize(raw).value;
    TrimSpaceMeaning(raw);
    TrimmedIsFixed(id);
    assert forall i :: 0 <= i < |id| ==> IsIdChar(id[i]);
  }

  /** Every id the server hands out is accepted as it is. */
  lemma IssuedIdsAreAccepted(n: nat)
    requires n < 0x1_0000_0000_0000_0000
    ensures Normalize("us-" + Dec(n)) == Some("us-" + Dec(n))
  {
    DecDigits(n);
    TwentyPlaces();
    DecLength(n, 20);
    IssuedMatches(Dec(n));
    TrimmedIsFixed("us-" + Dec(n));
  }

  lemma TwentyPlaces()
    ensures 0x1_0000_0000_0000_0000 < Pow10(20)
  {
    assert Pow10(5) == 100000;
    assert Pow10(10) == 100000 * Pow10(5);
    assert Pow10(15) == 100000 * Pow10(10);
    assert Pow10(20) == 100000 * Pow10(15);
  }

  lemma IssuedMatches(digits: string)
    requires 1 <= |digits| <= 20 && Digits(digits)
    ensures MatchesPattern("us-" + digits) && Trimmed("us-" + digits)
  {
    var id := "us-" + digits;
    assert forall i :: 3 <= i < |id| ==> id[i] == digits[i - 3];
    assert IsDigit(id[|id| - 1]);
  }

  // ------------------------------------------------------------- loading

  datatype Meta = Meta(id: string, name: string, createdAt: string)

  /** What reading and decoding each bundle's meta.json gives. */
  type Store = map<string, Meta>

  datatype Entry = Entry(name: string, dir: bool)

  /** loadUserSnapshotMeta. */
  function Load(store: Store, raw: string): Option<Meta> {
    var id := Normalize(raw);
    if id.None? || id.value !in store then None
    else
      var m := store[id.value];
      Some(if TrimSpace(m.id) == "" then m.(id := id.value) else m)
  }

  /** A directory whose name, white space aside, is an id with a metadata record. */
  predicate Listable(e: Entry, store: Store) {
    e.dir && MatchesPattern(TrimSpace(e.name)) && TrimSpace(e.name) in store
  }

  /** The record of that id, under the id it says it has, or else under that of the
      directory. */
  predicate StandsFor(m: Meta, e: Entry, store: Store) {
    && Listable(e, store)
    && m.name == store[TrimSpace(e.name)].name
    && m.createdAt == store[TrimSpace(e.name)].createdAt
    && m.id == if Blank(store[TrimSpace(e.name)].id) then TrimSpace(e.name) else store[TrimSpace(e.name)].id
  }

  /** Item i stands for entry from[i]; no entry twice, and none of these left out. */
  predicate Represents(items: seq<Meta>, from: seq<nat>, es: seq<Entry>, store: Store) {
    && |from| == |items|
    && (forall i :: 0 <= i < |items| ==> from[i] < |es| && StandsFor(items[i], es[from[i]], store))
    && (forall i, j :: 0 <= i < j < |from| ==> from[i] != from[j])
    && (forall k :: 0 <= k < |es| && Listable(es[k], store) ==> k in from)
  }

  lemma LoadMeaning(store: Store, e: Entry)
    requires e.dir
    ensures Load(store, e.name).Some? <==> Listable(e, store)
    ensures Load(store, e.name).Some? ==> StandsFor(Load(store, e.name).value, e, store)
  {
    if Listable(e, store) { TrimSpaceMeaning(store[TrimSpace(e.name)].id); }
  }

  // ------------------------------------------------------------- sorting

  predicate Descending(ms: seq<Meta>) {
    forall i, j :: 0 <= i < j < |ms| ==> !Lex(ms[i].createdAt, ms[j].createdAt)
  }

  /** Put one more element into a descending list. */
  method Insert(ms: seq<Meta>, m: Meta) returns (out: seq<Meta>, ghost at: nat)
    requires Descending(ms)
    ensures Descending(out)
    ensures at <= |ms| && out == ms[..at] + [m] + ms[at..]
  {
    var k := |ms|;
    while k > 0 && Lex(ms[k - 1].createdAt, m.createdAt)
      invariant 0 <= k <= |ms|
      invariant forall i :: k <= i < |ms| ==> Lex(ms[i].createdAt, m.createdAt)
    {
      k := k - 1;
    }
    out, at := ms[..k] + [m] + ms[k..], k;
    InsertedDescending(ms, m, k);
  }

  lemma InsertedDescending(ms: seq<Meta>, m: Meta, k: nat)
    requires Descending(ms) && k <= |ms|
    requires k > 0 ==> !Lex(ms[k - 1].createdAt, m.createdAt)
    requires forall i :: k <= i < |ms| ==> Lex(ms[i].createdAt, m.createdAt)
    ensures Descending(ms[..k] + [m] + ms[k..])
  {
    var out := ms[..k] + [m] + ms[k..];
    forall i, j | 0 <= i < j < |out| ensures !Lex(out[i].createdAt, out[j].createdAt) {
      if j == k {
        if i < k - 1 { NotBelow(ms[i].createdAt, ms[k - 1].createdAt, m.createdAt); }
      } else if i == k {
        LexTotal(ms[j - 1].createdAt, m.createdAt);
      }
    }
  }

  lemma NotBelow(a: string, b: string, c: string)
    requires !Lex(a, b) && !Lex(b, c)
    ensures !Lex(a, c)
  {
    if Lex(a, c) {
      LexTotal(b, c);
      LexTotal(a, b);
      if b != c { LexTransitive(a, c, b); }
    }
  }

  /** The order of a list: place i has what was at order[i]. */
  predicate Reorders(out: seq<Meta>, order: seq<nat>, found: seq<Meta>) {
    && |out| == |order| == |found|
    && (forall i :: 0 <= i < |out| ==> order[i] < |found| && out[i] == found[order[i]])
    && (forall i, j :: 0 <= i < j < |order| ==> order[i] != order[j])
    && (forall k :: 0 <= k < |found| ==> k in order)
  }

  /** sort.Slice by created_at, descending. */
  method Sort(found: seq<Meta>) returns (out: seq<Meta>, ghost order: seq<nat>)
    ensures Descending(out) && Reorders(out, order, found)
  {
    out, order := [], [];
    for i := 0 to |found|
      invariant Descending(out) && Reorders(out, order, found[..i])
    {
      ghost var before, k := out, 0;
      out, k := Insert(out, found[i]);
      ReordersNext(before, order, found, i, k);
      order := order[..k] + [i] + order[k..];
    }
    assert found[..|found|] == found;
  }

  lemma ReordersNext(out: seq<Meta>, order: seq<nat>, found: seq<Meta>, n: nat, k: nat)
    requires n < |found| && k <= |out| && Reorders(out, order, found[..n])
    ensures Reorders(out[..k] + [found[n]] + out[k..], order[..k] + [n] + order[k..], found[..n + 1])
  {
    var out', order' := out[..k] + [found[n]] + out[k..], order[..k] + [n] + order[k..];
    forall i | 0 <= i < |out'| ensures order'[i] < n + 1 && out'[i] == found[..n + 1][order'[i]] {
      var p := if i < k then i else i - 1;
      assert i != k ==> out'[i] == out[p] && order'[i] == order[p] && out[p] == found[..n][order[p]];
    }
    SplicedDistinct(order, n, k);
    assert forall j :: j in order ==> j in order[..k] || j in order[k..];
  }

  lemma SplicedDistinct(order: seq<nat>, n: nat, k: nat)
    requires k <= |order| && n !in order
    requires forall i, j :: 0 <= i < j < |order| ==> order[i] != order[j]
    ensures var order' := order[..k] + [n] + order[k..];
      forall i, j :: 0 <= i < j < |order'| ==> order'[i] != order'[j]
  {
    var order' := order[..k] + [n] + order[k..];
    forall i, j | 0 <= i < j < |order'| ensures order'[i] != order'[j] {
      var p, q := if i < k then i else i - 1, if j < k then j else j - 1;
      assert i != k ==> order'[i] == order[p] && order[p] in order;
      assert j != k ==> order'[j] == order[q] && order[q] in order;
    }
  }

  /** The loop over the directory: entries that are no directory or do not load are
      skipped. */
  method Collect(es: seq<Entry>, store: Store) returns (found: seq<Meta>, ghost from: seq<nat>)
    ensures Represents(found, from, es, store)
    ensures forall i :: 0 <= i < |found| ==> Backed(found[i], es, store)
    ensures forall k :: 0 <= k < |es| && Listable(es[k], store) ==> Shown(es[k], found, store)
  {
    found, from := [], [];
    for i := 0 to |es|
      invariant Represents(found, from, es[..i], store)
    {
      assert es[..i + 1] == es[..i] + [es[i]];
      if !es[i].dir { continue; }
      LoadMeaning(store, es[i]);
      var m := Load(store, es[i].name);
      if m.None? { continue; }
      found, from := found + [m.value], from + [i];
    }
    assert es[..|es|] == es;
    Represented(found, from, es, store);
  }

  /** Some entry is what the item stands for; some item stands for the entry. */
  predicate Backed(m: Meta, es: seq<Entry>, store: Store) {
    exists k :: 0 <= k < |es| && StandsFor(m, es[k], store)
  }

  predicate Shown(e: Entry, items: seq<Meta>, store: Store) {
    exists i :: 0 <= i < |items| && StandsFor(items[i], e, store)
  }

  lemma Represented(items: seq<Meta>, from: seq<nat>, es: seq<Entry>, store: Store)
    requires Represents(items, from, es, store)
    ensures forall i :: 0 <= i < |items| ==> Backed(items[i], es, store)
    ensures forall k :: 0 <= k < |es| && Listable(es[k], store) ==> Shown(es[k], items, store)
  {
    forall i | 0 <= i < |items| ensures Backed(items[i], es, store) {
      assert StandsFor(items[i], es[from[i]], store);
    }
    forall k | 0 <= k < |es| && Listable(es[k], store) ensures Shown(es[k], items, store) {
      var i :| 0 <= i < |from| && from[i] == k;
      assert StandsFor(items[i], es[from[i]], store);
    }
  }

  /** What reading the store's directory gives. */
  datatype Directory = NotThere | Unreadable(msg: string) | Entries(es: seq<Entry>)

  datatype Listed = Snapshots(items: seq<Meta>) | Failed(msg: string)

  /** listUserSnapshots: a store that does not exist yet is empty, any other read error is
      passed on.  Otherwise each directory entry that fits the pattern and has a record is
      listed, once, with that record's name and time, in descending order of the times as
      strings; nothing else is. */
  method List(dir: Directory, store: Store) returns (out: Listed, ghost from: seq<nat>)
    ensures out.Failed? <==> dir.Unreadable?
    ensures dir.Unreadable? ==> out.msg == dir.msg
    ensures dir.NotThere? ==> out == Snapshots([])
    ensures dir.Entries? ==> Represents(out.items, from, dir.es, store) && Descending(out.items)
  {
    from := [];
    match dir {
      case NotThere => out := Snapshots([]);
      case Unreadable(msg) => out := Failed(msg);
      case Entries(es) =>
        var found, items;
        ghost var order;
        found, from := Collect(es, store);
        items, order := Sort(found);
        from := Rearranged(items, order, found, from, es, store);
        out := Snapshots(items);
    }
  }

  lemma Rearranged(items: seq<Meta>, order: seq<nat>, found: seq<Meta>, from: seq<nat>, es: seq<Entry>, store: Store)
    returns (now: seq<nat>)
    requires Reorders(items, order, found) && Represents(found, from, es, store)
    ensures Represents(items, now, es, store)
  {
    now := seq(|order|, i requires 0 <= i < |order| => from[order[i]]);
    forall k | 0 <= k < |es| && Listable(es[k], store) ensures k in now {
      var p :| 0 <= p < |from| && from[p] == k;
      assert p in order;
      var i :| 0 <= i < |order| && order[i] == p;
      assert now[i] == k;
    }
    forall i, j | 0 <= i < j < |now| ensures now[i] != now[j] {
      assert order[i] != order[j];
    }
  }

  // ------------------------------------------------------------- theorems

  /** The metadata of snapshots taken at the given times. */
  predicate StampedAt(ms: seq<Meta>, ts: seq<Stamp>) {
    |ms| == |ts| && forall i :: 0 <= i < |ms| ==> Valid(ts[i]) && ms[i].createdAt == Render(ts[i])
  }

  predicate NewestFirst(ts: seq<Stamp>) {
    forall i, j :: 0 <= i < j < |ts| ==> !Before(ts[i], ts[j])
  }

  predicate SomeClash(ts: seq<Stamp>) {
    exists i, j :: 0 <= i < |ts| && 0 <= j < |ts| && Before(ts[i], ts[j]) && Clash(ts[i], ts[j])
  }

  /** A listing is newest first if and only if no two of its times clash. */
  lemma ListingOrder(ms: seq<Meta>, ts: seq<Stamp>)
    requires Descending(ms) && StampedAt(ms, ts)
    ensures NewestFirst(ts) <==> !SomeClash(ts)
  {
    if !NewestFirst(ts) { OutOfOrderClashes(ms, ts); }
    if SomeClash(ts) { ClashIsOutOfOrder(ms, ts); }
  }

  lemma ClashIsOutOfOrder(ms: seq<Meta>, ts: seq<Stamp>)
    requires Descending(ms) && StampedAt(ms, ts) && SomeClash(ts)
    ensures !NewestFirst(ts)
  {
    var i, j :| 0 <= i < |ts| && 0 <= j < |ts| && Before(ts[i], ts[j]) && Clash(ts[i], ts[j]);
    ClashSortsWrong(ts[i], ts[j]);
    assert ms[i].createdAt == Render(ts[i]) && ms[j].createdAt == Render(ts[j]);
    assert i < j;
  }

  lemma OutOfOrderClashes(ms: seq<Meta>, ts: seq<Stamp>)
    requires Descending(ms) && StampedAt(ms, ts) && !NewestFirst(ts)
    ensures SomeClash(ts)
  {
    var i, j :| 0 <= i < j < |ts| && Before(ts[i], ts[j]);
    StampOrder(ts[i], ts[j]);
    assert !Lex(ms[i].createdAt, ms[j].createdAt);
  }

  /** Of two clashing times the string order has the earlier one above the later. */
  lemma ClashSortsWrong(a: Stamp, b: Stamp)
    requires Valid(a) && Valid(b) && Before(a, b) && Clash(a, b)
    ensures Lex(Render(b), Render(a))
    ensures !Before(b, a) && a != b
  {
    StampOrder(a, b);
    LexTotal(Render(a), Render(b));
    NotBeforeItself(Fields(a));
  }

  /** Section 5.1 of RFC 3339: with equally many fraction digits throughout, string order
      is time order. */
  lemma EqualFractionsListNewestFirst(ms: seq<Meta>, ts: seq<Stamp>)
    requires Descending(ms) && StampedAt(ms, ts)
    requires forall i, j :: 0 <= i < |ts| && 0 <= j < |ts| ==> |Fraction(ts[i].nanos)| == |Fraction(ts[j].nanos)|
    ensures NewestFirst(ts)
  {
    ListingOrder(ms, ts);
  }
}
