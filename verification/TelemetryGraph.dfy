/** In-place sanitising of telemetry objects (src/telemetry.ts).

    Values form an arbitrary finite graph: records and lists may be shared and may contain
    themselves. The walk rewrites records where they are, replaces lists by copies and does
    not look inside containers more than six hops below its argument.
 */
module TelemetryGraph {
  import opened TelemetryText

  /** `Leaf` stands for null, numbers, booleans and whatever else is not a container. */
  datatype Value = Str(s: string) | Leaf(id: int) | Rec(r: Record) | Arr(a: List)

  class Record {
    var fields: map<string, Value>

    constructor (fields: map<string, Value>)
      ensures this.fields == fields
    {
      this.fields := fields;
    }
  }

  class List {
    var items: seq<Value>

    constructor (items: seq<Value>)
      ensures this.items == items
    {
      this.items := items;
    }
  }

  const DEPTH_LIMIT := 6

  // ---------- What the caller sees ----------

  /** The containers a walk may meet: closed under fields and items. */
  ghost predicate World(recs: set<Record>, lists: set<List>)
    reads recs, lists
  {
    && (forall r, k :: r in recs && k in r.fields ==> InWorld(r.fields[k], recs, lists))
    && (forall a, i :: a in lists && 0 <= i < |a.items| ==> InWorld(a.items[i], recs, lists))
  }

  predicate InWorld(v: Value, recs: set<Record>, lists: set<List>) {
    match v
    case Rec(r) => r in recs
    case Arr(a) => a in lists
    case _ => true
  }

  /** Every string that fewer than `n` further containers separate from `v` is sanitised. */
  ghost predicate CleanWithin(n: nat, v: Value, recs: set<Record>, lists: set<List>)
    reads recs, lists
    decreases n
  {
    match v
    case Str(s) => Sanitized(s)
    case Leaf(_) => true
    case Rec(r) =>
      n == 0 || (r in recs &&
        forall k :: k in r.fields ==> CleanWithin(n - 1, r.fields[k], recs, lists))
    case Arr(a) =>
      n == 0 || (a in lists &&
        forall i :: 0 <= i < |a.items| ==> CleanWithin(n - 1, a.items[i], recs, lists))
  }

  /** What the lists hold; the walk writes no list, so one map serves a whole walk. */
  type Items = map<List, seq<Value>>

  /** `v` is `o` up to sanitising strings and copying lists, `n` lists deep. */
  ghost predicate SameTo(n: nat, v: Value, o: Value, items: Items)
    decreases n
  {
    match o
    case Str(s) => v == o || v == Str(Sanitize(s))
    case Leaf(_) => v == o
    case Rec(_) => v == o
    case Arr(b) =>
      && v.Arr? && v.a in items && b in items
      && (n == 0 || (|items[v.a]| == |items[b]| &&
            forall i :: 0 <= i < |items[b]| ==> SameTo(n - 1, items[v.a][i], items[b][i], items)))
  }

  ghost predicate Same(v: Value, o: Value, items: Items) {
    forall n: nat :: SameTo(n, v, o, items)
  }

  /** What the records hold. */
  type Fields = map<Record, map<string, Value>>

  ghost function FieldsOf(recs: set<Record>): Fields
    reads recs
  {
    map r | r in recs :: r.fields
  }

  /** `w` is `v` with every string that fewer than `n` further containers separate from it
      replaced by the sanitised string. Records hold what `before` and then `after` says. */
  ghost predicate SanitizedTo(n: nat, w: Value, v: Value, before: Fields, after: Fields, items: Items)
    decreases n
  {
    match v
    case Str(s) => w == Str(Sanitize(s))
    case Leaf(_) => w == v
    case Rec(r) =>
      && w == v
      && (n == 0 || (r in before && r in after && after[r].Keys == before[r].Keys &&
            forall k :: k in before[r] ==> SanitizedTo(n - 1, after[r][k], before[r][k], before, after, items)))
    case Arr(b) =>
      && w.Arr? && w.a in items && b in items
      && (n == 0 || (|items[w.a]| == |items[b]| &&
            forall i :: 0 <= i < |items[b]| ==> SanitizedTo(n - 1, items[w.a][i], items[b][i], before, after, items)))
  }

  ghost predicate ListsClosed(items: Items) {
    forall a, i :: a in items && 0 <= i < |items[a]| && items[a][i].Arr? ==> items[a][i].a in items
  }

  lemma {:induction false} SameToRefl(n: nat, v: Value, items: Items)
    requires ListsClosed(items) && (v.Arr? ==> v.a in items)
    ensures SameTo(n, v, v, items)
  {
    if v.Arr? && n > 0 {
      forall i | 0 <= i < |items[v.a]|
        ensures SameTo(n - 1, items[v.a][i], items[v.a][i], items)
      {
        SameToRefl(n - 1, items[v.a][i], items);
      }
    }
  }

  lemma {:induction false} SameToTrans(n: nat, v: Value, w: Value, o: Value, items: Items)
    requires SameTo(n, v, w, items) && SameTo(n, w, o, items)
    ensures SameTo(n, v, o, items)
  {
    match o {
      case Str(s) => SanitizeIdempotent(s);
      case Leaf(_) =>
      case Rec(_) =>
      case Arr(b) =>
        if n > 0 {
          forall i | 0 <= i < |items[b]|
            ensures SameTo(n - 1, items[v.a][i], items[b][i], items)
          {
            SameToTrans(n - 1, items[v.a][i], items[w.a][i], items[b][i], items);
          }
        }
    }
  }

  ghost predicate Grows(items: Items, more: Items) {
    forall a :: a in items ==> a in more && more[a] == items[a]
  }

  lemma {:induction false} SameToGrows(n: nat, v: Value, o: Value, items: Items, more: Items)
    requires SameTo(n, v, o, items) && Grows(items, more)
    ensures SameTo(n, v, o, more)
  {
    if o.Arr? && n > 0 {
      forall i | 0 <= i < |items[o.a]|
        ensures SameTo(n - 1, items[v.a][i], items[o.a][i], more)
      {
        SameToGrows(n - 1, items[v.a][i], items[o.a][i], items, more);
      }
    }
  }

  /** A sanitised string that came from `s` is exactly the sanitised `s`. */
  lemma SameAndClean(v: Value, s: string, items: Items)
    requires Same(v, Str(s), items) && v.Str? && Sanitized(v.s)
    ensures v == Str(Sanitize(s))
  {
    assert SameTo(0, v, Str(s), items);
    SanitizedIffFixed(s);
  }

  // ---------- The certificate the walk maintains ----------

  /** What the containers hold and, for each, a lower bound on how far below it strings are
      sanitised. */
  datatype Levels = Levels(fields: map<Record, map<string, Value>>, items: Items,
                           recs: map<Record, int>, lists: map<List, int>)

  ghost predicate Reflects(c: Levels)
    reads c.fields.Keys, c.items.Keys
  {
    && (forall r :: r in c.fields ==> r.fields == c.fields[r])
    && (forall a :: a in c.items ==> a.items == c.items[a])
  }

  ghost predicate Within(c: Levels, v: Value) {
    InWorld(v, c.fields.Keys, c.items.Keys)
  }

  /** How many containers down from `v` strings are known to be sanitised, up to the most a
      walk can ask for; -1 when `v` itself is a string that is not. */
  ghost function Level(c: Levels, v: Value): int {
    match v
    case Str(s) => if Sanitized(s) then DEPTH_LIMIT + 1 else -1
    case Leaf(_) => DEPTH_LIMIT + 1
    case Rec(r) => if r in c.recs then c.recs[r] else -1
    case Arr(a) => if a in c.lists then c.lists[a] else -1
  }

  ghost predicate GoodRecord(c: Levels, r: Record)
    requires r in c.recs && r in c.fields
  {
    c.recs[r] >= 0 && forall k :: k in c.fields[r] ==>
      Within(c, c.fields[r][k]) && Level(c, c.fields[r][k]) >= c.recs[r] - 1
  }

  ghost predicate GoodList(c: Levels, a: List)
    requires a in c.lists && a in c.items
  {
    c.lists[a] >= 0 && forall i :: 0 <= i < |c.items[a]| ==>
      Within(c, c.items[a][i]) && Level(c, c.items[a][i]) >= c.lists[a] - 1
  }

  ghost predicate Certified(c: Levels) {
    && c.recs.Keys == c.fields.Keys && c.lists.Keys == c.items.Keys
    && (forall r :: r in c.recs ==> GoodRecord(c, r))
    && (forall a :: a in c.lists ==> GoodList(c, a))
  }

  type Certificate = c: Levels | Certified(c) ghost witness Levels(map[], map[], map[], map[])

  /** `w` may stand for `v`: at least as clean, and otherwise the same. */
  ghost predicate CarriesOver(c: Levels, v: Value, d: Levels, w: Value) {
    && Within(d, w)
    && Level(c, v) <= Level(d, w)
    && Same(w, v, d.items)
  }

  /** Levels only rise, those that do stop at `bound`, and no list is written. */
  ghost predicate Raised(c: Levels, d: Levels, bound: int) {
    && d.recs.Keys == c.recs.Keys && d.fields.Keys == c.fields.Keys
    && (forall r :: r in c.recs ==> c.recs[r] <= d.recs[r] && (d.recs[r] <= bound || d.recs[r] == c.recs[r]))
    && (forall a :: a in c.lists ==> a in d.lists && d.lists[a] == c.lists[a])
    && Grows(c.items, d.items)
  }

  /** Each record keeps its keys, and each field carries over. */
  ghost predicate Kept(c: Levels, d: Levels) {
    && (forall r :: r in c.fields ==> r in d.fields && d.fields[r].Keys == c.fields[r].Keys)
    && (forall r, k :: r in c.fields && k in c.fields[r] ==>
          CarriesOver(c, c.fields[r][k], d, d.fields[r][k]))
  }

  /** What a walk from `c` to `d` has achieved. */
  ghost predicate Walked(c: Levels, d: Levels, bound: int) {
    Raised(c, d, bound) && Kept(c, d)
  }

  lemma {:induction false} CertifiedCleans(n: nat, v: Value, c: Certificate)
    requires Reflects(c) && Within(c, v) && Level(c, v) >= n
    ensures CleanWithin(n, v, c.fields.Keys, c.items.Keys)
  {
    if n > 0 {
      match v {
        case Rec(r) =>
          assert GoodRecord(c, r);
          forall k | k in r.fields
            ensures CleanWithin(n - 1, r.fields[k], c.fields.Keys, c.items.Keys)
          {
            CertifiedCleans(n - 1, c.fields[r][k], c);
          }
        case Arr(a) =>
          assert GoodList(c, a);
          forall i | 0 <= i < |a.items|
            ensures CleanWithin(n - 1, a.items[i], c.fields.Keys, c.items.Keys)
          {
            CertifiedCleans(n - 1, c.items[a][i], c);
          }
        case _ =>
      }
    }
  }

  lemma SameItems(v: Value, o: Value, items: Items, i: nat)
    requires o.Arr? && Same(v, o, items) && o.a in items && i < |items[o.a]|
    ensures v.Arr? && v.a in items && |items[v.a]| == |items[o.a]| && Same(items[v.a][i], items[o.a][i], items)
  {
    assert SameTo(1, v, o, items);
    forall n: nat
      ensures SameTo(n, items[v.a][i], items[o.a][i], items)
    {
      assert SameTo(n + 1, v, o, items);
    }
  }

  /** Within the certified depth, every string is exactly the sanitised string that was there. */
  lemma {:induction false} CertifiedExactly(n: nat, w: Value, v: Value, c: Certificate, d: Certificate)
    requires Kept(c, d) && Grows(c.items, d.items) && Within(c, v) && Within(d, w)
    requires Same(w, v, d.items) && Level(d, w) >= n
    ensures SanitizedTo(n, w, v, c.fields, d.fields, d.items)
    decreases n, 1
  {
    assert SameTo(0, w, v, d.items);
    match v {
      case Str(s) => SameAndClean(w, s, d.items);
      case Leaf(_) =>
      case Rec(r) => CertifiedRecord(n, r, c, d);
      case Arr(b) => CertifiedList(n, w.a, b, c, d);
    }
  }

  lemma {:induction false} CertifiedRecord(n: nat, r: Record, c: Certificate, d: Certificate)
    requires Kept(c, d) && Grows(c.items, d.items) && r in c.fields && r in d.fields && Level(d, Rec(r)) >= n
    ensures SanitizedTo(n, Rec(r), Rec(r), c.fields, d.fields, d.items)
    decreases n, 0
  {
    if n > 0 {
      forall k | k in c.fields[r] {
        CertifiedField(n - 1, r, k, d.fields[r][k], c.fields[r][k], c, d);
      }
    }
  }

  lemma {:induction false} CertifiedField(n: nat, r: Record, k: string, w: Value, v: Value, c: Certificate, d: Certificate)
    requires Kept(c, d) && Grows(c.items, d.items) && r in c.fields && r in d.fields && Level(d, Rec(r)) > n
    requires k in c.fields[r] && k in d.fields[r] && v == c.fields[r][k] && w == d.fields[r][k]
    ensures SanitizedTo(n, w, v, c.fields, d.fields, d.items)
    decreases n, 2
  {
    FieldReady(r, k, c, d);
    CertifiedExactly(n, w, v, c, d);
  }

  lemma {:induction false} CertifiedList(n: nat, a: List, b: List, c: Certificate, d: Certificate)
    requires Kept(c, d) && Grows(c.items, d.items) && a in d.items && b in c.items
    requires Same(Arr(a), Arr(b), d.items) && Level(d, Arr(a)) >= n
    ensures SanitizedTo(n, Arr(a), Arr(b), c.fields, d.fields, d.items)
    decreases n, 0
  {
    if n > 0 {
      SameLengths(Arr(a), Arr(b), d.items);
      forall i | 0 <= i < |d.items[b]|
        ensures SanitizedTo(n - 1, d.items[a][i], d.items[b][i], c.fields, d.fields, d.items)
      {
        ItemReady(a, b, i, c, d);
        CertifiedExactly(n - 1, d.items[a][i], d.items[b][i], c, d);
      }
    }
  }

  lemma SameLengths(v: Value, o: Value, items: Items)
    requires o.Arr? && Same(v, o, items)
    ensures v.Arr? && v.a in items && o.a in items && |items[v.a]| == |items[o.a]|
  {
    assert SameTo(1, v, o, items);
  }

  lemma FieldWithin(c: Certificate, r: Record, k: string)
    requires r in c.fields && k in c.fields[r]
    ensures Within(c, c.fields[r][k]) && Level(c, c.fields[r][k]) >= Level(c, Rec(r)) - 1
  {
    assert GoodRecord(c, r);
  }

  lemma ItemWithin(c: Certificate, a: List, i: nat)
    requires a in c.items && i < |c.items[a]|
    ensures Within(c, c.items[a][i]) && Level(c, c.items[a][i]) >= Level(c, Arr(a)) - 1
  {
    assert GoodList(c, a);
  }

  lemma FieldCarriesOver(c: Levels, d: Levels, r: Record, k: string)
    requires Kept(c, d) && r in c.fields && k in c.fields[r]
    ensures r in d.fields && k in d.fields[r] && d.fields[r].Keys == c.fields[r].Keys
    ensures Same(d.fields[r][k], c.fields[r][k], d.items)
  {
    assert CarriesOver(c, c.fields[r][k], d, d.fields[r][k]);
  }

  lemma FieldReady(r: Record, k: string, c: Certificate, d: Certificate)
    requires Kept(c, d) && r in c.fields && k in c.fields[r]
    ensures r in d.fields && k in d.fields[r]
    ensures Within(c, c.fields[r][k]) && Within(d, d.fields[r][k])
    ensures Same(d.fields[r][k], c.fields[r][k], d.items) && Level(d, d.fields[r][k]) >= Level(d, Rec(r)) - 1
  {
    FieldCarriesOver(c, d, r, k);
    FieldWithin(c, r, k);
    FieldWithin(d, r, k);
  }

  lemma ItemReady(a: List, b: List, i: nat, c: Certificate, d: Certificate)
    requires Grows(c.items, d.items) && a in d.items && b in c.items && i < |d.items[b]|
    requires Same(Arr(a), Arr(b), d.items) && |d.items[a]| == |d.items[b]|
    ensures Within(c, d.items[b][i]) && Within(d, d.items[a][i])
    ensures Same(d.items[a][i], d.items[b][i], d.items) && Level(d, d.items[a][i]) >= Level(d, Arr(a)) - 1
  {
    SameItems(Arr(a), Arr(b), d.items, i);
    ItemWithin(c, b, i);
    ItemWithin(d, a, i);
  }

  lemma SameRefl(v: Value, c: Certificate)
    requires Within(c, v)
    ensures Same(v, v, c.items)
  {
    forall a, i | a in c.items && 0 <= i < |c.items[a]| && c.items[a][i].Arr?
      ensures c.items[a][i].a in c.items
    {
      assert GoodList(c, a);
    }
    forall n: nat
      ensures SameTo(n, v, v, c.items)
    {
      SameToRefl(n, v, c.items);
    }
  }

  lemma CarriesOverTrans(c: Levels, v: Value, d: Levels, w: Value, e: Levels, x: Value)
    requires Grows(d.items, e.items)
    requires CarriesOver(c, v, d, w) && CarriesOver(d, w, e, x)
    ensures CarriesOver(c, v, e, x)
  {
    forall n: nat
      ensures SameTo(n, x, v, e.items)
    {
      assert SameTo(n, w, v, d.items) && SameTo(n, x, w, e.items);
      SameToGrows(n, w, v, d.items, e.items);
      SameToTrans(n, x, w, v, e.items);
    }
  }

  lemma StillCarriesOver(c: Levels, d: Certificate, bound: int, v: Value)
    requires Raised(c, d, bound) && Within(c, v)
    ensures CarriesOver(c, v, d, v)
  {
    SameRefl(v, d);
  }

  /** A nested walk's result carries over from before the walks that came first. */
  lemma CarriesOn(c: Levels, e: Certificate, d: Certificate, bound: int, v: Value, w: Value)
    requires Raised(c, e, bound) && Raised(e, d, bound) && Within(c, v) && CarriesOver(e, v, d, w)
    ensures CarriesOver(c, v, d, w)
  {
    StillCarriesOver(c, e, bound, v);
    CarriesOverTrans(c, v, e, v, d, w);
  }

  lemma WalkedRefl(c: Certificate, bound: int)
    ensures Walked(c, c, bound)
  {
    forall r, k | r in c.fields && k in c.fields[r]
      ensures CarriesOver(c, c.fields[r][k], c, c.fields[r][k])
    {
      assert GoodRecord(c, r);
      SameRefl(c.fields[r][k], c);
    }
  }

  lemma WalkedTrans(c: Levels, d: Levels, e: Levels, bound: int)
    requires Walked(c, d, bound) && Walked(d, e, bound)
    ensures Walked(c, e, bound)
  {
    forall r, k | r in c.fields && k in c.fields[r]
      ensures CarriesOver(c, c.fields[r][k], e, e.fields[r][k])
    {
      CarriesOverTrans(c, c.fields[r][k], d, d.fields[r][k], e, e.fields[r][k]);
    }
  }

  /** Levels may rise, and new lists appear, while the records stay as they are. */
  lemma WalkedRises(c: Levels, d: Certificate, bound: int, e: Certificate)
    requires Walked(c, d, bound) && Raised(d, e, bound + 1) && e.fields == d.fields
    ensures Walked(c, e, bound + 1)
  {
    forall r, k | r in c.fields && k in c.fields[r]
      ensures CarriesOver(c, c.fields[r][k], e, e.fields[r][k])
    {
      assert GoodRecord(d, r);
      SameRefl(d.fields[r][k], e);
      CarriesOverTrans(c, c.fields[r][k], d, d.fields[r][k], e, e.fields[r][k]);
    }
  }

  // ---------- The three things a walk does ----------

  function WithField(d: Levels, r: Record, k: string, w: Value): Levels
    requires r in d.fields
  {
    d.(fields := d.fields[r := d.fields[r][k := w]])
  }

  lemma CertifiedWithField(d: Certificate, r: Record, k: string, w: Value)
    requires r in d.recs && Within(d, w) && Level(d, w) >= d.recs[r] - 1
    ensures Certified(WithField(d, r, k, w))
  {
    var e := WithField(d, r, k, w);
    forall x | x in e.recs
      ensures GoodRecord(e, x)
    {
      assert GoodRecord(d, x);
    }
    forall a | a in e.lists
      ensures GoodList(e, a)
    {
      assert GoodList(d, a);
    }
  }

  lemma KeptWithField(c: Levels, d: Levels, r: Record, k: string, w: Value)
    requires Kept(c, d) && r in c.fields && k in c.fields[r] && CarriesOver(c, c.fields[r][k], d, w)
    ensures Kept(c, WithField(d, r, k, w))
  {
    var e := WithField(d, r, k, w);
    forall x, y | x in c.fields && y in c.fields[x]
      ensures y in e.fields[x] && CarriesOver(c, c.fields[x][y], e, e.fields[x][y])
    {
      assert CarriesOver(c, c.fields[x][y], d, e.fields[x][y]);
    }
  }

  /** The entries under the keys `done` have been rewritten. */
  ghost predicate Rewritten(d: Levels, r: Record, done: set<string>, bound: int) {
    r in d.fields && forall k :: k in done ==> k in d.fields[r] && Level(d, d.fields[r][k]) >= bound
  }

  lemma RewrittenCarriesOver(e: Levels, d: Levels, r: Record, done: set<string>, bound: int)
    requires Rewritten(e, r, done, bound) && Kept(e, d)
    ensures Rewritten(d, r, done, bound)
  {
    forall k | k in done
      ensures Level(d, d.fields[r][k]) >= bound
    {
      assert CarriesOver(e, e.fields[r][k], d, d.fields[r][k]);
    }
  }

  lemma RewrittenWithField(d: Levels, r: Record, k: string, w: Value, done: set<string>, bound: int)
    requires Rewritten(d, r, done, bound) && Level(d, w) >= bound
    ensures Rewritten(WithField(d, r, k, w), r, done + {k}, bound)
  {
    var e := WithField(d, r, k, w);
    assert e.recs == d.recs && e.lists == d.lists;
  }

  /** Writing back a field: the nested walk went from `e` to `d` and returned `w`. The
      entry it read was that of `c`, whatever nested walks wrote to the field since. */
  lemma FieldStep(c: Certificate, e: Certificate, d: Certificate, bound: int,
                  r: Record, k: string, w: Value, done: set<string>)
    requires r in c.fields && k in c.fields[r]
    requires Walked(c, e, bound) && Walked(e, d, bound) && Rewritten(e, r, done, bound)
    requires CarriesOver(e, c.fields[r][k], d, w) && Level(d, w) >= bound
    ensures var h := WithField(d, r, k, w);
      Certified(h) && Walked(c, h, bound) && Rewritten(h, r, done + {k}, bound)
  {
    var v := c.fields[r][k];
    assert Level(c, v) >= c.recs[r] - 1 && Within(c, v) by {
      assert GoodRecord(c, r);
    }
    CarriesOn(c, e, d, bound, v, w);
    WalkedTrans(c, e, d, bound);
    CertifiedWithField(d, r, k, w);
    KeptWithField(c, d, r, k, w);
    RewrittenCarriesOver(e, d, r, done, bound);
    RewrittenWithField(d, r, k, w, done, bound);
  }

  lemma RaiseRecord(d: Certificate, r: Record, top: int) returns (e: Certificate)
    requires r in d.recs && d.recs[r] <= top && 0 <= top
    requires forall k :: k in d.fields[r] ==> Level(d, d.fields[r][k]) >= top - 1
    ensures e == d.(recs := d.recs[r := top])
  {
    var f := d.(recs := d.recs[r := top]);
    forall x | x in f.recs
      ensures GoodRecord(f, x)
    {
      assert GoodRecord(d, x);
    }
    forall a | a in f.lists
      ensures GoodList(f, a)
    {
      assert GoodList(d, a);
    }
    e := f;
  }

  /** Once all its fields are clean `bound` deep, a record is clean one deeper. */
  lemma WalkedRecord(c: Levels, d: Certificate, bound: int, r: Record) returns (e: Certificate)
    requires Walked(c, d, bound) && r in c.fields && r in d.recs && bound >= 0
    requires Rewritten(d, r, c.fields[r].Keys, bound)
    ensures e.items == d.items && e.fields == d.fields
    ensures Walked(c, e, bound + 1) && Level(e, Rec(r)) >= bound + 1
  {
    assert GoodRecord(d, r);
    e := RaiseRecord(d, r, if d.recs[r] > bound + 1 then d.recs[r] else bound + 1);
    WalkedRises(c, d, bound, e);
  }

  /** The walks over the first items of a list, `vs`, have returned `done`. */
  ghost predicate Mapped(c: Levels, vs: seq<Value>, d: Levels, done: seq<Value>, bound: int) {
    && |done| <= |vs|
    && forall i :: 0 <= i < |done| ==> CarriesOver(c, vs[i], d, done[i]) && Level(d, done[i]) >= bound
  }

  /** One item of a list: the nested walk went from `e` to `d` and returned `w`. */
  lemma ItemStep(c: Levels, e: Certificate, d: Certificate, bound: int, vs: seq<Value>, done: seq<Value>, w: Value)
    requires |done| < |vs| && Within(c, vs[|done|]) && Mapped(c, vs, e, done, bound)
    requires Raised(c, e, bound) && Raised(e, d, bound)
    requires CarriesOver(e, vs[|done|], d, w) && Level(d, w) >= bound
    ensures Mapped(c, vs, d, done + [w], bound)
  {
    var k := |done|;
    CarriesOn(c, e, d, bound, vs[k], w);
    forall i | 0 <= i < k
      ensures CarriesOver(c, vs[i], d, done[i]) && Level(d, done[i]) >= bound
    {
      StillCarriesOver(e, d, bound, done[i]);
      CarriesOverTrans(c, vs[i], e, done[i], d, done[i]);
    }
  }

  lemma AddList(d: Certificate, b: List, ws: seq<Value>, top: int) returns (e: Certificate)
    requires b !in d.lists && top >= 0
    requires forall i :: 0 <= i < |ws| ==> Within(d, ws[i]) && Level(d, ws[i]) >= top - 1
    ensures e == d.(lists := d.lists[b := top], items := d.items[b := ws])
  {
    var f := d.(lists := d.lists[b := top], items := d.items[b := ws]);
    forall x | x in f.recs
      ensures GoodRecord(f, x)
    {
      assert GoodRecord(d, x);
    }
    forall a | a in f.lists
      ensures GoodList(f, a)
    {
      if a != b {
        assert GoodList(d, a);
      }
    }
    e := f;
  }

  lemma CopySame(c: Levels, d: Levels, a: List, vs: seq<Value>, b: List, ws: seq<Value>, bound: int)
    requires Mapped(c, vs, d, ws, bound) && |ws| == |vs|
    requires b !in d.items && a in d.items && d.items[a] == vs
    ensures Same(Arr(b), Arr(a), d.items[b := ws])
  {
    var more := d.items[b := ws];
    forall n: nat
      ensures SameTo(n, Arr(b), Arr(a), more)
    {
      if n > 0 {
        forall i | 0 <= i < |ws|
          ensures SameTo(n - 1, ws[i], vs[i], more)
        {
          assert SameTo(n - 1, ws[i], vs[i], d.items);
          SameToGrows(n - 1, ws[i], vs[i], d.items, more);
        }
      }
    }
  }

  /** A copy of a list, with its items walked, is as clean as they are. */
  lemma WalkedCopy(c: Certificate, d: Certificate, bound: int, a: List, b: List, ws: seq<Value>)
    returns (e: Certificate)
    requires Walked(c, d, bound) && a in c.lists && bound >= 0
    requires b !in d.lists && |ws| == |c.items[a]| && Mapped(c, c.items[a], d, ws, bound)
    ensures e.fields == d.fields && e.items == d.items[b := ws] && Walked(c, e, bound + 1)
    ensures CarriesOver(c, Arr(a), e, Arr(b)) && Level(e, Arr(b)) >= bound + 1
  {
    assert GoodList(c, a);
    var top := if c.lists[a] > bound + 1 then c.lists[a] else bound + 1;
    forall i | 0 <= i < |ws|
      ensures Within(d, ws[i]) && Level(d, ws[i]) >= top - 1
    {
      assert CarriesOver(c, c.items[a][i], d, ws[i]);
    }
    e := AddList(d, b, ws, top);
    WalkedRises(c, d, bound, e);
    CopySame(c, d, a, c.items[a], b, ws, bound);
  }

  // ---------- The walk ----------

  method SanitizeValue(v: Value, depth: nat, ghost c: Certificate) returns (w: Value, ghost d: Certificate)
    requires Reflects(c) && Within(c, v)
    modifies c.fields.Keys
    ensures Reflects(d) && (forall x :: x in d.items && x !in c.items ==> fresh(x))
    ensures Walked(c, d, DEPTH_LIMIT + 1 - depth)
    ensures CarriesOver(c, v, d, w) && Level(d, w) >= DEPTH_LIMIT + 1 - depth
    decreases DEPTH_LIMIT - depth, 5
  {
    d := c;
    w := v;
    WalkedRefl(c, DEPTH_LIMIT + 1 - depth);
    SameRefl(v, c);
    match v {
      case Str(s) =>
        SanitizeSanitizes(s);
        w := Str(Sanitize(s));
      case Leaf(_) =>
      case Arr(a) =>
        assert GoodList(c, a);
        if depth <= DEPTH_LIMIT {
          var b;
          b, d := MapList(a, depth, c);
          w := Arr(b);
        }
      case Rec(r) =>
        assert GoodRecord(c, r);
        if depth <= DEPTH_LIMIT {
          d := RewriteRecord(r, depth, c);
          SameRefl(v, d);
        }
    }
  }

  /** Rewrites every entry of the record; entries are read before any is written. */
  method RewriteRecord(r: Record, depth: nat, ghost c: Certificate) returns (ghost d: Certificate)
    requires Reflects(c) && r in c.fields && depth <= DEPTH_LIMIT
    modifies c.fields.Keys
    ensures Reflects(d) && (forall x :: x in d.items && x !in c.items ==> fresh(x))
    ensures Walked(c, d, DEPTH_LIMIT + 1 - depth) && Level(d, Rec(r)) >= DEPTH_LIMIT + 1 - depth
    decreases DEPTH_LIMIT - depth, 4
  {
    d := RewriteEntries(r, r.fields, depth, c);
    d := WalkedRecord(c, d, DEPTH_LIMIT - depth, r);
  }

  method RewriteEntries(r: Record, entries: map<string, Value>, depth: nat, ghost c: Certificate)
    returns (ghost d: Certificate)
    requires Reflects(c) && r in c.fields && entries == c.fields[r] && depth <= DEPTH_LIMIT
    modifies c.fields.Keys
    ensures Reflects(d) && (forall x :: x in d.items && x !in c.items ==> fresh(x))
    ensures Walked(c, d, DEPTH_LIMIT - depth) && Rewritten(d, r, entries.Keys, DEPTH_LIMIT - depth)
    decreases DEPTH_LIMIT - depth, 3
  {
    var todo := entries.Keys;
    ghost var done := {};
    d := c;
    WalkedRefl(c, DEPTH_LIMIT - depth);
    while todo != {}
      invariant done + todo == entries.Keys
      invariant Reflects(d) && (forall x :: x in d.items && x !in c.items ==> fresh(x))
      invariant Walked(c, d, DEPTH_LIMIT - depth)
      invariant Rewritten(d, r, done, DEPTH_LIMIT - depth)
      decreases todo
    {
      var key :| key in todo;
      d := RewriteField(r, key, entries[key], depth, c, d, done);
      done := done + {key};
      todo := todo - {key};
    }
  }

  method RewriteField(r: Record, key: string, v: Value, depth: nat, ghost c: Certificate, ghost e: Certificate,
                      ghost done: set<string>) returns (ghost d: Certificate)
    requires depth <= DEPTH_LIMIT && r in c.fields && key in c.fields[r] && v == c.fields[r][key]
    requires Reflects(e) && Walked(c, e, DEPTH_LIMIT - depth) && Rewritten(e, r, done, DEPTH_LIMIT - depth)
    modifies c.fields.Keys
    ensures Reflects(d) && (forall x :: x in d.items && x !in e.items ==> fresh(x))
    ensures Walked(c, d, DEPTH_LIMIT - depth) && Rewritten(d, r, done + {key}, DEPTH_LIMIT - depth)
    decreases DEPTH_LIMIT - depth, 2
  {
    assert Within(e, v) by {
      assert GoodRecord(c, r);
    }
    var nested;
    ghost var h;
    nested, h := SanitizeValue(v, depth + 1, e);
    SetField(r, key, nested, h);
    FieldStep(c, e, h, DEPTH_LIMIT - depth, r, key, nested, done);
    d := WithField(h, r, key, nested);
  }

  method SetField(r: Record, key: string, v: Value, ghost d: Levels)
    requires Reflects(d) && r in d.fields
    modifies r
    ensures Reflects(WithField(d, r, key, v))
  {
    r.fields := r.fields[key := v];
  }

  /** A new list of the items' sanitised values. */
  method MapList(a: List, depth: nat, ghost c: Certificate) returns (b: List, ghost d: Certificate)
    requires Reflects(c) && a in c.items && depth <= DEPTH_LIMIT
    modifies c.fields.Keys
    ensures Reflects(d) && (forall x :: x in d.items && x !in c.items ==> fresh(x))
    ensures Walked(c, d, DEPTH_LIMIT + 1 - depth)
    ensures CarriesOver(c, Arr(a), d, Arr(b)) && Level(d, Arr(b)) >= DEPTH_LIMIT + 1 - depth
    decreases DEPTH_LIMIT - depth, 3
  {
    var items := [];
    d := c;
    WalkedRefl(c, DEPTH_LIMIT - depth);
    for i := 0 to |a.items|
      invariant |items| == i && a.items == c.items[a]
      invariant Reflects(d) && (forall x :: x in d.items && x !in c.items ==> fresh(x))
      invariant Walked(c, d, DEPTH_LIMIT - depth)
      invariant Mapped(c, c.items[a], d, items, DEPTH_LIMIT - depth)
    {
      var item;
      item, d := MapItem(a.items[i], depth, c, d, c.items[a], items);
      items := items + [item];
    }
    b := new List(items);
    d := WalkedCopy(c, d, DEPTH_LIMIT - depth, a, b, items);
  }

  method MapItem(v: Value, depth: nat, ghost c: Certificate, ghost e: Certificate,
                 ghost vs: seq<Value>, ghost done: seq<Value>) returns (w: Value, ghost d: Certificate)
    requires depth <= DEPTH_LIMIT && |done| < |vs| && v == vs[|done|] && Within(c, v)
    requires Reflects(e) && Walked(c, e, DEPTH_LIMIT - depth)
    requires Mapped(c, vs, e, done, DEPTH_LIMIT - depth)
    modifies c.fields.Keys
    ensures Reflects(d) && (forall x :: x in d.items && x !in e.items ==> fresh(x))
    ensures Walked(c, d, DEPTH_LIMIT - depth)
    ensures Mapped(c, vs, d, done + [w], DEPTH_LIMIT - depth)
    decreases DEPTH_LIMIT - depth, 2
  {
    w, d := SanitizeValue(v, depth + 1, e);
    ItemStep(c, e, d, DEPTH_LIMIT - depth, vs, done, w);
    WalkedTrans(c, e, d, DEPTH_LIMIT - depth);
  }

  // ---------- Entry points ----------

  lemma FieldsReflected(c: Levels)
    requires Reflects(c)
    ensures FieldsOf(c.fields.Keys) == c.fields
  {
  }

  /** Nothing is known yet: every container is at level 0. */
  ghost function Start(recs: set<Record>, lists: set<List>): (c: Certificate)
    requires World(recs, lists)
    reads recs, lists
    ensures Reflects(c) && c.fields.Keys == recs && c.items.Keys == lists
  {
    var c := Levels(map r | r in recs :: r.fields, map a | a in lists :: a.items,
                    map r | r in recs :: 0, map a | a in lists :: 0);
    assert forall r :: r in recs ==> GoodRecord(c, r);
    assert forall a :: a in lists ==> GoodList(c, a);
    c
  }

  /** Sanitises a value: afterwards every string held by a container at most six hops below the
      result is exactly the sanitised string that was there, records are rewritten where they are
      with the same keys, lists are untouched, and apart from sanitised strings and copied lists
      nothing differs. */
  method SanitizeTelemetryValue(v: Value, ghost recs: set<Record>, ghost lists: set<List>)
    returns (w: Value, ghost items: Items)
    requires World(recs, lists) && InWorld(v, recs, lists)
    modifies recs
    ensures forall a :: a in lists ==> a in items && a.items == old(a.items)
    ensures forall a :: a in items ==> a.items == items[a] && (a in lists || fresh(a))
    ensures InWorld(w, recs, items.Keys) && CleanWithin(DEPTH_LIMIT + 1, w, recs, items.Keys)
    ensures SanitizedTo(DEPTH_LIMIT + 1, w, v, old(FieldsOf(recs)), FieldsOf(recs), items)
    ensures Same(w, v, items)
    ensures forall r :: r in recs ==> r.fields.Keys == old(r.fields.Keys)
    ensures forall r, k :: r in recs && k in old(r.fields) ==> Same(r.fields[k], old(r.fields[k]), items)
  {
    ghost var c, d := Start(recs, lists), Start(recs, lists);
    FieldsReflected(c);
    w, d := SanitizeValue(v, 0, c);
    FieldsReflected(d);
    CertifiedCleans(DEPTH_LIMIT + 1, w, d);
    CertifiedExactly(DEPTH_LIMIT + 1, w, v, c, d);
    items := d.items;
  }

  /** `out` holds, under the keys `done`, walked values of the entries. */
  ghost predicate Copied(c: Levels, entries: map<string, Value>, d: Levels, done: set<string>,
                         out: map<string, Value>) {
    && done <= entries.Keys && out.Keys == done
    && forall k :: k in done ==> CarriesOver(c, entries[k], d, out[k]) && Level(d, out[k]) >= DEPTH_LIMIT + 1
  }

  lemma CopiedStep(c: Levels, entries: map<string, Value>, e: Certificate, d: Certificate, done: set<string>,
                   out: map<string, Value>, k: string, w: Value)
    requires Copied(c, entries, e, done, out) && k in entries && Within(c, entries[k])
    requires Raised(c, e, DEPTH_LIMIT + 1) && Raised(e, d, DEPTH_LIMIT + 1)
    requires CarriesOver(e, entries[k], d, w) && Level(d, w) >= DEPTH_LIMIT + 1
    ensures Copied(c, entries, d, done + {k}, out[k := w])
  {
    CopiedStays(c, entries, e, d, done, out);
    CarriesOn(c, e, d, DEPTH_LIMIT + 1, entries[k], w);
    CopiedWith(c, entries, d, done, out, k, w);
  }

  lemma CopiedWith(c: Levels, entries: map<string, Value>, d: Levels, done: set<string>,
                   out: map<string, Value>, k: string, w: Value)
    requires Copied(c, entries, d, done, out) && k in entries
    requires CarriesOver(c, entries[k], d, w) && Level(d, w) >= DEPTH_LIMIT + 1
    ensures Copied(c, entries, d, done + {k}, out[k := w])
  {
  }

  lemma CopiedStays(c: Levels, entries: map<string, Value>, e: Certificate, d: Certificate, done: set<string>,
                    out: map<string, Value>)
    requires Copied(c, entries, e, done, out) && Raised(e, d, DEPTH_LIMIT + 1)
    ensures Copied(c, entries, d, done, out)
  {
    forall x | x in done
      ensures CarriesOver(c, entries[x], d, out[x]) && Level(d, out[x]) >= DEPTH_LIMIT + 1
    {
      StillCarriesOver(e, d, DEPTH_LIMIT + 1, out[x]);
      CarriesOverTrans(c, entries[x], e, out[x], d, out[x]);
    }
  }

  method CopyEntry(v: Value, ghost c: Certificate, ghost e: Certificate, ghost entries: map<string, Value>,
                   ghost done: set<string>, ghost out: map<string, Value>, ghost k: string)
    returns (w: Value, ghost d: Certificate)
    requires k in entries && v == entries[k] && Within(c, v)
    requires Reflects(e) && Walked(c, e, DEPTH_LIMIT + 1) && Copied(c, entries, e, done, out)
    modifies c.fields.Keys
    ensures Reflects(d) && Walked(c, d, DEPTH_LIMIT + 1) && Copied(c, entries, d, done + {k}, out[k := w])
  {
    w, d := SanitizeValue(v, 0, e);
    CopiedStep(c, entries, e, d, done, out, k, w);
    WalkedTrans(c, e, d, DEPTH_LIMIT + 1);
  }

  method CopyEntries(entries: map<string, Value>, ghost c: Certificate)
    returns (out: map<string, Value>, ghost d: Certificate)
    requires Reflects(c) && forall k :: k in entries ==> Within(c, entries[k])
    modifies c.fields.Keys
    ensures Reflects(d) && Walked(c, d, DEPTH_LIMIT + 1) && Copied(c, entries, d, entries.Keys, out)
  {
    d := c;
    out := map[];
    var todo := entries.Keys;
    ghost var done := {};
    WalkedRefl(c, DEPTH_LIMIT + 1);
    while todo != {}
      invariant done + todo == entries.Keys
      invariant Reflects(d) && Walked(c, d, DEPTH_LIMIT + 1)
      invariant Copied(c, entries, d, done, out)
      decreases todo
    {
      var key :| key in todo;
      var w;
      w, d := CopyEntry(entries[key], c, d, entries, done, out, key);
      out := out[key := w];
      done := done + {key};
      todo := todo - {key};
    }
  }

  /** Copies the entries of an event's extra data, sanitising each as its own root. Without extra
      data there is nothing to copy. */
  method SanitizeExtra(context: Record?, ghost recs: set<Record>, ghost lists: set<List>)
    returns (out: Record?, ghost items: Items)
    requires World(recs, lists) && (context != null ==> context in recs)
    modifies recs
    ensures out == null <==> context == null
    ensures context == null ==> FieldsOf(recs) == old(FieldsOf(recs))
    ensures context != null ==> fresh(out) && out.fields.Keys == old(context.fields.Keys)
    ensures context != null ==> forall k :: k in out.fields ==>
      && CleanWithin(DEPTH_LIMIT + 1, out.fields[k], recs, items.Keys)
      && Same(out.fields[k], old(context.fields[k]), items)
    ensures context != null ==> forall k :: k in out.fields ==>
      SanitizedTo(DEPTH_LIMIT + 1, out.fields[k], old(context.fields[k]), old(FieldsOf(recs)), FieldsOf(recs), items)
    ensures forall r, k :: r in recs && k in old(r.fields) ==>
      k in r.fields && Same(r.fields[k], old(r.fields[k]), items)
  {
    ghost var c, d := Start(recs, lists), Start(recs, lists);
    items := c.items;
    FieldsReflected(c);
    WalkedRefl(c, DEPTH_LIMIT + 1);
    if context == null {
      return null, items;
    }
    var entries := context.fields;
    assert GoodRecord(c, context);
    var copies;
    copies, d := CopyEntries(entries, c);
    items := d.items;
    out := new Record(copies);
    FieldsReflected(d);
    forall r, k | r in recs && k in c.fields[r]
      ensures k in d.fields[r] && Same(d.fields[r][k], c.fields[r][k], items)
    {
      FieldCarriesOver(c, d, r, k);
    }
    forall k | k in copies
      ensures CleanWithin(DEPTH_LIMIT + 1, copies[k], recs, items.Keys)
      ensures SanitizedTo(DEPTH_LIMIT + 1, copies[k], entries[k], c.fields, d.fields, items)
    {
      CertifiedCleans(DEPTH_LIMIT + 1, copies[k], d);
      CertifiedExactly(DEPTH_LIMIT + 1, copies[k], entries[k], c, d);
    }
  }
}
