/** The paged app picker (src/commands/mod/AppBrowser.tsx, src/commands/mod/browserFilter.ts):
    pages of a registry arrive one at a time, metadata of listed apps lands in any order, and
    a cursor moves over the filtered list.
 */
module AppBrowser {
  import opened Options
  import opened Sequences

  // ---------- The registry and the gateway ----------

  datatype Raw = Raw(domain: string, cid: string)

  /** A storage slot of the registry, hidden from this reader or not; newest first. */
  datatype Slot = Hidden | Visible(raw: Raw)

  function VisibleOf(slots: seq<Slot>): seq<Raw> {
    if slots == [] then []
    else (if slots[0].Visible? then [slots[0].raw] else []) + VisibleOf(slots[1..])
  }

  datatype Answer = Failure | Page(entries: seq<Raw>, total: nat, scanned: nat)

  /** What `getApps(start, count)` promises: the visible entries of the slots it walked, at
      least one slot while there is any. How far a page walks is the registry's choice. */
  ghost predicate Honest(slots: seq<Slot>, start: nat, answer: Answer) {
    answer.Page? ==>
      && answer.total == |slots| && start + answer.scanned <= |slots|
      && (start < |slots| ==> answer.scanned > 0)
      && answer.entries == VisibleOf(slots[start..start + answer.scanned])
  }

  datatype Meta = Meta(name: Option<string>, description: Option<string>, repository: Option<string>,
                       branch: Option<string>, tag: Option<string>)

  /** The metadata JSON of a content id; `None` when it cannot be fetched. */
  type Gateway = string -> Option<Meta>

  // ---------- The screen ----------

  datatype AppEntry = AppEntry(domain: string, meta: Meta)

  const NO_META := Meta(None, None, None, None, None)

  /** `querying` is the page query in flight, `waiting` the rows whose metadata is being
      fetched, `cids` where each row's metadata is. `exiting` says that the process has begun
      its exit, which `ShutdownHooks` bounds. */
  datatype State = State(apps: seq<AppEntry>, cids: seq<string>, total: nat, cursor: nat, scroll: nat,
                         fetching: bool, nextStart: Option<nat>, querying: Option<nat>, waiting: set<nat>,
                         exiting: bool)

  datatype Settings = Settings(moddableOnly: bool, viewH: nat)

  /** `benign`: the guard over unhandled rejections lets this one pass (`isBenignUnsubscriptionError`). */
  datatype Event =
    | PageArrived(answer: Answer) | QueryRejected(benign: bool)
    | MetadataLanded(row: nat, meta: Meta) | MetadataLost(row: nat)
    | Up | Down | LoadMore

  predicate Shown(app: AppEntry, moddableOnly: bool) {
    !moddableOnly || (app.meta.repository.Some? && app.meta.repository.value != "")
  }

  function FilterModdable(apps: seq<AppEntry>, moddableOnly: bool): seq<AppEntry> {
    if apps == [] then []
    else
      var n := |apps| - 1;
      FilterModdable(apps[..n], moddableOnly) + (if Shown(apps[n], moddableOnly) then [apps[n]] else [])
  }

  /** The positions of the shown apps. */
  function Rows(apps: seq<AppEntry>, moddableOnly: bool): seq<nat> {
    if apps == [] then []
    else
      var n := |apps| - 1;
      Rows(apps[..n], moddableOnly) + (if Shown(apps[n], moddableOnly) then [n] else [])
  }

  const INITIAL := State([], [], 0, 0, 0, true, Some(0), Some(0), {}, false)

  predicate Enabled(c: Settings, s: State, e: Event) {
    match e
    case PageArrived(_) => s.querying.Some?
    case QueryRejected(_) => s.querying.Some?
    case MetadataLanded(row, _) => row in s.waiting && row < |s.apps|
    case MetadataLost(row) => row in s.waiting
    case LoadMore =>
      s.cursor >= |FilterModdable(s.apps, c.moddableOnly)| - 3 && s.nextStart.Some? && !s.fetching
    case _ => true
  }

  function Step(c: Settings, s: State, e: Event): State
    requires Enabled(c, s, e)
  {
    match e
    case PageArrived(Failure) =>
      s.(total := 0, nextStart := None, fetching := false, querying := None)
    case PageArrived(Page(entries, total, scanned)) =>
      var offset := s.querying.value + scanned;
      var n := |s.apps|;
      s.(total := total,
         nextStart := if scanned > 0 && offset < total then Some(offset) else None,
         apps := s.apps + seq(|entries|, i requires 0 <= i < |entries| => AppEntry(entries[i].domain, NO_META)),
         cids := s.cids + seq(|entries|, i requires 0 <= i < |entries| => entries[i].cid),
         waiting := s.waiting + set i | 0 <= i < |entries| && entries[i].cid != "" :: n + i,
         fetching := false, querying := None)
    case QueryRejected(benign) =>
      s.(querying := None, exiting := s.exiting || !benign)
    case MetadataLanded(row, meta) =>
      s.(apps := s.apps[row := s.apps[row].(meta := meta)], waiting := s.waiting - {row})
    case MetadataLost(row) =>
      s.(waiting := s.waiting - {row})
    case Up =>
      if s.cursor == 0 then s
      else
        var next := s.cursor - 1;
        s.(cursor := next, scroll := if next < s.scroll then next else s.scroll)
    case Down =>
      if s.cursor >= |FilterModdable(s.apps, c.moddableOnly)| - 1 then s
      else
        var next := s.cursor + 1;
        s.(cursor := next, scroll := if next >= s.scroll + c.viewH then next - c.viewH + 1 else s.scroll)
    case LoadMore =>
      s.(fetching := true, querying := s.nextStart)
  }

  // ---------- The filtered list ----------

  /** The filtered list is the shown apps, each at its position, in list order. */
  lemma {:induction false} RowsAreShown(apps: seq<AppEntry>, moddableOnly: bool)
    ensures var rows, view := Rows(apps, moddableOnly), FilterModdable(apps, moddableOnly);
      && |rows| == |view|
      && (forall k :: k in rows <==> 0 <= k < |apps| && Shown(apps[k], moddableOnly))
      && (forall i :: 0 <= i < |rows| ==> rows[i] < |apps| && view[i] == apps[rows[i]])
      && (forall i, j :: 0 <= i < j < |rows| ==> rows[i] < rows[j])
  {
    RowsAscend(apps, moddableOnly);
    if apps != [] {
      RowsAreShown(apps[..|apps| - 1], moddableOnly);
    }
  }

  lemma {:induction false} RowsAscend(apps: seq<AppEntry>, moddableOnly: bool)
    ensures var rows := Rows(apps, moddableOnly);
      && (forall k :: k in rows <==> 0 <= k < |apps| && Shown(apps[k], moddableOnly))
      && (forall i :: 0 <= i < |rows| ==> rows[i] < |apps|)
      && (forall i, j :: 0 <= i < j < |rows| ==> rows[i] < rows[j])
  {
    if apps != [] {
      var n := |apps| - 1;
      RowsAscend(apps[..n], moddableOnly);
      var rows, front := Rows(apps, moddableOnly), Rows(apps[..n], moddableOnly);
      assert forall k :: k in rows <==> k in front || (k == n && Shown(apps[n], moddableOnly));
    }
  }

  lemma {:induction false} RowsConcat(a: seq<AppEntry>, b: seq<AppEntry>, moddableOnly: bool)
    ensures Rows(a, moddableOnly) <= Rows(a + b, moddableOnly)
    decreases |b|
  {
    if b == [] {
      assert a + b == a;
    } else {
      RowsConcat(a, b[..|b| - 1], moddableOnly);
      assert (a + b)[..|a + b| - 1] == a + b[..|b| - 1];
    }
  }

  /** `rows'` is `rows` with `row` put in its place: rows before it stay, the others move
      down by one. */
  ghost predicate Inserted(rows: seq<nat>, rows': seq<nat>, row: nat) {
    && |rows'| == |rows| + 1
    && (forall i :: 0 <= i < |rows| && rows[i] < row ==> rows'[i] == rows[i])
    && (forall i :: 0 <= i < |rows| && row <= rows[i] ==> rows'[i] < rows[i] == rows'[i + 1])
  }

  lemma {:induction false} RowsInsert(apps: seq<AppEntry>, row: nat, app: AppEntry, moddableOnly: bool)
    requires row < |apps| && !Shown(apps[row], moddableOnly) && Shown(app, moddableOnly)
    ensures Inserted(Rows(apps, moddableOnly), Rows(apps[row := app], moddableOnly), row)
  {
    var n := |apps| - 1;
    var apps' := apps[row := app];
    var front, front' := Rows(apps[..n], moddableOnly), Rows(apps'[..n], moddableOnly);
    RowsAreShown(apps[..n], moddableOnly);
    RowsAreShown(apps'[..n], moddableOnly);
    if row == n {
      assert apps'[..n] == apps[..n];
      InsertedLast(front, n);
    } else {
      assert apps'[..n] == apps[..n][row := app];
      RowsInsert(apps[..n], row, app, moddableOnly);
      if Shown(apps[n], moddableOnly) {
        InsertedAppend(front, front', row, n);
      }
    }
  }

  lemma InsertedLast(rows: seq<nat>, n: nat)
    requires forall i :: 0 <= i < |rows| ==> rows[i] < n
    ensures Inserted(rows, rows + [n], n) && rows + [] == rows
  {
  }

  lemma InsertedAppend(rows: seq<nat>, rows': seq<nat>, row: nat, n: nat)
    requires Inserted(rows, rows', row) && row < n && forall i :: 0 <= i < |rows'| ==> rows'[i] < n
    ensures Inserted(rows + [n], rows' + [n], row)
  {
    var xs, ys := rows + [n], rows' + [n];
    forall i | 0 <= i < |xs|
      ensures if xs[i] < row then ys[i] == xs[i] else ys[i] < xs[i] == ys[i + 1]
    {
      if i < |rows| {
        assert xs[i] == rows[i] && ys[i] == rows'[i] && ys[i + 1] == rows'[i + 1];
      } else {
        assert ys[i] == rows'[i];
      }
    }
  }

  lemma {:induction false} RowsSame(apps: seq<AppEntry>, row: nat, app: AppEntry, moddableOnly: bool)
    requires row < |apps| && Shown(apps[row], moddableOnly) == Shown(app, moddableOnly)
    ensures Rows(apps[row := app], moddableOnly) == Rows(apps, moddableOnly)
  {
    var n := |apps| - 1;
    if row == n {
      assert apps[row := app][..n] == apps[..n];
    } else {
      RowsSame(apps[..n], row, app, moddableOnly);
      assert apps[row := app][..n] == apps[..n][row := app];
    }
  }

  // ---------- What every event keeps ----------

  ghost predicate Valid(c: Settings, s: State) {
    && c.viewH > 0
    && s.scroll <= s.cursor < s.scroll + c.viewH
    && (s.cursor == 0 || s.cursor < |Rows(s.apps, c.moddableOnly)|)
    && (s.querying.Some? ==> s.fetching && s.nextStart == s.querying)
    && |s.cids| == |s.apps|
    && (forall i :: i in s.waiting ==> i < |s.apps| && s.apps[i].meta == NO_META)
  }

  lemma StepGrowsList(c: Settings, s: State, e: Event)
    requires Valid(c, s) && Enabled(c, s, e)
    ensures |Rows(Step(c, s, e).apps, c.moddableOnly)| >= |Rows(s.apps, c.moddableOnly)|
  {
    match e {
      case PageArrived(Page(entries, _, _)) =>
        RowsConcat(s.apps, Step(c, s, e).apps[|s.apps|..], c.moddableOnly);
        assert s.apps + Step(c, s, e).apps[|s.apps|..] == Step(c, s, e).apps;
      case MetadataLanded(row, meta) =>
        LandingRows(c, s, row, meta);
      case _ =>
    }
  }

  /** Landing metadata can bring its row into view, never take it out: it was not there. */
  lemma LandingRows(c: Settings, s: State, row: nat, meta: Meta)
    requires Valid(c, s) && row in s.waiting
    ensures var app := s.apps[row].(meta := meta);
      var rows, rows' := Rows(s.apps, c.moddableOnly), Rows(s.apps[row := app], c.moddableOnly);
      && |rows| <= |rows'|
      && (c.moddableOnly && Shown(app, true) ==> forall i :: 0 <= i < |rows| ==>
            (rows'[i] == rows[i] <==> row >= rows[i]))
      && (!c.moddableOnly || !Shown(app, true) ==> rows' == rows)
  {
    var app := s.apps[row].(meta := meta);
    if c.moddableOnly && Shown(app, true) {
      RowsInsert(s.apps, row, app, true);
      RowsAreShown(s.apps, true);
      var rows, rows' := Rows(s.apps, true), Rows(s.apps[row := app], true);
      forall i | 0 <= i < |rows|
        ensures rows'[i] == rows[i] <==> row >= rows[i]
      {
        assert rows[i] in rows && row !in rows;
        assert if rows[i] < row then rows'[i] == rows[i] else rows'[i] < rows[i];
      }
    } else {
      RowsSame(s.apps, row, app, c.moddableOnly);
    }
  }

  /** In every state the cursor is inside the scroll window and on a row of the filtered list
      whenever there is one; a page query is in flight only while fetching, so the
      load-more effect never starts a second; and the filtered list never gets shorter. */
  lemma StepKeepsValid(c: Settings, s: State, e: Event)
    requires Valid(c, s) && Enabled(c, s, e)
    ensures Valid(c, Step(c, s, e))
    ensures e.LoadMore? ==> s.querying.None?
    ensures |FilterModdable(Step(c, s, e).apps, c.moddableOnly)| >= |FilterModdable(s.apps, c.moddableOnly)|
  {
    RowsAreShown(s.apps, c.moddableOnly);
    RowsAreShown(Step(c, s, e).apps, c.moddableOnly);
    StepGrowsList(c, s, e);
    StepKeepsWindow(c, s, e);
    StepKeepsFetches(c, s, e);
  }

  lemma StepKeepsWindow(c: Settings, s: State, e: Event)
    requires Valid(c, s) && Enabled(c, s, e)
    requires |FilterModdable(s.apps, c.moddableOnly)| == |Rows(s.apps, c.moddableOnly)|
    ensures var t := Step(c, s, e);
      && t.scroll <= t.cursor < t.scroll + c.viewH
      && (t.cursor == 0 || t.cursor == s.cursor || t.cursor < |Rows(s.apps, c.moddableOnly)|)
  {
  }

  lemma StepKeepsFetches(c: Settings, s: State, e: Event)
    requires Valid(c, s) && Enabled(c, s, e)
    ensures var t := Step(c, s, e);
      && (t.querying.Some? ==> t.fetching && t.nextStart == t.querying)
      && |t.cids| == |t.apps|
      && (forall i :: i in t.waiting ==> i < |t.apps| && t.apps[i].meta == NO_META)
  {
  }

  /** The app under the cursor is a row of the list. */
  lemma CursorOnRow(c: Settings, s: State)
    requires Valid(c, s) && FilterModdable(s.apps, c.moddableOnly) != []
    ensures var view := FilterModdable(s.apps, c.moddableOnly);
      var end := if s.scroll + c.viewH < |view| then s.scroll + c.viewH else |view|;
      s.cursor < |view| && view[s.cursor] in view[s.scroll..end]
  {
    RowsAreShown(s.apps, c.moddableOnly);
    var view := FilterModdable(s.apps, c.moddableOnly);
    var end := if s.scroll + c.viewH < |view| then s.scroll + c.viewH else |view|;
    assert view[s.scroll..end][s.cursor - s.scroll] == view[s.cursor];
  }

  /** The list grows in the middle: landing metadata leaves the cursor on the same app exactly
      when it does not bring an app listed above that one into view. */
  lemma LandingKeepsAppUnderCursor(c: Settings, s: State, row: nat, meta: Meta)
    requires Valid(c, s) && Enabled(c, s, MetadataLanded(row, meta))
    requires Rows(s.apps, c.moddableOnly) != []
    ensures var rows := Rows(s.apps, c.moddableOnly);
      var rows' := Rows(Step(c, s, MetadataLanded(row, meta)).apps, c.moddableOnly);
      && s.cursor < |rows| && s.cursor < |rows'|
      && (rows'[s.cursor] == rows[s.cursor] <==>
            !(c.moddableOnly && row < rows[s.cursor] && Shown(s.apps[row].(meta := meta), true)))
  {
    LandingRows(c, s, row, meta);
  }

  // ---------- Keys ----------

  /** The window moves only when the cursor leaves it, and then by one row. */
  lemma ScrollsOnlyAsNeeded(c: Settings, s: State, e: Event)
    requires Valid(c, s) && Enabled(c, s, e)
    ensures var t := Step(c, s, e);
      && (s.scroll <= t.cursor < s.scroll + c.viewH ==> t.scroll == s.scroll)
      && (t.cursor < s.scroll ==> t.scroll == s.scroll - 1)
      && (t.cursor >= s.scroll + c.viewH ==> t.scroll == s.scroll + 1)
  {
  }

  function Keys(key: Event, n: nat): seq<Event> {
    seq(n, _ => key)
  }

  lemma DownOnce(c: Settings, s: State)
    requires Valid(c, s)
    ensures var n, t := |FilterModdable(s.apps, c.moddableOnly)|, Step(c, s, Down);
      && (n == 0 ==> s.cursor == 0) && (n > 0 ==> s.cursor < n)
      && t == s.(cursor := if s.cursor + 1 < n then s.cursor + 1 else s.cursor, scroll := t.scroll) && Valid(c, t)
  {
    RowsAreShown(s.apps, c.moddableOnly);
    StepKeepsValid(c, s, Down);
  }

  lemma {:induction false} DownsReach(c: Settings, s: State, n: nat)
    requires Valid(c, s)
    ensures var rows, t := |FilterModdable(s.apps, c.moddableOnly)|, Run(c, s, Keys(Down, n));
      && t.cursor == (if rows == 0 then 0 else if s.cursor + n < rows then s.cursor + n else rows - 1)
      && Valid(c, t) && t == s.(cursor := t.cursor, scroll := t.scroll)
    decreases n
  {
    DownOnce(c, s);
    if n > 0 {
      assert Keys(Down, n)[1..] == Keys(Down, n - 1);
      DownsReach(c, Step(c, s, Down), n - 1);
    }
  }

  lemma {:induction false} UpsReach(c: Settings, s: State, n: nat)
    requires Valid(c, s)
    ensures var t := Run(c, s, Keys(Up, n));
      && t.cursor == (if s.cursor > n then s.cursor - n else 0)
      && Valid(c, t) && t == s.(cursor := t.cursor, scroll := t.scroll)
    decreases n
  {
    if n > 0 {
      StepKeepsValid(c, s, Up);
      assert Keys(Up, n)[1..] == Keys(Up, n - 1);
      UpsReach(c, Step(c, s, Up), n - 1);
    }
  }

  /** As many keys as there are rows between put the cursor on any row, and change nothing else. */
  lemma RowIsReached(c: Settings, s: State, row: nat) returns (es: seq<Event>)
    requires Valid(c, s) && row < |FilterModdable(s.apps, c.moddableOnly)|
    ensures es == if row >= s.cursor then Keys(Down, row - s.cursor) else Keys(Up, s.cursor - row)
    ensures var t := Run(c, s, es); t == s.(cursor := row, scroll := t.scroll) && Valid(c, t)
  {
    if row >= s.cursor {
      es := Keys(Down, row - s.cursor);
      DownsReach(c, s, row - s.cursor);
    } else {
      es := Keys(Up, s.cursor - row);
      UpsReach(c, s, s.cursor - row);
    }
  }

  // ---------- Pages ----------

  lemma {:induction false} VisibleConcat(a: seq<Slot>, b: seq<Slot>)
    ensures VisibleOf(a + b) == VisibleOf(a) + VisibleOf(b)
  {
    if a == [] {
      assert a + b == b;
    } else {
      VisibleConcat(a[1..], b);
      assert (a + b)[1..] == a[1..] + b;
      Reassociate(if a[0].Visible? then [a[0].raw] else [], VisibleOf(a[1..]), VisibleOf(b));
    }
  }

  function FinalMeta(gateway: Gateway, cid: string): Meta {
    if cid == "" then NO_META
    else match gateway(cid) case None => NO_META case Some(meta) => meta
  }

  ghost predicate HonestEvent(slots: seq<Slot>, gateway: Gateway, s: State, e: Event) {
    match e
    case PageArrived(answer) => s.querying.Some? ==> Honest(slots, s.querying.value, answer)
    case MetadataLanded(row, meta) => row < |s.cids| && gateway(s.cids[row]) == Some(meta)
    case MetadataLost(row) => row < |s.cids| && gateway(s.cids[row]) == None
    case _ => true
  }

  /** The list is the visible apps of the first `walked` slots, newest first and once each,
      with the metadata of those whose fetch is over. */
  ghost predicate Lists(slots: seq<Slot>, gateway: Gateway, s: State, walked: nat) {
    && walked <= |slots| && (s.nextStart.Some? ==> s.nextStart.value == walked)
    && var visible := VisibleOf(slots[..walked]);
       && |s.apps| == |visible| && |s.cids| == |visible|
       && forall i :: 0 <= i < |visible| ==>
            && s.apps[i].domain == visible[i].domain && s.cids[i] == visible[i].cid
            && s.apps[i].meta == (if i in s.waiting then NO_META else FinalMeta(gateway, visible[i].cid))
            && (i in s.waiting ==> visible[i].cid != "")
  }

  lemma PageLists(c: Settings, slots: seq<Slot>, gateway: Gateway, s: State, walked: nat, answer: Answer)
    requires Valid(c, s) && s.querying.Some? && Lists(slots, gateway, s, walked)
    requires answer.Page? && Honest(slots, walked, answer)
    ensures Lists(slots, gateway, Step(c, s, PageArrived(answer)), walked + answer.scanned)
    ensures Step(c, s, PageArrived(answer)).nextStart.None? ==> walked + answer.scanned == |slots|
  {
    var t, w := Step(c, s, PageArrived(answer)), walked + answer.scanned;
    var visible, n := VisibleOf(slots[..w]), |s.apps|;
    assert visible == VisibleOf(slots[..walked]) + answer.entries by {
      VisibleConcat(slots[..walked], slots[walked..w]);
      assert slots[..walked] + slots[walked..w] == slots[..w];
    }
    forall i | 0 <= i < |visible|
      ensures t.apps[i].domain == visible[i].domain && t.cids[i] == visible[i].cid
      ensures t.apps[i].meta == if i in t.waiting then NO_META else FinalMeta(gateway, visible[i].cid)
      ensures i in t.waiting ==> visible[i].cid != ""
    {
      if i >= n {
        assert visible[i] == answer.entries[i - n];
        assert t.apps[i] == AppEntry(visible[i].domain, NO_META) && t.cids[i] == visible[i].cid;
        assert i in t.waiting <==> visible[i].cid != "";
      }
    }
  }

  lemma StepLists(c: Settings, slots: seq<Slot>, gateway: Gateway, s: State, walked: nat, e: Event)
    returns (w: nat)
    requires Valid(c, s) && Enabled(c, s, e) && Lists(slots, gateway, s, walked)
    requires HonestEvent(slots, gateway, s, e)
    ensures walked <= w && Lists(slots, gateway, Step(c, s, e), w)
    ensures e.PageArrived? && e.answer.Page? && Step(c, s, e).nextStart.None? ==> w == |slots|
    ensures e.PageArrived? && Step(c, s, e).nextStart.Some? ==> walked < w < |slots|
    ensures !e.PageArrived? ==> w == walked && Step(c, s, e).nextStart == s.nextStart
  {
    w := walked;
    match e {
      case PageArrived(Page(_, _, scanned)) =>
        PageLists(c, slots, gateway, s, walked, e.answer);
        w := walked + scanned;
      case _ =>
    }
  }

  // ---------- Runs ----------

  ghost predicate HonestRun(c: Settings, slots: seq<Slot>, gateway: Gateway, s: State, es: seq<Event>)
    decreases |es|
  {
    es == [] || (&& Enabled(c, s, es[0]) && HonestEvent(slots, gateway, s, es[0])
                 && HonestRun(c, slots, gateway, Step(c, s, es[0]), es[1..]))
  }

  ghost function Run(c: Settings, s: State, es: seq<Event>): State
    decreases |es|
  {
    if es == [] || !Enabled(c, s, es[0]) then s else Run(c, Step(c, s, es[0]), es[1..])
  }

  function Pages(es: seq<Event>): nat {
    if es == [] then 0 else (if es[0].PageArrived? then 1 else 0) + Pages(es[1..])
  }

  predicate Fails(es: seq<Event>) {
    PageArrived(Failure) in es
  }

  lemma InitialValid(c: Settings, slots: seq<Slot>, gateway: Gateway)
    requires c.viewH > 0
    ensures Valid(c, INITIAL) && Lists(slots, gateway, INITIAL, 0)
  {
    assert slots[..0] == [];
  }

  /** Pages that can still arrive when the first `walked` slots have been walked. */
  function PagesLeft(slots: seq<Slot>, s: State, walked: nat): int {
    if s.nextStart.None? then 0 else if walked < |slots| then |slots| - walked else 1
  }

  lemma {:induction false} RunLists(c: Settings, slots: seq<Slot>, gateway: Gateway, s: State, walked: nat, es: seq<Event>)
    returns (w: nat)
    requires Valid(c, s) && Lists(slots, gateway, s, walked) && HonestRun(c, slots, gateway, s, es)
    ensures var t := Run(c, s, es);
      && Valid(c, t) && Lists(slots, gateway, t, w) && walked <= w
      && (!Fails(es) && (s.nextStart.None? ==> walked == |slots|) && t.nextStart.None? ==> w == |slots|)
      && Pages(es) + PagesLeft(slots, t, w) <= PagesLeft(slots, s, walked)
    decreases |es|
  {
    if es == [] {
      w := walked;
    } else {
      var e, rest := es[0], es[1..];
      assert forall x :: x in es <==> x == e || x in rest;
      StepKeepsValid(c, s, e);
      var v := StepLists(c, slots, gateway, s, walked, e);
      w := RunLists(c, slots, gateway, Step(c, s, e), v, rest);
    }
  }

  /** Against a fixed registry the list is, at every moment and in every interleaving of pages,
      metadata and keys, the visible apps of a prefix of the slots, newest first and once each;
      paging ends after at most one page a slot. */
  lemma ListsPrefixOnce(c: Settings, slots: seq<Slot>, gateway: Gateway, es: seq<Event>) returns (walked: nat)
    requires c.viewH > 0 && HonestRun(c, slots, gateway, INITIAL, es)
    ensures Valid(c, Run(c, INITIAL, es)) && Lists(slots, gateway, Run(c, INITIAL, es), walked)
    ensures Pages(es) <= if slots == [] then 1 else |slots|
  {
    InitialValid(c, slots, gateway);
    walked := RunLists(c, slots, gateway, INITIAL, 0, es);
  }

  lemma {:induction false} NoPageComes(c: Settings, s: State, es: seq<Event>)
    requires s.nextStart.None? && s.querying.None?
    ensures Run(c, s, es).total == s.total
    decreases |es|
  {
    if es != [] && Enabled(c, s, es[0]) {
      NoPageComes(c, Step(c, s, es[0]), es[1..]);
    }
  }

  lemma {:induction false} TotalStays(c: Settings, slots: seq<Slot>, gateway: Gateway, s: State, es: seq<Event>)
    requires HonestRun(c, slots, gateway, s, es)
    ensures Run(c, s, es).total == if Fails(es) then 0 else if Pages(es) > 0 then |slots| else s.total
    decreases |es|
  {
    if es != [] {
      var t := Step(c, s, es[0]);
      assert forall x :: x in es <==> x == es[0] || x in es[1..];
      TotalStays(c, slots, gateway, t, es[1..]);
      if es[0] == PageArrived(Failure) {
        NoPageComes(c, t, es[1..]);
      }
    }
  }

  /** The total shown is the registry's from the first page on, and zero once a query failed. */
  lemma TotalIsRegistry(c: Settings, slots: seq<Slot>, gateway: Gateway, es: seq<Event>)
    requires HonestRun(c, slots, gateway, INITIAL, es)
    ensures Run(c, INITIAL, es).total == if Fails(es) || Pages(es) == 0 then 0 else |slots|
  {
    TotalStays(c, slots, gateway, INITIAL, es);
  }

  /** Where the page queries of a run start. */
  ghost function Queries(c: Settings, s: State, es: seq<Event>): seq<nat>
    decreases |es|
  {
    if es == [] || !Enabled(c, s, es[0]) then []
    else (if es[0].LoadMore? then [s.nextStart.value] else []) + Queries(c, Step(c, s, es[0]), es[1..])
  }

  predicate Ascending(qs: seq<nat>) {
    forall i, j :: 0 <= i < j < |qs| ==> qs[i] < qs[j]
  }

  /** `q` is where a later query may still start: further on than the one in flight. */
  predicate Ahead(s: State, q: nat) {
    && (s.fetching ==> s.querying.Some? && q > s.querying.value)
    && s.nextStart.Some? && q >= s.nextStart.value
  }

  lemma StepStaysAhead(c: Settings, s: State, e: Event, q: nat)
    requires Valid(c, s) && Enabled(c, s, e) && Ahead(Step(c, s, e), q)
    ensures Ahead(s, q)
    ensures e.LoadMore? ==> Ahead(s, s.nextStart.value) && q > s.nextStart.value
  {
  }

  /** Whatever a registry answers, in any interleaving: each page query starts further on than the
      one in flight and all before it, so none is repeated. */
  lemma {:induction false} QueriesAscend(c: Settings, s: State, es: seq<Event>)
    requires Valid(c, s)
    ensures forall q :: q in Queries(c, s, es) ==> Ahead(s, q)
    ensures Ascending(Queries(c, s, es))
    decreases |es|
  {
    if es != [] && Enabled(c, s, es[0]) {
      var t := Step(c, s, es[0]);
      StepKeepsValid(c, s, es[0]);
      QueriesAscend(c, t, es[1..]);
      QueriesAscendStep(c, s, es[0], Queries(c, t, es[1..]));
    }
  }

  lemma QueriesAscendStep(c: Settings, s: State, e: Event, rest: seq<nat>)
    requires Valid(c, s) && Enabled(c, s, e)
    requires forall q :: q in rest ==> Ahead(Step(c, s, e), q)
    requires Ascending(rest)
    ensures var all := (if e.LoadMore? then [s.nextStart.value] else []) + rest;
      (forall q :: q in all ==> Ahead(s, q)) && Ascending(all)
  {
    forall q | q in rest ensures Ahead(s, q) && (e.LoadMore? ==> q > s.nextStart.value) {
      StepStaysAhead(c, s, e, q);
    }
    if e.LoadMore? {
      FirstIsLeast(s.nextStart.value, rest);
    } else {
      assert [] + rest == rest;
    }
  }

  lemma FirstIsLeast(first: nat, rest: seq<nat>)
    requires forall q :: q in rest ==> q > first
    requires Ascending(rest)
    ensures Ascending([first] + rest)
  {
    assert forall i :: 0 <= i < |rest| ==> rest[i] in rest;
  }

  // ---------- Rejected queries ----------

  ghost predicate Possible(c: Settings, s: State, es: seq<Event>)
    decreases |es|
  {
    es == [] || (Enabled(c, s, es[0]) && Possible(c, Step(c, s, es[0]), es[1..]))
  }

  /** A picker that fetches with no query in flight does so for good: no page query starts, arrives
      or is rejected again, whatever else happens. */
  lemma {:induction false} RejectionEndsPaging(c: Settings, s: State, es: seq<Event>)
    requires Valid(c, s) && s.fetching && s.querying.None?
    ensures var t := Run(c, s, es);
      && t.fetching && t.querying.None? && t.nextStart == s.nextStart && t.exiting == s.exiting
      && |t.apps| == |s.apps| && Queries(c, s, es) == []
    ensures Possible(c, s, es) ==> forall e :: e in es ==> !e.QueryRejected?
    decreases |es|
  {
    if es != [] && Enabled(c, s, es[0]) {
      StepKeepsValid(c, s, es[0]);
      RejectionEndsPaging(c, Step(c, s, es[0]), es[1..]);
      assert forall e :: e in es <==> e == es[0] || e in es[1..];
    }
  }

  lemma {:induction false} RejectedOnce(c: Settings, s: State, es: seq<Event>)
    requires Valid(c, s) && (s.fetching <==> s.querying.Some?) && Possible(c, s, es)
    ensures var t := Run(c, s, es);
      && (t.fetching && t.querying.None? <==> QueryRejected(true) in es || QueryRejected(false) in es)
      && (t.exiting <==> s.exiting || QueryRejected(false) in es)
    ensures !(QueryRejected(true) in es && QueryRejected(false) in es)
    decreases |es|
  {
    if es != [] {
      var e, rest := es[0], es[1..];
      StepKeepsValid(c, s, e);
      assert forall x :: x in es <==> x == e || x in rest;
      if e.QueryRejected? {
        RejectionEndsPaging(c, Step(c, s, e), rest);
      } else {
        RejectedOnce(c, Step(c, s, e), rest);
      }
    }
  }

  /** A rejected page query has no handler of its own. Over every run, the picker is left fetching
      for good, with no query in flight and the process alive, exactly when a query was rejected with
      an error that the guard lets pass; and a query makes the process exit exactly when it was
      rejected with any other error. */
  lemma PickerStuckIff(c: Settings, es: seq<Event>)
    requires c.viewH > 0 && Possible(c, INITIAL, es)
    ensures var t := Run(c, INITIAL, es);
      && (t.fetching && t.querying.None? && !t.exiting <==> QueryRejected(true) in es)
      && (t.exiting <==> QueryRejected(false) in es)
  {
    RejectedOnce(c, INITIAL, es);
  }

  /** The connection is lost while the second page loads: the apps of the first stay, no other comes. */
  lemma LostConnectionStrandsPicker(c: Settings, raw: Raw, more: seq<Event>)
    requires c.viewH > 0
    ensures var es := [PageArrived(Page([raw], 2, 1)), LoadMore, QueryRejected(true)];
      var s := Run(c, INITIAL, es);
      && Possible(c, INITIAL, es) && s.nextStart == Some(1) && |s.apps| == 1
      && var t := Run(c, s, more);
         t.fetching && t.querying.None? && !t.exiting && |t.apps| == 1 && Queries(c, s, more) == []
  {
    var arrived := PageArrived(Page([raw], 2, 1));
    var first := Step(c, INITIAL, arrived);
    StepKeepsValid(c, INITIAL, arrived);
    RowsAreShown(first.apps, c.moddableOnly);
    assert |first.apps| == 1 && first.nextStart == Some(1) && !first.fetching;
    var second := Step(c, first, LoadMore);
    StepKeepsValid(c, first, LoadMore);
    StepKeepsValid(c, second, QueryRejected(true));
    RunThree(c, INITIAL, arrived, LoadMore, QueryRejected(true));
    RejectionEndsPaging(c, Step(c, second, QueryRejected(true)), more);
  }

  lemma RunThree(c: Settings, s: State, e: Event, f: Event, g: Event)
    requires Enabled(c, s, e) && Enabled(c, Step(c, s, e), f) && Enabled(c, Step(c, Step(c, s, e), f), g)
    ensures Run(c, s, [e, f, g]) == Step(c, Step(c, Step(c, s, e), f), g) && Possible(c, s, [e, f, g])
  {
    var t, u := Step(c, s, e), Step(c, Step(c, s, e), f);
    RunCons(c, u, g, []);
    RunCons(c, t, f, [g]);
    RunCons(c, s, e, [f, g]);
    assert [g] + [] == [g] && [f] + [g] == [f, g] && [e] + [f, g] == [e, f, g];
  }

  lemma RunCons(c: Settings, s: State, e: Event, rest: seq<Event>)
    requires Enabled(c, s, e)
    ensures Run(c, s, [e] + rest) == Run(c, Step(c, s, e), rest)
    ensures Possible(c, s, [e] + rest) <==> Possible(c, Step(c, s, e), rest)
  {
    assert ([e] + rest)[1..] == rest;
  }

  // ---------- Metadata still to come ----------

  predicate Fetched(es: seq<Event>, row: nat) {
    exists i :: 0 <= i < |es| && ((es[i].MetadataLanded? || es[i].MetadataLost?) && es[i].row == row)
  }

  lemma FetchedCons(es: seq<Event>, row: nat)
    requires es != []
    ensures Fetched(es, row) <==>
      ((es[0].MetadataLanded? || es[0].MetadataLost?) && es[0].row == row) || Fetched(es[1..], row)
  {
    assert forall i :: 0 < i < |es| ==> es[i] == es[1..][i - 1];
  }

  lemma {:induction false} RunWaits(c: Settings, s: State, es: seq<Event>, row: nat)
    requires Valid(c, s) && Possible(c, s, es)
    ensures var t := Run(c, s, es);
      && |t.cids| >= |s.cids| && t.cids[..|s.cids|] == s.cids
      && (row in t.waiting <==>
            && (row in s.waiting || (|s.cids| <= row < |t.cids| && t.cids[row] != ""))
            && !Fetched(es, row))
    decreases |es|
  {
    if es != [] {
      StepKeepsValid(c, s, es[0]);
      RunWaits(c, Step(c, s, es[0]), es[1..], row);
      FetchedCons(es, row);
      StepWaits(c, s, es[0], row);
      CidsStay(s.cids, Step(c, s, es[0]).cids, Run(c, s, es).cids, row);
    } else {
      assert s.cids[..|s.cids|] == s.cids;
    }
  }

  lemma CidsStay(a: seq<string>, b: seq<string>, c: seq<string>, row: nat)
    requires a <= b && |b| <= |c| && c[..|b|] == b
    ensures |a| <= |c| && c[..|a|] == a && (row < |b| ==> c[row] == b[row])
  {
    assert c[..|b|][..|a|] == c[..|a|];
    assert row < |b| ==> c[..|b|][row] == c[row];
  }

  lemma StepWaits(c: Settings, s: State, e: Event, row: nat)
    requires Valid(c, s) && Enabled(c, s, e)
    ensures var t := Step(c, s, e);
      && s.cids <= t.cids
      && (row in t.waiting <==>
            && (row in s.waiting || (|s.cids| <= row < |t.cids| && t.cids[row] != ""))
            && !((e.MetadataLanded? || e.MetadataLost?) && e.row == row))
  {
  }

  /** Over every run, the rows still waiting are those whose entry names metadata that has neither
      landed nor been lost. */
  lemma WaitingIff(c: Settings, es: seq<Event>, row: nat)
    requires c.viewH > 0 && Possible(c, INITIAL, es)
    ensures var t := Run(c, INITIAL, es);
      row in t.waiting <==> row < |t.cids| && t.cids[row] != "" && !Fetched(es, row)
  {
    RunWaits(c, INITIAL, es, row);
  }

  /** The whole list, with all metadata. */
  function FinalList(slots: seq<Slot>, gateway: Gateway): seq<AppEntry> {
    var visible := VisibleOf(slots);
    seq(|visible|, i requires 0 <= i < |visible| =>
      AppEntry(visible[i].domain, FinalMeta(gateway, visible[i].cid)))
  }

  /** Once paging is over and all metadata has come or failed, the list is the same whatever the
      order: every visible app once, newest first, with its own metadata. */
  lemma FinalListIsOrderIndependent(c: Settings, slots: seq<Slot>, gateway: Gateway, es: seq<Event>)
    requires c.viewH > 0 && HonestRun(c, slots, gateway, INITIAL, es) && !Fails(es)
    requires var t := Run(c, INITIAL, es); t.nextStart.None? && t.waiting == {}
    ensures Run(c, INITIAL, es).apps == FinalList(slots, gateway)
  {
    InitialValid(c, slots, gateway);
    var w := RunLists(c, slots, gateway, INITIAL, 0, es);
    assert slots[..|slots|] == slots;
    var apps, final := Run(c, INITIAL, es).apps, FinalList(slots, gateway);
    forall i | 0 <= i < |final|
      ensures apps[i] == final[i]
    {
    }
  }

  // ---------- The component ----------

  /** The picker's state hooks and refs, and what its handlers do to them. */
  class Browser {
    const settings: Settings
    var apps: seq<AppEntry>
    var cids: seq<string>
    var total: nat
    var cursor: nat
    var scroll: nat
    var fetching: bool
    var nextStart: Option<nat>
    var querying: Option<nat>
    var waiting: set<nat>
    var exiting: bool

    ghost function Now(): State
      reads this
    {
      State(apps, cids, total, cursor, scroll, fetching, nextStart, querying, waiting, exiting)
    }

    /** Mounting starts the query for the newest page. */
    constructor (settings: Settings)
      requires settings.viewH > 0
      ensures this.settings == settings && Now() == INITIAL && Valid(settings, Now())
    {
      this.settings := settings;
      apps, cids, total, cursor, scroll := [], [], 0, 0, 0;
      fetching, nextStart, querying, waiting, exiting := true, Some(0), Some(0), {}, false;
    }

    /** The load-more effect: runs after a rendering, with the values it rendered. */
    method LoadMoreEffect()
      requires Valid(settings, Now())
      modifies this
      ensures Valid(settings, Now())
      ensures Now() == if Enabled(settings, old(Now()), LoadMore) then Step(settings, old(Now()), LoadMore) else old(Now())
    {
      StepIfEnabled(LoadMore);
      var filtered := FilterModdable(apps, settings.moddableOnly);
      if cursor >= |filtered| - 3 && nextStart.Some? && !fetching {
        fetching := true;
        querying := nextStart;
      }
    }

    lemma StepIfEnabled(e: Event)
      requires Valid(settings, Now())
      ensures Enabled(settings, Now(), e) ==> Valid(settings, Step(settings, Now(), e))
    {
      if Enabled(settings, Now(), e) {
        StepKeepsValid(settings, Now(), e);
      }
    }

    /** The rest of `loadBatch`, once the registry has answered. */
    method PageArrives(answer: Answer)
      requires Valid(settings, Now()) && querying.Some?
      modifies this
      ensures Valid(settings, Now()) && Now() == Step(settings, old(Now()), PageArrived(answer))
    {
      StepIfEnabled(PageArrived(answer));
      if answer.Failure? {
        total, nextStart, fetching, querying := 0, None, false, None;
        return;
      }
      var Page(raw, totalFromResp, scanned) := answer;
      var start := querying.value;
      total := totalFromResp;
      nextStart := if scanned > 0 && start + scanned < totalFromResp then Some(start + scanned) else None;
      var n := |apps|;
      apps := apps + seq(|raw|, i requires 0 <= i < |raw| => AppEntry(raw[i].domain, NO_META));
      cids := cids + seq(|raw|, i requires 0 <= i < |raw| => raw[i].cid);
      waiting := waiting + set i | 0 <= i < |raw| && raw[i].cid != "" :: n + i;
      fetching, querying := false, None;
    }

    /** `loadBatch` leaves at the await: what comes after it is not run. Nobody awaits `loadBatch`
        either, so the rejection reaches the process guard. */
    method PageQueryRejected(benign: bool)
      requires Valid(settings, Now()) && querying.Some?
      modifies this`querying, this`exiting
      ensures Valid(settings, Now()) && Now() == Step(settings, old(Now()), QueryRejected(benign)) && fetching
    {
      StepIfEnabled(QueryRejected(benign));
      querying := None;
      if !benign {
        exiting := true;
      }
    }

    method MetadataLands(row: nat, meta: Meta)
      requires Valid(settings, Now()) && row in waiting
      modifies this
      ensures Valid(settings, Now()) && Now() == Step(settings, old(Now()), MetadataLanded(row, meta))
    {
      StepIfEnabled(MetadataLanded(row, meta));
      apps := apps[row := apps[row].(meta := meta)];
      waiting := waiting - {row};
    }

    method UpArrow()
      requires Valid(settings, Now())
      modifies this`cursor, this`scroll
      ensures Valid(settings, Now()) && Now() == Step(settings, old(Now()), Up)
    {
      StepIfEnabled(Up);
      if cursor > 0 {
        var next := cursor - 1;
        cursor := next;
        if next < scroll {
          scroll := next;
        }
      }
    }

    method DownArrow()
      requires Valid(settings, Now())
      modifies this`cursor, this`scroll
      ensures Valid(settings, Now()) && Now() == Step(settings, old(Now()), Down)
    {
      StepIfEnabled(Down);
      if cursor < |FilterModdable(apps, settings.moddableOnly)| - 1 {
        var next := cursor + 1;
        cursor := next;
        if next >= scroll + settings.viewH {
          scroll := next - settings.viewH + 1;
        }
      }
    }
  }
}
