/** Interceptors of `console.error` (src/utils/sessionSigner.ts, src/utils/contractManifest.ts).

    A signing call and a registry query each replace the global handler while they run and
    then put back the one they captured. Both do so around an await, so their starts and
    ends interleave.
 */
module ConsoleHandlers {
  import opened Sequences

  /** `Signing` watches for an expired allowance; `Registry` hides a known trace failure. */
  datatype Kind = Signing | Registry

  datatype Handler = Original | Filter(kind: Kind, previous: nat)

  /** One `console.error` call: its arguments as strings. */
  type Line = seq<string>

  predicate Contains(s: string, part: string) {
    part <= s || (s != "" && Contains(s[1..], part))
  }

  function Joined(args: Line): string {
    if |args| == 0 then "" else if |args| == 1 then args[0] else args[0] + " " + Joined(args[1..])
  }

  const TRACE_ERROR := "Incompatible runtime entry RuntimeCall(ReviveApi_trace_call)"

  /** Whether a filter of this kind swallows the line. */
  predicate Matches(kind: Kind, args: Line) {
    match kind
    case Signing =>
      Contains(Joined(args), "NoAllowanceError") || Contains(Joined(args), "no allowance set")
    case Registry =>
      exists i :: 0 <= i < |args| && Contains(args[i], TRACE_ERROR)
  }

  /** Every handler ever installed, the one installed now, the calls still running, the
      signing calls that have seen an expired allowance, and what reached the original. */
  datatype State = State(handlers: seq<Handler>, current: nat, running: set<nat>,
                         alarmed: set<nat>, printed: seq<Line>)

  datatype Event = Start(kind: Kind) | End(id: nat) | Error(args: Line)

  const INITIAL := State([Original], 0, {}, {}, [])

  /** A filter forwards only to a handler installed before it, so chains end. */
  ghost predicate Valid(s: State) {
    && s.handlers != [] && s.handlers[0].Original?
    && (forall i :: 0 < i < |s.handlers| ==> s.handlers[i].Filter? && s.handlers[i].previous < i)
    && s.current < |s.handlers|
    && (forall i :: i in s.running ==> 0 < i < |s.handlers|)
    && (forall i :: i in s.alarmed ==> 0 < i < |s.handlers|)
  }

  /** Where a line given to handler `id` ends up: 0 is the original console. */
  function Destination(handlers: seq<Handler>, id: nat, args: Line): nat
    requires id < |handlers|
    requires forall i :: 0 < i < |handlers| && handlers[i].Filter? ==> handlers[i].previous < i
    decreases id
  {
    if id == 0 || handlers[id].Original? || Matches(handlers[id].kind, args) then id
    else Destination(handlers, handlers[id].previous, args)
  }

  predicate Enabled(s: State, e: Event) {
    e.End? ==> e.id in s.running
  }

  ghost function Step(s: State, e: Event): State
    requires Valid(s) && Enabled(s, e)
  {
    match e
    case Start(kind) =>
      var id := |s.handlers|;
      s.(handlers := s.handlers + [Filter(kind, s.current)], current := id, running := s.running + {id})
    case End(id) =>
      s.(current := s.handlers[id].previous, running := s.running - {id})
    case Error(args) =>
      var id := Destination(s.handlers, s.current, args);
      if id == 0 then s.(printed := s.printed + [args])
      else (DestinationInRange(s.handlers, s.current, args);
        if s.handlers[id].kind.Signing? then s.(alarmed := s.alarmed + {id}) else s)
  }

  lemma {:induction false} DestinationInRange(handlers: seq<Handler>, id: nat, args: Line)
    requires id < |handlers|
    requires forall i :: 0 < i < |handlers| ==> handlers[i].Filter? && handlers[i].previous < i
    ensures Destination(handlers, id, args) <= id
    ensures var d := Destination(handlers, id, args); d > 0 ==> Matches(handlers[d].kind, args)
    decreases id
  {
    if id > 0 && !Matches(handlers[id].kind, args) {
      DestinationInRange(handlers, handlers[id].previous, args);
    }
  }

  lemma StepKeepsValid(s: State, e: Event)
    requires Valid(s) && Enabled(s, e)
    ensures Valid(Step(s, e))
  {
    if e.Error? {
      DestinationInRange(s.handlers, s.current, e.args);
    }
  }

  // ---------- Runs ----------

  ghost predicate Runnable(s: State, es: seq<Event>)
    requires Valid(s)
    decreases |es|
  {
    es == [] || (Enabled(s, es[0]) && (StepKeepsValid(s, es[0]); Runnable(Step(s, es[0]), es[1..])))
  }

  ghost function Run(s: State, es: seq<Event>): (t: State)
    requires Valid(s) && Runnable(s, es)
    ensures Valid(t)
    decreases |es|
  {
    if es == [] then s else (StepKeepsValid(s, es[0]); Run(Step(s, es[0]), es[1..]))
  }

  lemma {:induction false} RunConcat(s: State, es: seq<Event>, fs: seq<Event>)
    requires Valid(s) && Runnable(s, es) && Runnable(Run(s, es), fs)
    ensures Runnable(s, es + fs) && Run(s, es + fs) == Run(Run(s, es), fs)
    decreases |es|
  {
    if es == [] {
      assert es + fs == fs;
    } else {
      StepKeepsValid(s, es[0]);
      RunConcat(Step(s, es[0]), es[1..], fs);
      assert (es + fs)[1..] == es[1..] + fs;
    }
  }

  // ---------- Delivery ----------

  /** The filters a line passes on its way to the original console, nearest first. */
  function Chain(handlers: seq<Handler>, id: nat): seq<nat>
    requires id < |handlers|
    requires forall i :: 0 < i < |handlers| ==> handlers[i].Filter? && handlers[i].previous < i
    decreases id
  {
    if id == 0 then [] else [id] + Chain(handlers, handlers[id].previous)
  }

  /** Along a chain the filters get older. */
  lemma {:induction false} ChainDescends(handlers: seq<Handler>, id: nat)
    requires id < |handlers|
    requires forall i :: 0 < i < |handlers| ==> handlers[i].Filter? && handlers[i].previous < i
    ensures forall x :: x in Chain(handlers, id) ==> 0 < x <= id
    ensures forall j, k :: 0 <= j < k < |Chain(handlers, id)| ==> Chain(handlers, id)[k] < Chain(handlers, id)[j]
    decreases id
  {
    if id > 0 {
      ChainDescends(handlers, handlers[id].previous);
      var chain, rest := Chain(handlers, id), Chain(handlers, handlers[id].previous);
      assert chain[0] == id && forall j :: 0 < j < |chain| ==> chain[j] == rest[j - 1] && rest[j - 1] in rest;
    }
  }

  /** A line stops at the nearest filter of the chain that matches it, and reaches the
      original console exactly when none does. */
  lemma {:induction false} DestinationIsNearestMatch(handlers: seq<Handler>, id: nat, args: Line)
    requires id < |handlers|
    requires forall i :: 0 < i < |handlers| ==> handlers[i].Filter? && handlers[i].previous < i
    ensures forall x :: x in Chain(handlers, id) ==> 0 < x < |handlers|
    ensures var chain, d := Chain(handlers, id), Destination(handlers, id, args);
      && (d > 0 ==> d in chain && Matches(handlers[d].kind, args))
      && (forall x :: x in chain && x > d ==> !Matches(handlers[x].kind, args))
    decreases id
  {
    ChainDescends(handlers, id);
    DestinationInRange(handlers, id, args);
    if id > 0 {
      DestinationIsNearestMatch(handlers, handlers[id].previous, args);
    }
  }

  predicate Unfiltered(args: Line) {
    !Matches(Signing, args) && !Matches(Registry, args)
  }

  function Keep(lines: seq<Line>): seq<Line> {
    if lines == [] then [] else (if Unfiltered(lines[0]) then [lines[0]] else []) + Keep(lines[1..])
  }

  function Emitted(es: seq<Event>): seq<Line> {
    if es == [] then [] else (if es[0].Error? then [es[0].args] else []) + Emitted(es[1..])
  }

  lemma {:induction false} KeepConcat(a: seq<Line>, b: seq<Line>)
    ensures Keep(a + b) == Keep(a) + Keep(b)
  {
    if a == [] {
      assert a + b == b;
    } else {
      KeepConcat(a[1..], b);
      assert (a + b)[1..] == a[1..] + b;
      Reassociate(if Unfiltered(a[0]) then [a[0]] else [], Keep(a[1..]), Keep(b));
    }
  }

  lemma ErrorKeeps(s: State, args: Line)
    requires Valid(s)
    ensures Keep(Step(s, Error(args)).printed) == Keep(s.printed) + Keep([args])
  {
    DestinationInRange(s.handlers, s.current, args);
    var d := Destination(s.handlers, s.current, args);
    if d == 0 {
      KeepConcat(s.printed, [args]);
    } else {
      assert s.handlers[d].kind == Signing || s.handlers[d].kind == Registry;
      assert Keep([args]) == [];
    }
  }

  /** Whatever the interleaving, the lines no filter is after reach the original console once
      each and in order. */
  lemma {:induction false} UnfilteredLinesArrive(s: State, es: seq<Event>)
    requires Valid(s) && Runnable(s, es)
    ensures Keep(Run(s, es).printed) == Keep(s.printed) + Keep(Emitted(es))
    decreases |es|
  {
    if es != [] {
      StepKeepsValid(s, es[0]);
      var t := Step(s, es[0]);
      UnfilteredLinesArrive(t, es[1..]);
      var head := if es[0].Error? then [es[0].args] else [];
      if es[0].Error? {
        ErrorKeeps(s, es[0].args);
      }
      KeepConcat(head, Emitted(es[1..]));
      Reassociate(Keep(s.printed), Keep(head), Keep(Emitted(es[1..])));
    }
  }

  // ---------- Restoring ----------

  /** Calls end in the reverse order of their starts; `open` holds those still running. */
  ghost predicate Nested(s: State, es: seq<Event>, open: seq<nat>)
    requires Valid(s) && Runnable(s, es)
    decreases |es|
  {
    es == [] || (StepKeepsValid(s, es[0]);
      var t := Step(s, es[0]);
      match es[0]
      case Start(_) => Nested(t, es[1..], open + [t.current])
      case End(id) => open != [] && open[|open| - 1] == id && Nested(t, es[1..], open[..|open| - 1])
      case Error(_) => Nested(t, es[1..], open))
  }

  ghost function OpenAfter(s: State, es: seq<Event>, open: seq<nat>): seq<nat>
    requires Valid(s) && Runnable(s, es) && Nested(s, es, open)
    decreases |es|
  {
    if es == [] then open else
      StepKeepsValid(s, es[0]);
      var t := Step(s, es[0]);
      match es[0]
      case Start(_) => OpenAfter(t, es[1..], open + [t.current])
      case End(id) => OpenAfter(t, es[1..], open[..|open| - 1])
      case Error(_) => OpenAfter(t, es[1..], open)
  }

  /** What lies below the open call at `i`. */
  function Below(base: nat, open: seq<nat>, i: nat): nat
    requires i <= |open|
  {
    if i == 0 then base else open[i - 1]
  }

  /** The open calls are linked, each to the one before it and the first to `base`. */
  ghost predicate Linked(handlers: seq<Handler>, current: nat, base: nat, open: seq<nat>) {
    && (forall i :: 0 <= i < |open| ==> 0 < open[i] < |handlers| && handlers[open[i]].Filter?)
    && (forall i :: 0 <= i < |open| ==> handlers[open[i]].previous == Below(base, open, i))
    && current == Below(base, open, |open|)
  }

  lemma LinkedStart(handlers: seq<Handler>, current: nat, kind: Kind, base: nat, open: seq<nat>)
    requires handlers != [] && Linked(handlers, current, base, open)
    ensures Linked(handlers + [Filter(kind, current)], |handlers|, base, open + [|handlers|])
  {
    var more := open + [|handlers|];
    assert forall i :: 0 <= i < |open| ==> more[i] == open[i];
    assert forall i :: 0 <= i <= |open| ==> Below(base, more, i) == Below(base, open, i);
  }

  /** Without its last call, an open list is linked up to the handler that call captured. */
  lemma LinkedFront(handlers: seq<Handler>, current: nat, base: nat, open: seq<nat>)
    requires Linked(handlers, current, base, open) && open != []
    ensures var n := |open| - 1;
      Linked(handlers, handlers[open[n]].previous, base, open[..n])
  {
    var n := |open| - 1;
    assert handlers[open[n]].previous == Below(base, open, n);
    assert forall i :: 0 <= i <= n ==> Below(base, open[..n], i) == Below(base, open, i);
  }

  lemma {:induction false} NestedLinked(s: State, es: seq<Event>, base: nat, open: seq<nat>)
    requires Valid(s) && Runnable(s, es) && Nested(s, es, open) && Linked(s.handlers, s.current, base, open)
    ensures Linked(Run(s, es).handlers, Run(s, es).current, base, OpenAfter(s, es, open))
    decreases |es|
  {
    if es != [] {
      StepKeepsValid(s, es[0]);
      var t := Step(s, es[0]);
      match es[0] {
        case Start(kind) =>
          LinkedStart(s.handlers, s.current, kind, base, open);
          NestedLinked(t, es[1..], base, open + [t.current]);
        case End(id) =>
          LinkedFront(s.handlers, s.current, base, open);
          NestedLinked(t, es[1..], base, open[..|open| - 1]);
        case Error(_) => NestedLinked(t, es[1..], base, open);
      }
    }
  }

  /** Well-bracketed calls leave the handler they found. */
  lemma NestedRestores(s: State, es: seq<Event>)
    requires Valid(s) && Runnable(s, es) && Nested(s, es, []) && OpenAfter(s, es, []) == []
    ensures Run(s, es).current == s.current
  {
    NestedLinked(s, es, s.current, []);
  }

  function Starts(kinds: seq<Kind>): seq<Event> {
    seq(|kinds|, i requires 0 <= i < |kinds| => Start(kinds[i]))
  }

  function Ends(ids: seq<nat>): seq<Event> {
    seq(|ids|, i requires 0 <= i < |ids| => End(ids[i]))
  }

  /** Starting `kinds` in turn links them into a chain. */
  lemma {:induction false} RunStarts(s: State, kinds: seq<Kind>)
    requires Valid(s)
    ensures Runnable(s, Starts(kinds))
    ensures var t, m := Run(s, Starts(kinds)), |s.handlers|;
      && |t.handlers| == m + |kinds| && s.handlers <= t.handlers
      && (forall i :: 0 <= i < |kinds| ==>
            t.handlers[m + i] == Filter(kinds[i], if i == 0 then s.current else m + i - 1))
      && (forall x :: x in t.running <==> x in s.running || m <= x < m + |kinds|)
      && t.current == if kinds == [] then s.current else m + |kinds| - 1
    decreases |kinds|
  {
    if kinds != [] {
      StepKeepsValid(s, Start(kinds[0]));
      assert Starts(kinds)[1..] == Starts(kinds[1..]);
      RunStarts(Step(s, Start(kinds[0])), kinds[1..]);
      var t, m := Run(s, Starts(kinds)), |s.handlers|;
      forall i | 0 <= i < |kinds|
        ensures t.handlers[m + i] == Filter(kinds[i], if i == 0 then s.current else m + i - 1)
      {
        if i > 0 {
          assert kinds[i] == kinds[1..][i - 1];
        } else {
          assert t.handlers[m] == Step(s, Start(kinds[0])).handlers[m];
        }
      }
    }
  }

  /** Ending distinct running calls leaves the handler that the last of them captured. */
  lemma {:induction false} RunEnds(s: State, ids: seq<nat>)
    requires Valid(s) && forall i :: 0 <= i < |ids| ==> ids[i] in s.running
    requires forall i, j :: 0 <= i < j < |ids| ==> ids[i] != ids[j]
    ensures Runnable(s, Ends(ids))
    ensures var t := Run(s, Ends(ids));
      && t.handlers == s.handlers && t.running == s.running - (set i | 0 <= i < |ids| :: ids[i])
      && t.current == if ids == [] then s.current else s.handlers[ids[|ids| - 1]].previous
    decreases |ids|
  {
    if ids != [] {
      StepKeepsValid(s, End(ids[0]));
      var t := Step(s, End(ids[0]));
      assert Ends(ids)[1..] == Ends(ids[1..]);
      RunEnds(t, ids[1..]);
      assert (set i | 0 <= i < |ids| :: ids[i]) == {ids[0]} + (set i | 0 <= i < |ids[1..]| :: ids[1..][i]);
    }
  }

  // ---------- Any interleaving ----------

  /** A run up to an event is a run, and that event comes next. */
  lemma {:induction false} RunPrefix(s: State, es: seq<Event>, k: nat)
    requires Valid(s) && Runnable(s, es) && k <= |es|
    ensures Runnable(s, es[..k])
    ensures k < |es| ==> Enabled(Run(s, es[..k]), es[k]) && Runnable(s, es[..k + 1])
    ensures k < |es| ==> Run(s, es[..k + 1]) == Step(Run(s, es[..k]), es[k])
    decreases k
  {
    if k == 0 {
      if es != [] {
        StepKeepsValid(s, es[0]);
        assert es[..1][1..] == [];
      }
    } else {
      StepKeepsValid(s, es[0]);
      RunPrefix(Step(s, es[0]), es[1..], k - 1);
      assert es[..k][1..] == es[1..][..k - 1];
      assert k < |es| ==> es[..k + 1][1..] == es[1..][..k];
    }
  }

  /** The state a run is in before event `k`. */
  ghost function Before(s: State, es: seq<Event>, k: nat): (t: State)
    requires Valid(s) && Runnable(s, es) && k <= |es|
    ensures Valid(t)
  {
    RunPrefix(s, es, k);
    Run(s, es[..k])
  }

  lemma BeforeNext(s: State, es: seq<Event>, k: nat)
    requires Valid(s) && Runnable(s, es) && k < |es|
    ensures Enabled(Before(s, es, k), es[k])
    ensures Before(s, es, k + 1) == Step(Before(s, es, k), es[k])
  {
    RunPrefix(s, es, k);
  }

  lemma BeforeEnds(s: State, es: seq<Event>)
    requires Valid(s) && Runnable(s, es)
    ensures Before(s, es, 0) == s && Before(s, es, |es|) == Run(s, es)
  {
    assert es[..|es|] == es;
  }

  /** Handlers are only added, so what a call captured stays captured. */
  lemma {:induction false} HandlersGrow(s: State, es: seq<Event>, j: nat, k: nat)
    requires Valid(s) && Runnable(s, es) && j <= k <= |es|
    ensures Before(s, es, j).handlers <= Before(s, es, k).handlers
    decreases k - j
  {
    if j < k {
      HandlersGrow(s, es, j, k - 1);
      BeforeNext(s, es, k - 1);
    }
  }

  /** Event `n` ends the call that event `k` starts. */
  ghost predicate EndsCall(s: State, es: seq<Event>, k: nat, n: nat)
    requires Valid(s) && Runnable(s, es)
  {
    k < n < |es| && es[k].Start? && es[n] == End(|Before(s, es, k).handlers|)
  }

  /** The end of a call installs the handler found when that call started. */
  lemma EndReinstalls(s: State, es: seq<Event>, k: nat, n: nat)
    requires Valid(s) && Runnable(s, es) && EndsCall(s, es, k, n)
    ensures Before(s, es, n + 1).current == Before(s, es, k).current
    ensures Before(s, es, n + 1).handlers == Before(s, es, n).handlers
  {
    BeforeNext(s, es, k);
    BeforeNext(s, es, n);
    HandlersGrow(s, es, k + 1, n);
    var id := |Before(s, es, k).handlers|;
    assert Before(s, es, k + 1).handlers[id] == Before(s, es, n).handlers[id];
  }

  /** A running call that was not running at first was started on the way. */
  lemma {:induction false} StartOf(s: State, es: seq<Event>, id: nat, n: nat) returns (k: nat)
    requires Valid(s) && Runnable(s, es) && n <= |es|
    requires id in Before(s, es, n).running && id !in s.running
    ensures k < n && es[k].Start? && |Before(s, es, k).handlers| == id
    decreases n
  {
    BeforeEnds(s, es);
    if n > 0 {
      BeforeNext(s, es, n - 1);
      if id in Before(s, es, n - 1).running {
        k := StartOf(s, es, id, n - 1);
      } else {
        k := n - 1;
      }
    }
  }

  lemma {:induction false} LinesChangeNoHandler(s: State, es: seq<Event>, n: nat)
    requires Valid(s) && Runnable(s, es) && n <= |es| && forall j :: n <= j < |es| ==> es[j].Error?
    ensures var t, u := Before(s, es, n), Run(s, es);
      u.current == t.current && u.handlers == t.handlers && u.running == t.running
    decreases |es| - n
  {
    BeforeEnds(s, es);
    if n < |es| {
      BeforeNext(s, es, n);
      LinesChangeNoHandler(s, es, n + 1);
    }
  }

  lemma {:induction false} LastSwitch(es: seq<Event>) returns (n: nat)
    requires exists j :: 0 <= j < |es| && !es[j].Error?
    ensures n < |es| && !es[n].Error? && forall j :: n < j < |es| ==> es[j].Error?
  {
    n := |es| - 1;
    if es[n].Error? {
      n := LastSwitch(es[..n]);
    }
  }

  /** In every interleaving of calls that have all ended, what is installed in the end is what the
      last call to end had found. So the first handler is put back exactly when that call began
      under it. */
  lemma RestoresIffLastBeganUnderIt(s: State, es: seq<Event>) returns (k: nat, n: nat)
    requires Valid(s) && Runnable(s, es) && Run(s, es).running == s.running
    requires exists j :: 0 <= j < |es| && !es[j].Error?
    ensures EndsCall(s, es, k, n) && forall j :: n < j < |es| ==> es[j].Error?
    ensures Run(s, es).current == Before(s, es, k).current
    ensures Run(s, es).current == s.current <==> Before(s, es, k).current == s.current
  {
    n := LastSwitch(es);
    LinesChangeNoHandler(s, es, n + 1);
    BeforeEnds(s, es);
    BeforeNext(s, es, n);
    HandlersGrow(s, es, 0, n);
    assert |Before(s, es, n).handlers| !in s.running;
    assert es[n].End?;
    k := StartOf(s, es, es[n].id, n);
    EndReinstalls(s, es, k, n);
  }

  /** Calls that all start before any ends, as the ownership queries do, restore the handler
      they found exactly when the first to start is the last to end. Otherwise the handler left
      behind is the filter of a call that has ended. */
  lemma OverlapRestoresIffFirstEndsLast(s: State, kinds: seq<Kind>, order: seq<nat>)
    requires Valid(s) && order != []
    requires forall x :: x in order <==> |s.handlers| <= x < |s.handlers| + |kinds|
    requires forall i, j :: 0 <= i < j < |order| ==> order[i] != order[j]
    ensures Runnable(s, Starts(kinds) + Ends(order))
    ensures var t, last := Run(s, Starts(kinds) + Ends(order)), order[|order| - 1];
      && t.running == s.running
      && (t.current == s.current <==> last == |s.handlers|)
      && (t.current != s.current ==> t.current + 1 == last && t.current in order)
  {
    var m, last := |s.handlers|, order[|order| - 1];
    var k := GroupEnd(s, kinds, order);
    RunStarts(s, kinds[..k]);
    GroupEnded(s, kinds, order);
    assert k > 0 ==> |s.handlers| + k - 1 in order;
  }

  lemma GroupEnded(s: State, kinds: seq<Kind>, order: seq<nat>)
    requires Valid(s) && order != []
    requires forall x :: x in order <==> |s.handlers| <= x < |s.handlers| + |kinds|
    requires forall i, j :: 0 <= i < j < |order| ==> order[i] != order[j]
    ensures Runnable(s, Starts(kinds) + Ends(order)) && Run(s, Starts(kinds) + Ends(order)).running == s.running
  {
    var k := GroupRun(s, kinds, order);
    RunStarts(s, kinds);
    var t, ended := Run(s, Starts(kinds) + Ends(order)), set i | 0 <= i < |order| :: order[i];
    forall x
      ensures x in t.running <==> x in s.running
    {
      assert x in ended <==> x in order;
    }
  }

  /** They leave what was installed just before the last of them to end had started. */
  lemma GroupEnd(s: State, kinds: seq<Kind>, order: seq<nat>) returns (k: nat)
    requires Valid(s) && order != []
    requires forall x :: x in order ==> |s.handlers| <= x < |s.handlers| + |kinds|
    requires forall i, j :: 0 <= i < j < |order| ==> order[i] != order[j]
    ensures Runnable(s, Starts(kinds) + Ends(order)) && k < |kinds| && Runnable(s, Starts(kinds[..k]))
    ensures order[|order| - 1] == |s.handlers| + k
    ensures var t, v := Run(s, Starts(kinds) + Ends(order)), Run(s, Starts(kinds[..k]));
      t.current == v.current && v.handlers <= t.handlers
  {
    var es := Starts(kinds) + Ends(order);
    k := GroupRun(s, kinds, order);
    EndReinstalls(s, es, k, |es| - 1);
    BeforeEnds(s, es);
    HandlersGrow(s, es, k, |es|);
  }

  /** Calls that start together, and some of which then end: the last to end was the `k`th. */
  lemma GroupRun(s: State, kinds: seq<Kind>, order: seq<nat>) returns (k: nat)
    requires Valid(s) && order != []
    requires forall x :: x in order ==> |s.handlers| <= x < |s.handlers| + |kinds|
    requires forall i, j :: 0 <= i < j < |order| ==> order[i] != order[j]
    ensures Runnable(s, Starts(kinds)) && Runnable(s, Starts(kinds) + Ends(order))
    ensures var t, u := Run(s, Starts(kinds) + Ends(order)), Run(s, Starts(kinds));
      t.handlers == u.handlers && t.running == u.running - (set i | 0 <= i < |order| :: order[i])
    ensures k < |kinds| && order[|order| - 1] == |s.handlers| + k
    ensures Runnable(s, Starts(kinds[..k])) && (Starts(kinds) + Ends(order))[..k] == Starts(kinds[..k])
    ensures EndsCall(s, Starts(kinds) + Ends(order), k, |kinds| + |order| - 1)
  {
    var last := order[|order| - 1];
    assert last in order;
    k := last - |s.handlers|;
    RunStarts(s, kinds);
    RunStarts(s, kinds[..k]);
    var u := Run(s, Starts(kinds));
    forall i | 0 <= i < |order|
      ensures order[i] in u.running
    {
      assert order[i] in order;
    }
    RunEnds(u, order);
    RunConcat(s, Starts(kinds), Ends(order));
    assert (Starts(kinds) + Ends(order))[..k] == Starts(kinds[..k]);
  }

  // ---------- Detection ----------

  predicate Ordered(handlers: seq<Handler>) {
    forall i :: 0 < i < |handlers| ==> handlers[i].Filter? && handlers[i].previous < i
  }

  /** A call hears a line exactly when its filter is on the chain and matches it, and no newer
      filter on the chain does. Whether calls have ended plays no part. */
  lemma HearsIff(handlers: seq<Handler>, id: nat, args: Line, x: nat)
    requires Ordered(handlers) && id < |handlers| && 0 < x < |handlers|
    ensures forall y: nat :: y in Chain(handlers, id) ==> 0 < y < |handlers|
    ensures Destination(handlers, id, args) == x <==>
      && x in Chain(handlers, id) && Matches(handlers[x].kind, args)
      && forall y: nat :: y in Chain(handlers, id) && y > x ==> !Matches(handlers[y].kind, args)
  {
    DestinationInRange(handlers, id, args);
    DestinationIsNearestMatch(handlers, id, args);
  }

  lemma {:induction false} ChainStable(handlers: seq<Handler>, more: seq<Handler>, id: nat)
    requires handlers <= more && Ordered(more) && id < |handlers|
    ensures Ordered(handlers) && Chain(handlers, id) == Chain(more, id)
    decreases id
  {
    assert forall i :: 0 <= i < |handlers| ==> handlers[i] == more[i];
    if id > 0 {
      ChainStable(handlers, more, handlers[id].previous);
    }
  }

  /** Whether the filter of call `x` is on the installed chain. */
  ghost predicate InPlace(s: State, x: nat)
    requires Valid(s)
  {
    x in Chain(s.handlers, s.current)
  }

  /** Starts put their filters on the chain and take none off. */
  lemma {:induction false} StartsStayInPlace(s: State, es: seq<Event>, n: nat, x: nat)
    requires Valid(s) && Runnable(s, es) && n <= |es| && forall j :: n <= j < |es| ==> !es[j].End?
    ensures InPlace(Run(s, es), x) <==>
      InPlace(Before(s, es, n), x) || |Before(s, es, n).handlers| <= x < |Run(s, es).handlers|
    decreases |es| - n
  {
    BeforeEnds(s, es);
    if n < |es| {
      BeforeNext(s, es, n);
      StartsStayInPlace(s, es, n + 1, x);
      HandlersGrow(s, es, n + 1, |es|);
      StartOrLine(Before(s, es, n), es[n], x);
    }
  }

  lemma StartOrLine(s: State, e: Event, x: nat)
    requires Valid(s) && Enabled(s, e) && !e.End?
    ensures Valid(Step(s, e))
    ensures InPlace(Step(s, e), x) <==> InPlace(s, x) || |s.handlers| <= x < |Step(s, e).handlers|
  {
    StepKeepsValid(s, e);
    ChainStable(s.handlers, Step(s, e).handlers, s.current);
  }

  /** After any interleaving, a filter is in place exactly when it was in place as the last call to
      end started, or was installed since that call ended. */
  lemma InPlaceIff(s: State, es: seq<Event>, k: nat, n: nat, x: nat)
    requires Valid(s) && Runnable(s, es) && EndsCall(s, es, k, n)
    requires forall j :: n < j < |es| ==> !es[j].End?
    ensures InPlace(Run(s, es), x) <==>
      InPlace(Before(s, es, k), x) || |Before(s, es, n).handlers| <= x < |Run(s, es).handlers|
  {
    EndReinstalls(s, es, k, n);
    StartsStayInPlace(s, es, n + 1, x);
    HandlersGrow(s, es, k, n);
    ChainStable(Before(s, es, k).handlers, Before(s, es, n).handlers, Before(s, es, k).current);
  }

  lemma {:induction false} LastEnd(es: seq<Event>) returns (n: nat)
    requires exists j :: 0 <= j < |es| && es[j].End?
    ensures n < |es| && es[n].End? && forall j :: n < j < |es| ==> !es[j].End?
  {
    n := |es| - 1;
    if !es[n].End? {
      n := LastEnd(es[..n]);
    }
  }

  /** Every run in which a call ends has such a last call, so the condition decides for every
      interleaving whether a line reaches the filter of a call that is still running. */
  lemma RunningCallHearsIff(s: State, es: seq<Event>, args: Line, x: nat) returns (k: nat, n: nat)
    requires Valid(s) && s.running == {} && Runnable(s, es) && x in Run(s, es).running
    requires exists j :: 0 <= j < |es| && es[j].End?
    ensures EndsCall(s, es, k, n) && forall j :: n < j < |es| ==> !es[j].End?
    ensures var t := Run(s, es);
      && (forall y: nat :: InPlace(t, y) ==> 0 < y < |t.handlers|)
      && (Destination(t.handlers, t.current, args) == x <==>
            && (InPlace(Before(s, es, k), x) || x >= |Before(s, es, n).handlers|)
            && Matches(t.handlers[x].kind, args)
            && forall y: nat :: InPlace(t, y) && y > x ==> !Matches(t.handlers[y].kind, args))
  {
    n := LastEnd(es);
    BeforeEnds(s, es);
    BeforeNext(s, es, n);
    k := StartOf(s, es, es[n].id, n);
    InPlaceIff(s, es, k, n, x);
    HearsIff(Run(s, es).handlers, Run(s, es).current, args, x);
  }

  /** Of calls that start together, those in place once some have ended are the ones that started
      before the last to end, whether they have ended or not. */
  lemma OverlapInPlaceIff(s: State, kinds: seq<Kind>, order: seq<nat>, x: nat)
    requires Valid(s) && order != []
    requires forall y :: y in order ==> |s.handlers| <= y < |s.handlers| + |kinds|
    requires forall i, j :: 0 <= i < j < |order| ==> order[i] != order[j]
    ensures Runnable(s, Starts(kinds) + Ends(order))
    ensures InPlace(Run(s, Starts(kinds) + Ends(order)), x) <==>
      InPlace(s, x) || |s.handlers| <= x < order[|order| - 1]
  {
    var k := GroupEnd(s, kinds, order);
    StartsInPlace(s, kinds[..k], x);
    SameChain(Run(s, Starts(kinds[..k])), Run(s, Starts(kinds) + Ends(order)), x);
  }

  lemma SameChain(s: State, t: State, x: nat)
    requires Valid(s) && Valid(t) && s.handlers <= t.handlers && s.current == t.current
    ensures InPlace(s, x) <==> InPlace(t, x)
  {
    ChainStable(s.handlers, t.handlers, s.current);
  }

  lemma StartsInPlace(s: State, kinds: seq<Kind>, x: nat)
    requires Valid(s)
    ensures Runnable(s, Starts(kinds))
    ensures InPlace(Run(s, Starts(kinds)), x) <==> InPlace(s, x) || |s.handlers| <= x < |s.handlers| + |kinds|
  {
    RunStarts(s, kinds);
    StartsStayInPlace(s, Starts(kinds), 0, x);
    BeforeEnds(s, Starts(kinds));
  }

  /** Of calls that start together, one hears a line once some have ended exactly when it started
      before the last to end, matches the line, and no call that started between them does. */
  lemma OverlapHearsIff(s: State, kinds: seq<Kind>, order: seq<nat>, args: Line, x: nat)
    requires Valid(s) && order != [] && |s.handlers| <= x < |s.handlers| + |kinds|
    requires forall y :: y in order ==> |s.handlers| <= y < |s.handlers| + |kinds|
    requires forall i, j :: 0 <= i < j < |order| ==> order[i] != order[j]
    ensures Runnable(s, Starts(kinds) + Ends(order))
    ensures var t, m, last := Run(s, Starts(kinds) + Ends(order)), |s.handlers|, order[|order| - 1];
      Destination(t.handlers, t.current, args) == x <==>
        x < last <= m + |kinds| && Matches(kinds[x - m], args)
        && forall i :: x - m < i < last - m ==> !Matches(kinds[i], args)
  {
    var m, last := |s.handlers|, order[|order| - 1];
    var k := GroupRun(s, kinds, order);
    RunStarts(s, kinds);
    var t := Run(s, Starts(kinds) + Ends(order));
    HearsIff(t.handlers, t.current, args, x);
    forall y: nat ensures InPlace(t, y) <==> InPlace(s, y) || m <= y < last {
      OverlapInPlaceIff(s, kinds, order, y);
    }
    ChainDescends(s.handlers, s.current);
    forall y: nat | m <= y < |t.handlers| ensures t.handlers[y].Filter? && t.handlers[y].kind == kinds[y - m] {
      assert Run(s, Starts(kinds)).handlers[m + (y - m)].kind == kinds[y - m];
    }
    GroupNewest(s, t, kinds, last, args, x);
    assert InPlace(t, x) <==> x < last;
    assert t.handlers[x].kind == kinds[x - m];
  }

  /** The filters in place above call `x` are those of the group up to the last to end. */
  lemma GroupNewest(s: State, t: State, kinds: seq<Kind>, last: nat, args: Line, x: nat)
    requires Valid(s) && Valid(t) && |s.handlers| <= x < |t.handlers| == |s.handlers| + |kinds|
    requires |s.handlers| <= last <= |t.handlers|
    requires forall y: nat :: |s.handlers| <= y < |t.handlers| ==> t.handlers[y].kind == kinds[y - |s.handlers|]
    requires forall y: nat :: InPlace(t, y) <==> InPlace(s, y) || |s.handlers| <= y < last
    requires forall y: nat :: InPlace(s, y) ==> y < |s.handlers|
    ensures (forall y: nat :: InPlace(t, y) && y > x ==> !Matches(t.handlers[y].kind, args)) <==>
      (forall i :: x - |s.handlers| < i < last - |s.handlers| ==> !Matches(kinds[i], args))
  {
    var m := |s.handlers|;
    if forall y: nat :: InPlace(t, y) && y > x ==> !Matches(t.handlers[y].kind, args) {
      forall i | x - m < i < last - m ensures !Matches(kinds[i], args) {
        assert InPlace(t, m + i) && t.handlers[m + i].kind == kinds[m + i - m];
      }
    }
    if forall i :: x - m < i < last - m ==> !Matches(kinds[i], args) {
      forall y: nat | InPlace(t, y) && y > x ensures !Matches(t.handlers[y].kind, args) {
        assert t.handlers[y].kind == kinds[y - m];
      }
    }
  }

  // ---------- What lines do, over every run ----------

  predicate ExpiredAllowance(args: Line) {
    Contains(Joined(args), "NoAllowanceError") || Contains(Joined(args), "no allowance set")
  }

  /** No filter in place that is newer than `x` matches the line. */
  ghost predicate NoneNewerMatches(s: State, args: Line, x: nat)
    requires Valid(s)
  {
    forall y: nat :: InPlace(s, y) && y > x ==>
      y < |s.handlers| && s.handlers[y].Filter? && !Matches(s.handlers[y].kind, args)
  }

  ghost predicate IsSigning(s: State, x: nat) {
    0 < x < |s.handlers| && s.handlers[x].Filter? && s.handlers[x].kind.Signing?
  }

  /** Event `j` is a line about an expired allowance, and call `x` a signing call whose filter is
      then in place with no newer one there after the line. */
  ghost predicate AlarmsAt(s: State, es: seq<Event>, j: nat, x: nat)
    requires Valid(s) && Runnable(s, es)
  {
    && j < |es| && es[j].Error? && ExpiredAllowance(es[j].args)
    && var t := Before(s, es, j);
       IsSigning(t, x) && InPlace(t, x) && NoneNewerMatches(t, es[j].args, x)
  }

  ghost predicate AlarmedBy(s: State, es: seq<Event>, n: nat, x: nat)
    requires Valid(s) && Runnable(s, es)
  {
    exists j: nat :: j < n && AlarmsAt(s, es, j, x)
  }

  lemma NearestDecides(s: State, args: Line, x: nat)
    requires Valid(s) && 0 < x < |s.handlers|
    ensures Destination(s.handlers, s.current, args) == x <==>
      InPlace(s, x) && Matches(s.handlers[x].kind, args) && NoneNewerMatches(s, args, x)
  {
    HearsIff(s.handlers, s.current, args, x);
  }

  lemma ErrorAlarms(s: State, args: Line, x: nat)
    requires Valid(s)
    ensures x in Step(s, Error(args)).alarmed <==>
      || x in s.alarmed
      || (ExpiredAllowance(args) && IsSigning(s, x) && InPlace(s, x) && NoneNewerMatches(s, args, x))
  {
    DestinationInRange(s.handlers, s.current, args);
    if IsSigning(s, x) {
      NearestDecides(s, args, x);
    }
  }

  /** A line reaches the original console exactly when no filter in place matches it. */
  lemma ErrorPrints(s: State, args: Line)
    requires Valid(s)
    ensures Step(s, Error(args)).printed == s.printed + if NoneNewerMatches(s, args, 0) then [args] else []
  {
    DestinationInRange(s.handlers, s.current, args);
    DestinationIsNearestMatch(s.handlers, s.current, args);
    assert s.printed + [] == s.printed;
  }

  lemma AlarmedNext(s: State, es: seq<Event>, n: nat, x: nat)
    requires Valid(s) && Runnable(s, es) && n < |es|
    ensures AlarmedBy(s, es, n + 1, x) <==> AlarmedBy(s, es, n, x) || AlarmsAt(s, es, n, x)
  {
    if AlarmedBy(s, es, n + 1, x) {
      var j: nat :| j < n + 1 && AlarmsAt(s, es, j, x);
      assert j == n || AlarmedBy(s, es, n, x);
    }
  }

  lemma {:induction false} AlarmedBefore(s: State, es: seq<Event>, n: nat, x: nat)
    requires Valid(s) && Runnable(s, es) && n <= |es|
    ensures x in Before(s, es, n).alarmed <==> x in s.alarmed || AlarmedBy(s, es, n, x)
  {
    BeforeEnds(s, es);
    if n > 0 {
      AlarmedBefore(s, es, n - 1, x);
      AlarmedNext(s, es, n - 1, x);
      BeforeNext(s, es, n - 1);
      if es[n - 1].Error? {
        ErrorAlarms(Before(s, es, n - 1), es[n - 1].args, x);
      }
    }
  }

  /** Over every run, the calls told of an expired allowance are exactly the signing calls that were
      the newest in place to match such a line. */
  lemma AlarmedIff(s: State, es: seq<Event>, x: nat)
    requires Valid(s) && Runnable(s, es)
    ensures x in Run(s, es).alarmed <==> x in s.alarmed || exists j: nat :: j < |es| && AlarmsAt(s, es, j, x)
  {
    AlarmedBefore(s, es, |es|, x);
    BeforeEnds(s, es);
  }

  /** No registry query is ever alarmed. */
  lemma OnlySigningIsAlarmed(s: State, es: seq<Event>, x: nat)
    requires Valid(s) && Runnable(s, es) && (x in s.alarmed ==> IsSigning(s, x))
    ensures x in Run(s, es).alarmed ==> IsSigning(Run(s, es), x)
  {
    AlarmedIff(s, es, x);
    BeforeEnds(s, es);
    if x in s.alarmed {
      HandlersGrow(s, es, 0, |es|);
      assert Run(s, es).handlers[x] == s.handlers[x];
    } else if x in Run(s, es).alarmed {
      var j: nat :| j < |es| && AlarmsAt(s, es, j, x);
      HandlersGrow(s, es, j, |es|);
      assert Run(s, es).handlers[x] == Before(s, es, j).handlers[x];
    }
  }

  /** The lines of a run that no filter in place matches as they are written. */
  ghost function Unheard(s: State, es: seq<Event>): seq<Line>
    requires Valid(s) && Runnable(s, es)
    decreases |es|
  {
    if es == [] then []
    else
      StepKeepsValid(s, es[0]);
      (if es[0].Error? && NoneNewerMatches(s, es[0].args, 0) then [es[0].args] else [])
      + Unheard(Step(s, es[0]), es[1..])
  }

  /** Over every run, the original console prints exactly those, in order. */
  lemma {:induction false} PrintedAreUnheard(s: State, es: seq<Event>)
    requires Valid(s) && Runnable(s, es)
    ensures Run(s, es).printed == s.printed + Unheard(s, es)
    decreases |es|
  {
    if es != [] {
      var t := Step(s, es[0]);
      StepKeepsValid(s, es[0]);
      PrintedAreUnheard(t, es[1..]);
      var head := if es[0].Error? && NoneNewerMatches(s, es[0].args, 0) then [es[0].args] else [];
      if es[0].Error? {
        ErrorPrints(s, es[0].args);
      }
      assert t.printed == s.printed + head;
      Reassociate(s.printed, head, Unheard(t, es[1..]));
    }
  }

  /** Every handler that a run adds is the filter of a call it starts: of that call's kind, and
      forwarding to the handler found at the start. */
  lemma {:induction false} HandlersAreStarts(s: State, es: seq<Event>, x: nat, n: nat) returns (k: nat)
    requires Valid(s) && Runnable(s, es) && n <= |es| && |s.handlers| <= x < |Before(s, es, n).handlers|
    ensures k < n && es[k].Start? && |Before(s, es, k).handlers| == x
    ensures Before(s, es, n).handlers[x] == Filter(es[k].kind, Before(s, es, k).current)
    decreases n
  {
    BeforeEnds(s, es);
    BeforeNext(s, es, n - 1);
    if x < |Before(s, es, n - 1).handlers| {
      k := HandlersAreStarts(s, es, x, n - 1);
    } else {
      k := n - 1;
    }
  }

  /** Two queries that overlap: when the older ends first, the newer is no longer in place, and an
      expired allowance it should hear is printed. */
  lemma OverlapCanMissAlarm()
    ensures var es := Starts([Registry, Signing]) + Ends([1]);
      && Runnable(INITIAL, es) && Run(INITIAL, es).running == {2}
      && Matches(Signing, ["NoAllowanceError"]) && !InPlace(Run(INITIAL, es), 2)
      && Destination(Run(INITIAL, es).handlers, Run(INITIAL, es).current, ["NoAllowanceError"]) == 0
  {
    var kinds := [Registry, Signing];
    assert Joined(["NoAllowanceError"]) == "NoAllowanceError";
    assert Contains("NoAllowanceError", "NoAllowanceError");
    var es := Starts(kinds) + Ends([1]);
    var k := GroupRun(INITIAL, kinds, [1]);
    EndReinstalls(INITIAL, es, k, 2);
    BeforeEnds(INITIAL, es);
    RunStarts(INITIAL, kinds);
    OverlapInPlaceIff(INITIAL, kinds, [1], 2);
  }

  /** Linked calls get newer, from the handler they began over. */
  lemma LinkedAscends(handlers: seq<Handler>, current: nat, base: nat, open: seq<nat>)
    requires Ordered(handlers) && Linked(handlers, current, base, open)
    ensures forall i, j :: 0 <= i < j < |open| ==> open[i] < open[j]
  {
    forall j | 0 < j < |open| ensures open[j - 1] < open[j] {
      assert handlers[open[j]].previous == Below(base, open, j);
    }
    Ascends(open);
  }

  lemma {:induction false} Ascends(open: seq<nat>)
    requires forall j :: 0 < j < |open| ==> open[j - 1] < open[j]
    ensures forall i, j :: 0 <= i < j < |open| ==> open[i] < open[j]
  {
    if |open| > 1 {
      var n := |open| - 1;
      assert forall j :: 0 <= j < n ==> open[..n][j] == open[j];
      Ascends(open[..n]);
      assert open[n - 1] < open[n];
      assert forall i :: 0 <= i < n ==> open[i] == open[..n][i] <= open[..n][n - 1];
    }
  }

  /** The chain over linked calls: the open ones, newest first, and then what is below. */
  lemma {:induction false} LinkedChain(handlers: seq<Handler>, current: nat, base: nat, open: seq<nat>, x: nat)
    requires Ordered(handlers) && current < |handlers| && base < |handlers| && Linked(handlers, current, base, open)
    ensures x in Chain(handlers, current) <==> x in open || x in Chain(handlers, base)
    decreases |open|, 1
  {
    if open != [] {
      LinkedTop(handlers, current, base, open);
      LinkedChainBelow(handlers, current, base, open, x);
      InSnoc(open, current, x);
      ChainStep(handlers, current, x);
    }
  }

  lemma InSnoc(open: seq<nat>, last: nat, x: nat)
    requires open != [] && last == open[|open| - 1]
    ensures x in open <==> x in open[..|open| - 1] || x == last
  {
    assert open == open[..|open| - 1] + [last];
  }

  lemma ChainStep(handlers: seq<Handler>, id: nat, x: nat)
    requires Ordered(handlers) && 0 < id < |handlers|
    ensures x in Chain(handlers, id) <==> x == id || x in Chain(handlers, handlers[id].previous)
  {
  }

  lemma {:induction false} LinkedChainBelow(handlers: seq<Handler>, current: nat, base: nat, open: seq<nat>, x: nat)
    requires Ordered(handlers) && 0 < current < |handlers| && base < |handlers| && open != []
    requires Linked(handlers, current, base, open) && current == open[|open| - 1]
    ensures x in Chain(handlers, handlers[current].previous) <==> x in open[..|open| - 1] || x in Chain(handlers, base)
    decreases |open|, 0
  {
    LinkedFront(handlers, current, base, open);
    LinkedChain(handlers, handlers[current].previous, base, open[..|open| - 1], x);
  }

  lemma LinkedTop(handlers: seq<Handler>, current: nat, base: nat, open: seq<nat>)
    requires Linked(handlers, current, base, open) && open != []
    ensures current == open[|open| - 1] && 0 < current < |handlers|
  {
  }

  /** While calls are well bracketed, an open call hears a line exactly when its filter matches it
      and no newer open call's does. Of two open signing calls only the newer is told. */
  lemma NestedCallHearsIff(s: State, es: seq<Event>, args: Line, j: nat)
    requires Valid(s) && Runnable(s, es) && Nested(s, es, []) && j < |OpenAfter(s, es, [])|
    ensures var t, open := Run(s, es), OpenAfter(s, es, []);
      && (forall k :: 0 <= k < |open| ==> 0 < open[k] < |t.handlers|)
      && (Destination(t.handlers, t.current, args) == open[j] <==>
            && Matches(t.handlers[open[j]].kind, args)
            && forall k :: j < k < |open| ==> !Matches(t.handlers[open[k]].kind, args))
  {
    NestedLinked(s, es, s.current, []);
    var t, open := Run(s, es), OpenAfter(s, es, []);
    BeforeEnds(s, es);
    HandlersGrow(s, es, 0, |es|);
    LinkedHears(t.handlers, t.current, s.current, open, args, j);
  }

  lemma LinkedHears(handlers: seq<Handler>, current: nat, base: nat, open: seq<nat>, args: Line, j: nat)
    requires Ordered(handlers) && current < |handlers| && base < |handlers| && Linked(handlers, current, base, open)
    requires j < |open|
    ensures Destination(handlers, current, args) == open[j] <==>
      && Matches(handlers[open[j]].kind, args)
      && forall k :: j < k < |open| ==> !Matches(handlers[open[k]].kind, args)
  {
    HearsIff(handlers, current, args, open[j]);
    ChainDescends(handlers, base);
    forall y: nat ensures y in Chain(handlers, current) <==> y in open || y in Chain(handlers, base) {
      LinkedChain(handlers, current, base, open, y);
    }
    LinkedAscends(handlers, current, base, open);
    assert handlers[open[0]].previous == Below(base, open, 0);
    NewestOpen(Chain(handlers, current), base, open, j,
               (y: nat) => y < |handlers| && handlers[y].Filter? && Matches(handlers[y].kind, args));
  }

  /** What is on the chain above an open call is the newer open calls. */
  lemma NewestOpen(chain: seq<nat>, base: nat, open: seq<nat>, j: nat, hits: nat -> bool)
    requires j < |open| && base < open[0] && forall i, k :: 0 <= i < k < |open| ==> open[i] < open[k]
    requires forall y: nat :: y in open ==> y in chain
    requires forall y: nat :: y in chain ==> y in open || y <= base
    ensures (forall y: nat :: y in chain && y > open[j] ==> !hits(y)) <==>
      (forall k :: j < k < |open| ==> !hits(open[k]))
  {
    assert forall k :: j < k < |open| ==> open[k] in chain && open[k] > open[j];
    assert forall k :: 0 <= k <= j ==> open[k] <= open[j];
    assert base < open[j];
  }

  // ---------- The console object ----------

  /** The global console. `handlers` is the heap of handler closures; `error` is the slot
      that starts and ends overwrite. */
  class Console {
    var handlers: seq<Handler>
    var error: nat
    var running: set<nat>
    var alarmed: set<nat>
    var printed: seq<Line>

    ghost function Now(): State
      reads this
    {
      State(handlers, error, running, alarmed, printed)
    }

    constructor ()
      ensures Now() == INITIAL && Valid(Now())
    {
      handlers, error, running, alarmed, printed := [Original], 0, {}, {}, [];
    }

    /** Captures the installed handler and installs a filter that forwards to it. */
    method Intercept(kind: Kind) returns (id: nat)
      requires Valid(Now())
      modifies this
      ensures Valid(Now()) && id == |old(handlers)|
      ensures Now() == Step(old(Now()), Start(kind))
    {
      var previous := error;
      id := |handlers|;
      handlers := handlers + [Filter(kind, previous)];
      error := id;
      running := running + {id};
    }

    /** Puts back what the call captured, whatever is installed by now. */
    method Restore(id: nat)
      requires Valid(Now()) && id in running
      modifies this
      ensures Valid(Now()) && Now() == Step(old(Now()), End(id))
    {
      error := handlers[id].previous;
      running := running - {id};
    }

    /** Follows the closures from the installed one until one keeps the line. */
    method Error(args: Line)
      requires Valid(Now())
      modifies this
      ensures Valid(Now()) && Now() == Step(old(Now()), Event.Error(args))
    {
      var id: nat := error;
      while id != 0 && !Matches(handlers[id].kind, args)
        invariant id < |handlers|
        invariant Destination(handlers, id, args) == Destination(handlers, error, args)
        decreases id
      {
        id := handlers[id].previous;
      }
      if id == 0 {
        printed := printed + [args];
      } else if handlers[id].kind == Signing {
        alarmed := alarmed + {id};
      }
    }
  }
}
