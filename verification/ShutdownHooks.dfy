/** Cleanup hooks on the way out (src/utils/process-guard.ts, src/commands/contract.ts,
    src/commands/deploy-all/index.ts). */
module ShutdownHooks {
  const FALLBACK_MS := 3000

  /** A registered callback: one whose body is guarded to run once, or a plain one. */
  datatype Hook = Guarded(guarded: nat) | Plain(plain: nat)

  /** One run of the cleanup loop. `called` lists the hooks it has called, in order. */
  datatype Loop = Loop(code: nat, deadline: nat, next: nat, awaiting: bool, called: seq<Hook>)

  /** How the process ends: a loop came to the end of the list, left it early, or was overtaken by
      a fallback timer. */
  datatype Exit =
    | Running
    | Finished(finisher: nat, status: nat, when: nat)
    | Abandoned(leaver: nat, result: nat, moment: nat)
    | Forced(forcer: nat, code: nat, at: nat)

  /** How an awaited hook settles. The loop's catch block describes what was thrown for a warning;
      for some values, such as an object without a prototype, describing throws in turn. */
  datatype Outcome = Returned | Threw(describable: bool)

  /** `ran` and `bodies` record the hook bodies that have run, as a set and in order. */
  datatype State = State(
    clock: nat, hooks: seq<Hook>, loops: seq<Loop>, ran: set<Hook>, bodies: seq<Hook>,
    warnings: nat, exit: Exit)

  const START := State(0, [], [], {}, [], 0, Running)

  /** `Signal`: whatever starts a loop, be it a signal or an unhandled rejection. */
  datatype Event =
    | Register(hook: Hook)
    | Signal(code: nat)
    | Advance(mover: nat)
    | Settle(settled: nat, outcome: Outcome)
    | Fallback(late: nat)
    | Finally(own: Hook)
    | Wait(ms: nat)

  /** Calling a hook: a guarded body runs the first time only. */
  function CallHook(s: State, h: Hook): State {
    if h.Guarded? && h in s.ran then s else s.(ran := s.ran + {h}, bodies := s.bodies + [h])
  }

  /** A loop that is not waiting calls the next hook of the live list, or is through. */
  function AdvanceLoop(s: State, l: nat): State
    requires l < |s.loops|
  {
    var loop := s.loops[l];
    if loop.next < |s.hooks| then
      var h := s.hooks[loop.next];
      CallHook(s, h).(loops := s.loops[l := loop.(next := loop.next + 1, awaiting := true, called := loop.called + [h])])
    else s.(exit := Finished(l, loop.code, s.clock))
  }

  /** A loop that is waiting goes on, after a warning if the hook threw. What its catch block throws
      leaves the loop, and the `finally` around it exits. */
  function SettleLoop(s: State, l: nat, outcome: Outcome): State
    requires l < |s.loops|
  {
    var loop := s.loops[l];
    var next := s.(loops := s.loops[l := loop.(awaiting := false)]);
    match outcome
    case Returned => next
    case Threw(true) => next.(warnings := s.warnings + 1)
    case Threw(false) => s.(exit := Abandoned(l, loop.code, s.clock))
  }

  /** Timers that are due fire before the clock moves on. */
  predicate MayWait(s: State, ms: nat) {
    forall l :: 0 <= l < |s.loops| ==> s.clock + ms <= s.loops[l].deadline
  }

  function Step(s: State, e: Event): State {
    if s.exit != Running then s
    else match e
      case Register(h) => s.(hooks := s.hooks + [h])
      case Signal(code) => s.(loops := s.loops + [Loop(code, s.clock + FALLBACK_MS, 0, false, [])])
      case Advance(l) =>
        if l < |s.loops| && !s.loops[l].awaiting then AdvanceLoop(s, l) else s
      case Settle(l, outcome) =>
        if l < |s.loops| && s.loops[l].awaiting then SettleLoop(s, l, outcome) else s
      case Fallback(l) =>
        if l < |s.loops| && s.clock >= s.loops[l].deadline then s.(exit := Forced(l, s.loops[l].code, s.clock)) else s
      case Finally(h) => CallHook(s, h)
      case Wait(ms) => if MayWait(s, ms) then s.(clock := s.clock + ms) else s
  }

  function Run(s: State, events: seq<Event>): State {
    if events == [] then s else Step(Run(s, events[..|events| - 1]), events[|events| - 1])
  }

  // ---------- What every run keeps ----------

  function Times(bodies: seq<Hook>, h: Hook): (n: nat)
    ensures n > 0 <==> h in bodies
  {
    if bodies == [] then 0
    else
      assert bodies == bodies[..|bodies| - 1] + [bodies[|bodies| - 1]];
      Times(bodies[..|bodies| - 1], h) + if bodies[|bodies| - 1] == h then 1 else 0
  }

  lemma TimesSnoc(bodies: seq<Hook>, b: Hook, h: Hook)
    ensures Times(bodies + [b], h) == Times(bodies, h) + if b == h then 1 else 0
  {
    assert (bodies + [b])[..|bodies|] == bodies;
  }

  ghost predicate OncePerGuard(s: State) {
    forall h: Hook :: (h in s.ran <==> h in s.bodies) && (h.Guarded? ==> Times(s.bodies, h) <= 1)
  }

  predicate LoopInOrder(s: State, loop: Loop) {
    && loop.next <= |s.hooks|
    && loop.called == s.hooks[..loop.next]
    && forall h :: h in loop.called ==> h in s.ran
  }

  predicate LoopsInOrder(s: State) {
    forall l :: 0 <= l < |s.loops| ==> LoopInOrder(s, s.loops[l])
  }

  predicate InTime(s: State) {
    match s.exit
    case Running => forall l :: 0 <= l < |s.loops| ==> s.clock <= s.loops[l].deadline
    case Finished(l, code, at) =>
      l < |s.loops| && code == s.loops[l].code && s.loops[l].next >= |s.hooks| && at == s.clock <= s.loops[0].deadline
    case Abandoned(l, code, at) =>
      l < |s.loops| && code == s.loops[l].code && at == s.clock <= s.loops[0].deadline
    case Forced(l, code, at) =>
      l < |s.loops| && code == s.loops[l].code && at == s.clock <= s.loops[0].deadline
  }

  lemma CallKeepsOnce(s: State, h: Hook)
    requires OncePerGuard(s)
    ensures OncePerGuard(CallHook(s, h)) && h in CallHook(s, h).ran
    ensures s.ran <= CallHook(s, h).ran
  {
    forall g: Hook ensures Times(s.bodies + [h], g) == Times(s.bodies, g) + if h == g then 1 else 0 {
      TimesSnoc(s.bodies, h, g);
    }
  }

  lemma StepKeepsOnce(s: State, e: Event)
    requires OncePerGuard(s)
    ensures OncePerGuard(Step(s, e)) && s.ran <= Step(s, e).ran
  {
    match e
    case Advance(l) =>
      if s.exit == Running && l < |s.loops| && s.loops[l].next < |s.hooks| {
        CallKeepsOnce(s, s.hooks[s.loops[l].next]);
      }
    case Finally(h) => CallKeepsOnce(s, h);
    case _ =>
  }

  lemma StepKeepsOrder(s: State, e: Event)
    requires LoopsInOrder(s)
    ensures LoopsInOrder(Step(s, e))
  {
    var t := Step(s, e);
    forall l | 0 <= l < |t.loops| ensures LoopInOrder(t, t.loops[l]) {
      if l < |s.loops| {
        assert LoopInOrder(s, s.loops[l]);
      }
    }
  }

  lemma StepKeepsTime(s: State, e: Event)
    requires InTime(s)
    ensures InTime(Step(s, e))
  {
  }

  lemma {:induction false} RunKeeps(events: seq<Event>)
    ensures var t := Run(START, events); OncePerGuard(t) && LoopsInOrder(t) && InTime(t)
  {
    if events != [] {
      var s := Run(START, events[..|events| - 1]);
      RunKeeps(events[..|events| - 1]);
      StepKeepsOnce(s, events[|events| - 1]);
      StepKeepsOrder(s, events[|events| - 1]);
      StepKeepsTime(s, events[|events| - 1]);
    }
  }

  /** However loops, repeated signals and a command's own `finally` interleave, a guarded body runs
      at most once. */
  lemma AtMostOnce(events: seq<Event>, h: Hook)
    requires h.Guarded?
    ensures Times(Run(START, events).bodies, h) <= 1
  {
    RunKeeps(events);
  }

  /** When a loop gets to the end before any fallback, it has called every registered hook, also
      those registered on the way, once each and in order of registration, and every body has run.
      The exit code is the one of its own signal. */
  lemma FinishedCalledAll(events: seq<Event>)
    ensures var t := Run(START, events);
      t.exit.Finished? ==>
        && t.exit.finisher < |t.loops|
        && var loop := t.loops[t.exit.finisher];
           loop.called == t.hooks && t.exit.status == loop.code && forall h :: h in t.hooks ==> h in t.bodies
  {
    RunKeeps(events);
    var t := Run(START, events);
    if t.exit.Finished? {
      assert LoopInOrder(t, t.loops[t.exit.finisher]);
    }
  }

  /** The grace period counts from the first signal. */
  lemma {:induction false} DeadlineOfFirstSignal(events: seq<Event>, i: nat)
    requires i < |events| && events[i].Signal?
    requires forall j :: 0 <= j < i ==> !events[j].Signal?
    requires Run(START, events).loops != []
    ensures Run(START, events).loops[0].deadline == Run(START, events[..i]).clock + FALLBACK_MS
    ensures Run(START, events).loops[0].code == events[i].code
  {
    var front := events[..|events| - 1];
    if i == |front| {
      NoSignalNoLoop(front);
    } else {
      FirstLoopStays(Run(START, front), events[|events| - 1]);
      assert front[..i] == events[..i];
      if Run(START, front).loops != [] {
        DeadlineOfFirstSignal(front, i);
      } else {
        SignalStartsLoop(front, i);
      }
    }
  }

  /** With timers that fire when due, the process is gone `FALLBACK_MS` after the first signal,
      whatever hooks hang and whatever else comes: no later moment is reached, an exit is not later,
      and at that moment time cannot pass before the fallback exits with the first signal's code. */
  lemma ExitWithinGrace(events: seq<Event>, i: nat, ms: nat)
    requires i < |events| && events[i].Signal?
    requires forall j :: 0 <= j < i ==> !events[j].Signal?
    ensures var t, end := Run(START, events), Run(START, events[..i]).clock + FALLBACK_MS;
      && t.clock <= end
      && (t.exit.Finished? ==> t.exit.when <= end) && (t.exit.Forced? ==> t.exit.at <= end)
      && (t.exit.Abandoned? ==> t.exit.moment <= end)
      && (t.exit == Running && t.clock == end && ms > 0 ==>
            Step(t, Wait(ms)) == t && Step(t, Fallback(0)).exit == Forced(0, events[i].code, end))
  {
    RunKeeps(events);
    SignalStartsLoop(events, i);
    DeadlineOfFirstSignal(events, i);
    ByDeadline(Run(START, events), ms);
  }

  lemma ByDeadline(t: State, ms: nat)
    requires InTime(t) && t.loops != []
    ensures var end := t.loops[0].deadline;
      && t.clock <= end
      && (t.exit.Finished? ==> t.exit.when <= end) && (t.exit.Forced? ==> t.exit.at <= end)
      && (t.exit.Abandoned? ==> t.exit.moment <= end)
      && (t.exit == Running && t.clock == end && ms > 0 ==>
            Step(t, Wait(ms)) == t && Step(t, Fallback(0)).exit == Forced(0, t.loops[0].code, end))
  {
  }

  lemma FirstLoopStays(s: State, e: Event)
    ensures s.loops != [] ==>
      var t := Step(s, e);
      t.loops != [] && t.loops[0].deadline == s.loops[0].deadline && t.loops[0].code == s.loops[0].code
  {
  }

  lemma {:induction false} NoSignalNoLoop(events: seq<Event>)
    requires forall j :: 0 <= j < |events| ==> !events[j].Signal?
    ensures Run(START, events).loops == [] && Run(START, events).exit == Running
  {
    if events != [] {
      NoSignalNoLoop(events[..|events| - 1]);
    }
  }

  lemma {:induction false} SignalStartsLoop(events: seq<Event>, i: nat)
    requires i < |events| && events[i].Signal?
    requires forall j :: 0 <= j < i ==> !events[j].Signal?
    ensures Run(START, events).loops != []
  {
    var front := events[..|events| - 1];
    if i == |front| {
      NoSignalNoLoop(front);
    } else {
      SignalStartsLoop(front, i);
      FirstLoopStays(Run(START, front), events[|events| - 1]);
    }
  }

  /** The fallback does come: a hook that never settles holds its loop until three seconds after the
      signal, and then the process is gone with the signal's code. */
  lemma HangingHookIsForced(hook: Hook, code: nat)
    ensures var events := [Register(hook), Signal(code), Advance(0), Wait(FALLBACK_MS), Fallback(0)];
      var t := Run(START, events);
      t.exit == Forced(0, code, FALLBACK_MS) && t.bodies == [hook]
  {
    var held := State(0, [hook], [Loop(code, FALLBACK_MS, 1, true, [hook])], {hook}, [hook], 0, Running);
    HookIsHeld(hook, code);
    var events := [Register(hook)] + [Signal(code)] + [Advance(0)];
    var late := held.(clock := FALLBACK_MS);
    RunSnoc(START, events, Wait(FALLBACK_MS));
    assert Step(held, Wait(FALLBACK_MS)) == late;
    RunSnoc(START, events + [Wait(FALLBACK_MS)], Fallback(0));
    assert events + [Wait(FALLBACK_MS)] + [Fallback(0)]
      == [Register(hook), Signal(code), Advance(0), Wait(FALLBACK_MS), Fallback(0)];
  }

  lemma HookIsHeld(hook: Hook, code: nat)
    ensures Run(START, [Register(hook)] + [Signal(code)] + [Advance(0)]) ==
      State(0, [hook], [Loop(code, FALLBACK_MS, 1, true, [hook])], {hook}, [hook], 0, Running)
  {
    var a := [Register(hook)];
    RunSnoc(START, [], Register(hook));
    assert [] + a == a && [] + [hook] == [hook];
    RunSnoc(START, a, Signal(code));
    RunSnoc(START, a + [Signal(code)], Advance(0));
    assert Run(START, a) == START.(hooks := [hook]);
    assert [] + [Loop(code, FALLBACK_MS, 0, false, [])] == [Loop(code, FALLBACK_MS, 0, false, [])];
  }

  // ---------- Throwing hooks ----------

  /** The same event, with no hook throwing. */
  function Calm(e: Event): Event {
    if e.Settle? then e.(outcome := Returned) else e
  }

  function CalmAll(events: seq<Event>): (calm: seq<Event>)
    ensures |calm| == |events| && forall i :: 0 <= i < |events| ==> calm[i] == Calm(events[i])
  {
    seq(|events|, i requires 0 <= i < |events| => Calm(events[i]))
  }

  lemma StepIsCalm(s: State, t: State, e: Event)
    requires t == s.(warnings := t.warnings) && (!s.exit.Abandoned? ==> !Step(s, e).exit.Abandoned?)
    ensures Step(t, Calm(e)) == Step(s, e).(warnings := t.warnings)
  {
  }

  lemma {:induction false} CalmUnlessAbandoned(events: seq<Event>)
    requires !Run(START, events).exit.Abandoned?
    ensures Run(START, CalmAll(events)) == Run(START, events).(warnings := 0)
  {
    if events != [] {
      var front := events[..|events| - 1];
      CalmUnlessAbandoned(front);
      assert CalmAll(events)[..|events| - 1] == CalmAll(front);
      StepIsCalm(Run(START, front), Run(START, CalmAll(front)), events[|events| - 1]);
    }
  }

  lemma {:induction false} CalmIsNotAbandoned(events: seq<Event>)
    requires forall i :: 0 <= i < |events| && events[i].Settle? ==> events[i].outcome == Returned
    ensures !Run(START, events).exit.Abandoned?
  {
    if events != [] {
      CalmIsNotAbandoned(events[..|events| - 1]);
    }
  }

  /** A throwing hook changes nothing but the warnings exactly as long as no loop is left for a
      value that cannot be described: then the run is the run in which no hook throws. */
  lemma ThrowsAreHarmlessIff(events: seq<Event>)
    ensures Run(START, CalmAll(events)) == Run(START, events).(warnings := 0) <==> !Run(START, events).exit.Abandoned?
  {
    CalmIsNotAbandoned(CalmAll(events));
    if !Run(START, events).exit.Abandoned? {
      CalmUnlessAbandoned(events);
    }
  }

  /** At event `i` a hook that a loop awaits throws what cannot be described. */
  predicate ThrowsUndescribed(events: seq<Event>, i: nat) {
    && i < |events| && events[i].Settle? && events[i].outcome == Threw(false)
    && var s := Run(START, events[..i]);
       s.exit == Running && events[i].settled < |s.loops| && s.loops[events[i].settled].awaiting
  }

  /** That is the only way a loop leaves the list before its end. */
  lemma {:induction false} AbandonedIff(events: seq<Event>)
    ensures Run(START, events).exit.Abandoned? <==> UndescribedThrown(events)
  {
    if events != [] {
      var front, last := events[..|events| - 1], events[|events| - 1];
      AbandonedIff(front);
      assert events == front + [last] && events[..|front|] == front;
      ThrowsUndescribedSnoc(front, last);
      AbandonsNow(Run(START, front), last);
    }
  }

  /** Some awaited hook throws such a value during the run. */
  ghost predicate UndescribedThrown(events: seq<Event>) {
    exists i: nat :: ThrowsUndescribed(events, i)
  }

  lemma ThrowsUndescribedSnoc(front: seq<Event>, last: Event)
    ensures UndescribedThrown(front + [last]) <==>
      UndescribedThrown(front) || ThrowsUndescribed(front + [last], |front|)
  {
    var events := front + [last];
    forall i: nat | i < |front| ensures ThrowsUndescribed(events, i) <==> ThrowsUndescribed(front, i) {
      assert front[..i] == events[..i];
    }
    if UndescribedThrown(events) {
      var i: nat :| ThrowsUndescribed(events, i);
      assert i < |front| ==> ThrowsUndescribed(front, i);
    }
    if UndescribedThrown(front) {
      var i: nat :| ThrowsUndescribed(front, i);
      assert ThrowsUndescribed(events, i);
    }
  }

  lemma AbandonsNow(s: State, e: Event)
    ensures Step(s, e).exit.Abandoned? <==>
      || s.exit.Abandoned?
      || (&& s.exit == Running && e.Settle? && e.outcome == Threw(false)
          && e.settled < |s.loops| && s.loops[e.settled].awaiting)
  {
  }

  /** A loop that leaves early has called the hooks up to the one that threw, in order, and no
      other: unless that was the last one registered, some are never called by it. */
  lemma AbandonedCalledSome(events: seq<Event>)
    ensures var t := Run(START, events);
      t.exit.Abandoned? ==>
        && t.exit.leaver < |t.loops|
        && var loop := t.loops[t.exit.leaver];
           loop.next <= |t.hooks| && loop.called == t.hooks[..loop.next] && t.exit.result == loop.code
           && (loop.called == t.hooks <==> loop.next == |t.hooks|)
  {
    RunKeeps(events);
    var t := Run(START, events);
    if t.exit.Abandoned? {
      assert LoopInOrder(t, t.loops[t.exit.leaver]);
    }
  }

  /** Two hooks, of which the first throws such a value: the second never runs. */
  lemma UndescribedThrowSkipsHook(code: nat)
    ensures var events := [Register(Plain(0)), Register(Guarded(1))] + LoopEvents(code, 0, [Threw(false)]);
      var t := Run(START, events);
      t.exit == Abandoned(0, code, 0) && t.hooks == [Plain(0), Guarded(1)] && t.bodies == [Plain(0)]
  {
    var two, s := [Register(Plain(0)), Register(Guarded(1))], START.(hooks := [Plain(0), Guarded(1)]);
    RunSnoc(START, [], Register(Plain(0)));
    RunSnoc(START, [Register(Plain(0))], Register(Guarded(1)));
    assert [] + [Register(Plain(0))] == [Register(Plain(0))] && [Register(Plain(0))] + [Register(Guarded(1))] == two;
    assert [Plain(0)] + [Guarded(1)] == [Plain(0), Guarded(1)] && [] + [Plain(0)] == [Plain(0)];
    assert Run(START, two) == s;
    var rest := LoopEvents(code, 0, [Threw(false)]);
    assert [Threw(false)][..0] == [] && LoopEvents(code, 0, []) == [Signal(code)];
    assert rest == [Signal(code)] + [Advance(0)] + [Settle(0, Threw(false))];
    RunSnoc(START, two, Signal(code));
    RunSnoc(START, two + [Signal(code)], Advance(0));
    RunSnoc(START, two + [Signal(code)] + [Advance(0)], Settle(0, Threw(false)));
    assert two + rest == two + [Signal(code)] + [Advance(0)] + [Settle(0, Threw(false))];
  }

  // ---------- The code ----------

  class ProcessGuard {
    var clock: nat
    var hooks: seq<Hook>
    var loops: seq<Loop>
    var ran: set<Hook>
    var bodies: seq<Hook>
    var warnings: nat
    var exit: Exit

    constructor ()
      ensures Now() == START
    {
      clock, hooks, loops, ran, bodies, warnings, exit := 0, [], [], {}, [], 0, Running;
    }

    function Now(): State
      reads this
    {
      State(clock, hooks, loops, ran, bodies, warnings, exit)
    }

    method OnProcessShutdown(hook: Hook)
      requires exit == Running
      modifies this
      ensures Now() == Step(old(Now()), Register(hook))
    {
      hooks := hooks + [hook];
    }

    /** The once-guard around a body: its flag is set before the body runs. */
    method Invoke(hook: Hook)
      modifies this`ran, this`bodies
      ensures Now() == CallHook(old(Now()), hook)
    {
      if hook.Guarded? && hook in ran {
        return;
      }
      ran := ran + {hook};
      bodies := bodies + [hook];
    }

    method RunFinally(hook: Hook)
      requires exit == Running
      modifies this
      ensures Now() == Step(old(Now()), Finally(hook))
    {
      Invoke(hook);
    }

    /** The loop: the list is walked by its live length, and a throwing hook leaves a warning. It
        comes to the end, or leaves at the first hook whose thrown value cannot be described. */
    method CallHooks(code: nat, outcomes: seq<Outcome>) returns (n: nat)
      requires exit == Running && |outcomes| == |hooks|
      modifies this
      ensures n <= |outcomes| && Described(outcomes[..n]) && (n < |outcomes| ==> outcomes[n] == Threw(false))
      ensures Now() == if n == |outcomes| then Swept(old(Now()), code, outcomes)
        else Step(Swept(old(Now()), code, outcomes[..n]), Advance(|old(loops)|))
    {
      ghost var before := Now();
      var me := |loops|;
      loops := loops + [Loop(code, clock + FALLBACK_MS, 0, false, [])];
      n := 0;
      while n < |hooks|
        invariant n <= |hooks| && hooks == before.hooks && Described(outcomes[..n])
        invariant Now() == Swept(before, code, outcomes[..n])
      {
        var hook := hooks[n];
        loops := loops[me := loops[me].(next := n + 1, awaiting := true, called := loops[me].called + [hook])];
        Invoke(hook);
        if outcomes[n].Threw? {
          if !outcomes[n].describable {
            AdvanceSwept(before, code, outcomes[..n]);
            return;
          }
          warnings := warnings + 1;
        }
        loops := loops[me := loops[me].(awaiting := false)];
        SweepOne(before, code, outcomes, n);
        assert loops == Swept(before, code, outcomes[..n + 1]).loops;
        n := n + 1;
      }
      assert outcomes[..n] == outcomes;
    }

    /** The whole routine when nothing interleaves with it and every hook settles. */
    method RunAllCleanupAndExit(code: nat, outcomes: seq<Outcome>) returns (n: nat)
      requires exit == Running && |outcomes| == |hooks|
      modifies this
      ensures n <= |outcomes| && Described(outcomes[..n]) && (n < |outcomes| ==> outcomes[n] == Threw(false))
      ensures var me := |old(loops)|;
        Now() == Run(old(Now()), if n == |outcomes| then LoopEvents(code, me, outcomes) + [Advance(me)]
                                 else LoopEvents(code, me, outcomes[..n + 1]))
      ensures exit == if n == |outcomes| then Finished(|old(loops)|, code, clock) else Abandoned(|old(loops)|, code, clock)
    {
      ghost var before := Now();
      var me := |loops|;
      n := CallHooks(code, outcomes);
      if n == |outcomes| {
        assert outcomes[..n] == outcomes;
        SweepEnds(before, code, outcomes);
        exit := Finished(me, code, clock);
      } else {
        assert outcomes[..n + 1] == outcomes[..n] + [Threw(false)];
        SweepLeaves(before, code, outcomes[..n]);
        exit := Abandoned(me, code, clock);
      }
    }
  }

  function CallAll(s: State, hooks: seq<Hook>): (t: State)
    ensures t == s.(ran := t.ran, bodies := t.bodies)
  {
    if hooks == [] then s else CallHook(CallAll(s, hooks[..|hooks| - 1]), hooks[|hooks| - 1])
  }

  predicate Described(outcomes: seq<Outcome>) {
    forall i :: 0 <= i < |outcomes| ==> outcomes[i] != Threw(false)
  }

  function Thrown(outcomes: seq<Outcome>): nat {
    if outcomes == [] then 0
    else Thrown(outcomes[..|outcomes| - 1]) + if outcomes[|outcomes| - 1].Threw? then 1 else 0
  }

  /** A signal's loop after as many hooks as there are entries in `outcomes`. */
  function Swept(s: State, code: nat, outcomes: seq<Outcome>): State
    requires |outcomes| <= |s.hooks|
  {
    var passed := s.hooks[..|outcomes|];
    CallAll(s, passed).(
      loops := s.loops + [Loop(code, s.clock + FALLBACK_MS, |outcomes|, false, passed)],
      warnings := s.warnings + Thrown(outcomes))
  }

  lemma SweepOne(s: State, code: nat, outcomes: seq<Outcome>, i: nat)
    requires i < |outcomes| <= |s.hooks|
    ensures var was, now := Swept(s, code, outcomes[..i]), Swept(s, code, outcomes[..i + 1]);
      && now == CallHook(was, s.hooks[i]).(
           loops := s.loops + [Loop(code, s.clock + FALLBACK_MS, i + 1, false, s.hooks[..i] + [s.hooks[i]])],
           warnings := was.warnings + if outcomes[i].Threw? then 1 else 0)
    ensures Described(outcomes[..i]) && outcomes[i] != Threw(false) ==> Described(outcomes[..i + 1])
  {
    assert outcomes[..i + 1][..i] == outcomes[..i] && s.hooks[..i + 1][..i] == s.hooks[..i];
    assert s.hooks[..i + 1] == s.hooks[..i] + [s.hooks[i]];
  }

  /** The next hook is called and awaited. */
  lemma AdvanceSwept(s: State, code: nat, outcomes: seq<Outcome>)
    requires s.exit == Running && |outcomes| < |s.hooks|
    ensures var i, was := |outcomes|, Swept(s, code, outcomes);
      Step(was, Advance(|s.loops|)) == CallHook(was, s.hooks[i]).(
        loops := s.loops + [Loop(code, s.clock + FALLBACK_MS, i + 1, true, s.hooks[..i] + [s.hooks[i]])])
  {
  }

  /** A signal, and then hooks called and settled. */
  function LoopEvents(code: nat, me: nat, outcomes: seq<Outcome>): seq<Event> {
    if outcomes == [] then [Signal(code)]
    else LoopEvents(code, me, outcomes[..|outcomes| - 1]) + [Advance(me)] + [Settle(me, outcomes[|outcomes| - 1])]
  }

  lemma SweepStep(s: State, code: nat, outcomes: seq<Outcome>)
    requires s.exit == Running && 0 < |outcomes| <= |s.hooks| && outcomes[|outcomes| - 1] != Threw(false)
    ensures var me, n := |s.loops|, |outcomes| - 1;
      Swept(s, code, outcomes) == Step(Step(Swept(s, code, outcomes[..n]), Advance(me)), Settle(me, outcomes[n]))
  {
    var n := |outcomes| - 1;
    assert outcomes[..n + 1] == outcomes;
    AdvanceSwept(s, code, outcomes[..n]);
    SweepOne(s, code, outcomes, n);
  }

  lemma {:induction false} SweptIsRun(s: State, code: nat, outcomes: seq<Outcome>)
    requires s.exit == Running && |outcomes| <= |s.hooks| && Described(outcomes)
    ensures Run(s, LoopEvents(code, |s.loops|, outcomes)) == Swept(s, code, outcomes)
  {
    if outcomes == [] {
      RunSnoc(s, [], Signal(code));
      assert [] + [Signal(code)] == [Signal(code)];
    } else {
      var front, last := outcomes[..|outcomes| - 1], outcomes[|outcomes| - 1];
      SweptIsRun(s, code, front);
      RunMore(s, code, front, last);
      assert outcomes == front + [last];
      SweepStep(s, code, outcomes);
    }
  }

  lemma RunMore(s: State, code: nat, front: seq<Outcome>, last: Outcome)
    ensures var me := |s.loops|;
      Run(s, LoopEvents(code, me, front + [last])) ==
      Step(Step(Run(s, LoopEvents(code, me, front)), Advance(me)), Settle(me, last))
  {
    var me := |s.loops|;
    assert (front + [last])[..|front|] == front;
    RunSnoc(s, LoopEvents(code, me, front), Advance(me));
    RunSnoc(s, LoopEvents(code, me, front) + [Advance(me)], Settle(me, last));
  }

  lemma SweepEnds(s: State, code: nat, outcomes: seq<Outcome>)
    requires s.exit == Running && |outcomes| == |s.hooks| && Described(outcomes)
    ensures var me := |s.loops|;
      Run(s, LoopEvents(code, me, outcomes) + [Advance(me)])
      == Swept(s, code, outcomes).(exit := Finished(me, code, s.clock))
  {
    var me := |s.loops|;
    SweptIsRun(s, code, outcomes);
    RunSnoc(s, LoopEvents(code, me, outcomes), Advance(me));
  }

  lemma SweepLeaves(s: State, code: nat, passed: seq<Outcome>)
    requires s.exit == Running && |passed| < |s.hooks| && Described(passed)
    ensures var me := |s.loops|;
      Run(s, LoopEvents(code, me, passed + [Threw(false)]))
      == Step(Swept(s, code, passed), Advance(me)).(exit := Abandoned(me, code, s.clock))
  {
    SweptIsRun(s, code, passed);
    RunMore(s, code, passed, Threw(false));
    LeavesNow(s, code, passed);
  }

  lemma LeavesNow(s: State, code: nat, passed: seq<Outcome>)
    requires s.exit == Running && |passed| < |s.hooks|
    ensures var me := |s.loops|;
      var called := Step(Swept(s, code, passed), Advance(me));
      Step(called, Settle(me, Threw(false))) == called.(exit := Abandoned(me, code, s.clock))
  {
    AdvanceSwept(s, code, passed);
  }

  lemma RunSnoc(s: State, events: seq<Event>, e: Event)
    ensures Run(s, events + [e]) == Step(Run(s, events), e)
  {
    assert (events + [e])[..|events|] == events;
  }
}
