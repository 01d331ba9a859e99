/** Shared installs of package-manager tools (src/utils/packageManagers.ts).

    Any number of workers run the same check, confirm, install, re-check routine in one
    process. Every await is a point where another worker may run. Installs of one tool name
    are shared through a map of running installs.
 */
module PackageInstalls {
  import opened Sequences

  datatype Tool = Tool(name: string, title: string)

  /** An install promise: the installer runs, ends, and only then leaves the map and
      settles, since the removal is chained behind the installer. */
  datatype Phase = Running | Ended(ok: bool) | Settled(ok: bool)
  datatype Install = Install(name: string, phase: Phase)

  /** Where a worker is. Positions index its tools while checking, its missing tools after. */
  datatype Place =
    | Checking | Confirming | Requesting | Waiting(install: nat) | Rechecking
    | Returned | Declined | InstallFailed | StillMissing

  /** `checks` and `rechecks` are the answers received so far, `missing` the positions pushed
      by the first loop, `joined` the installs awaited, in order. */
  datatype Worker = Worker(tools: seq<Tool>, asks: bool, place: Place, checks: seq<bool>,
                           missing: seq<nat>, joined: seq<nat>, rechecks: seq<bool>)

  datatype State = State(workers: seq<Worker>, installs: seq<Install>, inFlight: map<string, nat>)

  datatype Event =
    | CheckAnswered(w: nat, present: bool)
    | ConfirmAnswered(w: nat, proceed: bool)
    | InstallRequested(w: nat)
    | InstallerEnded(i: nat, ok: bool)
    | InstallSettled(i: nat)
    | Resumed(w: nat)

  function NewWorker(tools: seq<Tool>, asks: bool): Worker {
    AfterChecks(Worker(tools, asks, Checking, [], [], [], []))
  }

  /** Leaves the first loop once every tool has been checked. */
  function AfterChecks(w: Worker): Worker {
    if |w.checks| < |w.tools| then w
    else if w.missing == [] then w.(place := Returned)
    else if w.asks then w.(place := Confirming)
    else w.(place := Requesting)
  }

  /** Moves to the next install, or to the second loop after the last. */
  function AfterInstall(w: Worker): Worker {
    w.(place := if |w.joined| < |w.missing| then Requesting else Rechecking)
  }

  function AfterRechecks(w: Worker): Worker {
    if |w.rechecks| < |w.missing| then w
    else w.(place := if false in w.rechecks then StillMissing else Returned)
  }

  function Answered(w: Worker, present: bool): Worker
    requires w.place.Checking? || w.place.Rechecking?
  {
    if w.place.Checking? then
      AfterChecks(w.(checks := w.checks + [present],
                     missing := if present then w.missing else w.missing + [|w.checks|]))
    else
      AfterRechecks(w.(rechecks := w.rechecks + [present]))
  }

  predicate Enabled(s: State, e: Event) {
    match e
    case CheckAnswered(w, _) =>
      w < |s.workers| && (s.workers[w].place.Checking? || s.workers[w].place.Rechecking?)
    case ConfirmAnswered(w, _) => w < |s.workers| && s.workers[w].place.Confirming?
    case InstallRequested(w) =>
      w < |s.workers| && s.workers[w].place.Requesting? && |s.workers[w].joined| < |s.workers[w].missing|
      && s.workers[w].missing[|s.workers[w].joined|] < |s.workers[w].tools|
    case InstallerEnded(i, _) => i < |s.installs| && s.installs[i].phase.Running?
    case InstallSettled(i) => i < |s.installs| && s.installs[i].phase.Ended?
    case Resumed(w) =>
      w < |s.workers| && s.workers[w].place.Waiting? && s.workers[w].place.install < |s.installs|
      && s.installs[s.workers[w].place.install].phase.Settled?
  }

  /** The tool the worker installs next. */
  function NextTool(w: Worker): Tool
    requires |w.joined| < |w.missing| && w.missing[|w.joined|] < |w.tools|
  {
    w.tools[w.missing[|w.joined|]]
  }

  /** The promise for a tool name: the running one, or a new one that is entered in the map. */
  function SharedInstall(s: State, name: string): (r: (State, nat)) {
    if name in s.inFlight then (s, s.inFlight[name])
    else (s.(installs := s.installs + [Install(name, Running)], inFlight := s.inFlight[name := |s.installs|]),
          |s.installs|)
  }

  function Step(s: State, e: Event): State
    requires Enabled(s, e)
  {
    match e
    case CheckAnswered(w, present) =>
      s.(workers := s.workers[w := Answered(s.workers[w], present)])
    case ConfirmAnswered(w, proceed) =>
      s.(workers := s.workers[w := s.workers[w].(place := if proceed then Requesting else Declined)])
    case InstallRequested(w) =>
      var worker := s.workers[w];
      var (t, i) := SharedInstall(s, NextTool(worker).name);
      t.(workers := t.workers[w := worker.(place := Waiting(i), joined := worker.joined + [i])])
    case InstallerEnded(i, ok) =>
      s.(installs := s.installs[i := s.installs[i].(phase := Ended(ok))])
    case InstallSettled(i) =>
      s.(installs := s.installs[i := s.installs[i].(phase := Settled(s.installs[i].phase.ok))],
         inFlight := s.inFlight - {s.installs[i].name})
    case Resumed(w) =>
      var worker := s.workers[w];
      s.(workers := s.workers[w :=
        if s.installs[worker.place.install].phase.ok then AfterInstall(worker)
        else worker.(place := InstallFailed)])
  }

  // ---------- What every step keeps ----------

  /** The positions of the tools that were not there, in list order. */
  function Failing(checks: seq<bool>): seq<nat> {
    if checks == [] then []
    else var n := |checks| - 1; Failing(checks[..n]) + (if checks[n] then [] else [n])
  }

  /** The map holds exactly the installs that have not settled, under their names. */
  ghost predicate ValidInstalls(s: State) {
    && (forall name :: name in s.inFlight ==>
          s.inFlight[name] < |s.installs| && s.installs[s.inFlight[name]].name == name)
    && (forall i :: 0 <= i < |s.installs| ==>
          (!s.installs[i].phase.Settled? <==> s.installs[i].name in s.inFlight && s.inFlight[s.installs[i].name] == i))
  }

  ghost predicate Succeeded(installs: seq<Install>, ids: seq<nat>) {
    forall j :: 0 <= j < |ids| ==> ids[j] < |installs| && installs[ids[j]].phase == Settled(true)
  }

  /** The installs awaited so far are those of the first missing tools, in order. */
  ghost predicate JoinedInOrder(w: Worker, installs: seq<Install>) {
    && |w.joined| <= |w.missing|
    && forall j :: 0 <= j < |w.joined| ==>
         && w.joined[j] < |installs| && w.missing[j] < |w.tools|
         && installs[w.joined[j]].name == w.tools[w.missing[j]].name
  }

  ghost predicate ValidWorker(w: Worker, installs: seq<Install>) {
    && |w.checks| <= |w.tools| && w.missing == Failing(w.checks)
    && (forall j :: 0 <= j < |w.missing| ==> w.missing[j] < |w.tools|)
    && JoinedInOrder(w, installs) && |w.rechecks| <= |w.missing|
    && (!w.place.Checking? ==> |w.checks| == |w.tools|)
    && match w.place
       case Checking => |w.checks| < |w.tools| && w.joined == [] && w.rechecks == []
       case Confirming => w.asks && w.missing != [] && w.joined == [] && w.rechecks == []
       case Declined => w.asks && w.missing != [] && w.joined == [] && w.rechecks == []
       case Requesting => |w.joined| < |w.missing| && Succeeded(installs, w.joined) && w.rechecks == []
       case Waiting(i) =>
         && w.joined != [] && w.joined[|w.joined| - 1] == i && w.rechecks == []
         && Succeeded(installs, w.joined[..|w.joined| - 1])
       case InstallFailed =>
         && w.joined != [] && installs[w.joined[|w.joined| - 1]].phase == Settled(false)
         && Succeeded(installs, w.joined[..|w.joined| - 1])
       case Rechecking =>
         |w.joined| == |w.missing| && Succeeded(installs, w.joined) && |w.rechecks| < |w.missing|
       case StillMissing =>
         |w.joined| == |w.missing| && Succeeded(installs, w.joined) && |w.rechecks| == |w.missing| && false in w.rechecks
       case Returned =>
         |w.joined| == |w.missing| && Succeeded(installs, w.joined) && |w.rechecks| == |w.missing| && false !in w.rechecks
  }

  ghost predicate Valid(s: State) {
    ValidInstalls(s) && forall w :: 0 <= w < |s.workers| ==> ValidWorker(s.workers[w], s.installs)
  }

  /** Installs are only added, keep their names, and stay settled once they are. */
  ghost predicate Extends(a: seq<Install>, b: seq<Install>) {
    && |a| <= |b|
    && forall i :: 0 <= i < |a| ==> b[i].name == a[i].name && (a[i].phase.Settled? ==> b[i] == a[i])
  }

  lemma ExtendsKeepsWorker(w: Worker, a: seq<Install>, b: seq<Install>)
    requires ValidWorker(w, a) && Extends(a, b)
    ensures ValidWorker(w, b)
  {
  }

  lemma FailingExtend(checks: seq<bool>, present: bool)
    ensures Failing(checks + [present]) == Failing(checks) + (if present then [] else [|checks|])
  {
    assert (checks + [present])[..|checks|] == checks;
  }

  lemma {:induction false} FailingPositions(checks: seq<bool>)
    ensures forall k :: k in Failing(checks) <==> 0 <= k < |checks| && !checks[k]
    ensures forall i, j :: 0 <= i < j < |Failing(checks)| ==> Failing(checks)[i] < Failing(checks)[j]
  {
    if checks != [] {
      var n := |checks| - 1;
      FailingPositions(checks[..n]);
      FailingFound(checks[..n], checks[n], Failing(checks[..n]));
      assert checks == checks[..n] + [checks[n]];
    }
  }

  /** One more answer appends its position, which is beyond the others. */
  lemma FailingFound(front: seq<bool>, last: bool, found: seq<nat>)
    requires forall k :: k in found <==> 0 <= k < |front| && !front[k]
    requires forall i, j :: 0 <= i < j < |found| ==> found[i] < found[j]
    ensures var all, f := front + [last], found + (if last then [] else [|front|]);
      && (forall k :: k in f <==> 0 <= k < |all| && !all[k])
      && (forall i, j :: 0 <= i < j < |f| ==> f[i] < f[j])
  {
    assert forall i :: 0 <= i < |found| ==> found[i] in found;
  }

  lemma CheckAnsweredValid(w: Worker, present: bool, installs: seq<Install>)
    requires ValidWorker(w, installs) && w.place.Checking?
    ensures ValidWorker(Answered(w, present), installs)
  {
    FailingExtend(w.checks, present);
    FailingBelow(w.checks + [present]);
    AfterChecksValid(w.(checks := w.checks + [present],
                        missing := if present then w.missing else w.missing + [|w.checks|]), installs);
  }

  lemma AfterChecksValid(w: Worker, installs: seq<Install>)
    requires w.place.Checking? && |w.checks| <= |w.tools| && w.missing == Failing(w.checks)
    requires forall j :: 0 <= j < |w.missing| ==> w.missing[j] < |w.tools|
    requires w.joined == [] && w.rechecks == []
    ensures ValidWorker(AfterChecks(w), installs)
  {
  }

  lemma FailingBelow(checks: seq<bool>)
    ensures forall j :: 0 <= j < |Failing(checks)| ==> Failing(checks)[j] < |checks|
  {
    FailingPositions(checks);
    assert forall j :: 0 <= j < |Failing(checks)| ==> Failing(checks)[j] in Failing(checks);
  }

  lemma RecheckAnsweredValid(w: Worker, present: bool, installs: seq<Install>)
    requires ValidWorker(w, installs) && w.place.Rechecking?
    ensures ValidWorker(Answered(w, present), installs)
  {
  }

  lemma ConfirmedValid(w: Worker, proceed: bool, installs: seq<Install>)
    requires ValidWorker(w, installs) && w.place.Confirming?
    ensures ValidWorker(w.(place := if proceed then Requesting else Declined), installs)
  {
  }

  lemma RequestedValid(w: Worker, i: nat, installs: seq<Install>)
    requires ValidWorker(w, installs) && w.place.Requesting?
    requires i < |installs| && installs[i].name == NextTool(w).name
    ensures ValidWorker(w.(place := Waiting(i), joined := w.joined + [i]), installs)
  {
    var v := w.(place := Waiting(i), joined := w.joined + [i]);
    assert v.joined[..|v.joined| - 1] == w.joined;
  }

  lemma ResumedValid(w: Worker, installs: seq<Install>)
    requires ValidWorker(w, installs) && w.place.Waiting? && installs[w.place.install].phase.Settled?
    ensures ValidWorker(if installs[w.place.install].phase.ok then AfterInstall(w) else w.(place := InstallFailed), installs)
  {
    var n := |w.joined| - 1;
    assert w.joined == w.joined[..n] + [w.joined[n]];
  }

  lemma InstallOnceValid(s: State, name: string)
    requires ValidInstalls(s)
    ensures var (t, i) := SharedInstall(s, name);
      && ValidInstalls(t) && Extends(s.installs, t.installs) && t.workers == s.workers
      && i < |t.installs| && t.installs[i].name == name && !t.installs[i].phase.Settled?
  {
  }

  lemma InstallEventValid(s: State, e: Event)
    requires ValidInstalls(s) && Enabled(s, e) && (e.InstallerEnded? || e.InstallSettled?)
    ensures ValidInstalls(Step(s, e)) && Extends(s.installs, Step(s, e).installs)
  {
  }

  lemma WorkersKept(s: State, installs: seq<Install>)
    requires Valid(s) && Extends(s.installs, installs)
    ensures forall w :: 0 <= w < |s.workers| ==> ValidWorker(s.workers[w], installs)
  {
    forall w | 0 <= w < |s.workers|
      ensures ValidWorker(s.workers[w], installs)
    {
      ExtendsKeepsWorker(s.workers[w], s.installs, installs);
    }
  }

  lemma StepKeepsValid(s: State, e: Event)
    requires Valid(s) && Enabled(s, e)
    ensures Valid(Step(s, e)) && Extends(s.installs, Step(s, e).installs)
  {
    match e {
      case CheckAnswered(w, present) => WorkerStepValid(s, w, e);
      case ConfirmAnswered(w, proceed) => WorkerStepValid(s, w, e);
      case Resumed(w) => WorkerStepValid(s, w, e);
      case InstallRequested(w) => RequestStepValid(s, w);
      case _ =>
        InstallEventValid(s, e);
        WorkersKept(s, Step(s, e).installs);
    }
  }

  /** A step that only moves its own worker. */
  lemma WorkerStepValid(s: State, w: nat, e: Event)
    requires Valid(s) && Enabled(s, e)
    requires e == Resumed(w) || (e.CheckAnswered? && e.w == w) || (e.ConfirmAnswered? && e.w == w)
    ensures Valid(Step(s, e)) && Step(s, e).installs == s.installs
  {
    assert ValidWorker(s.workers[w], s.installs);
    match e {
      case CheckAnswered(_, present) =>
        if s.workers[w].place.Checking? {
          CheckAnsweredValid(s.workers[w], present, s.installs);
        } else {
          RecheckAnsweredValid(s.workers[w], present, s.installs);
        }
      case ConfirmAnswered(_, proceed) => ConfirmedValid(s.workers[w], proceed, s.installs);
      case Resumed(_) => ResumedValid(s.workers[w], s.installs);
    }
    WorkerMoves(s, w, Step(s, e).workers[w]);
  }

  lemma WorkerMoves(s: State, w: nat, v: Worker)
    requires Valid(s) && w < |s.workers| && ValidWorker(v, s.installs)
    ensures Valid(s.(workers := s.workers[w := v]))
  {
    var t := s.(workers := s.workers[w := v]);
    forall x | 0 <= x < |t.workers| ensures ValidWorker(t.workers[x], t.installs) {
      assert x != w ==> t.workers[x] == s.workers[x];
    }
  }

  lemma RequestStepValid(s: State, w: nat)
    requires Valid(s) && Enabled(s, InstallRequested(w))
    ensures var t := Step(s, InstallRequested(w)); Valid(t) && Extends(s.installs, t.installs)
  {
    var (t, i) := SharedInstall(s, NextTool(s.workers[w]).name);
    InstallOnceValid(s, NextTool(s.workers[w]).name);
    WorkersKept(s, t.installs);
    RequestedValid(s.workers[w], i, t.installs);
    WorkerMoves(t, w, Step(s, InstallRequested(w)).workers[w]);
  }

  // ---------- Runs ----------

  ghost predicate Initial(s: State) {
    && s.installs == [] && s.inFlight == map[]
    && forall w :: 0 <= w < |s.workers| ==> s.workers[w] == NewWorker(s.workers[w].tools, s.workers[w].asks)
  }

  ghost predicate Runnable(s: State, es: seq<Event>)
    decreases |es|
  {
    es == [] || (Enabled(s, es[0]) && Runnable(Step(s, es[0]), es[1..]))
  }

  ghost function Run(s: State, es: seq<Event>): State
    requires Runnable(s, es)
    decreases |es|
  {
    if es == [] then s else Run(Step(s, es[0]), es[1..])
  }

  lemma InitialValid(s: State)
    requires Initial(s)
    ensures Valid(s)
  {
    assert Failing([]) == [];
  }

  lemma {:induction false} RunKeepsValid(s: State, es: seq<Event>)
    requires Valid(s) && Runnable(s, es)
    ensures Valid(Run(s, es)) && Extends(s.installs, Run(s, es).installs)
    decreases |es|
  {
    if es != [] {
      StepKeepsValid(s, es[0]);
      RunKeepsValid(Step(s, es[0]), es[1..]);
    }
  }

  /** However many workers interleave, no two installs of one tool name run at once. */
  lemma SingleFlight(s: State, es: seq<Event>)
    requires Initial(s) && Runnable(s, es)
    ensures var t := Run(s, es);
      forall i, j | 0 <= i < j < |t.installs| && t.installs[i].name == t.installs[j].name ::
        t.installs[i].phase.Settled? || t.installs[j].phase.Settled?
  {
    InitialValid(s);
    RunKeepsValid(s, es);
  }

  /** Whether the worker saw the tool at this position, the last time it looked. */
  predicate SawLast(w: Worker, k: nat)
    requires k < |w.checks|
  {
    w.checks[k] || exists j :: 0 <= j < |w.missing| && j < |w.rechecks| && w.missing[j] == k && w.rechecks[j]
  }

  /** A worker returns only after every one of its tools checked true in that call, and only
      after an install of each missing tool that it awaited succeeded. */
  lemma ReturnedSawEveryTool(s: State, es: seq<Event>, w: nat)
    requires Initial(s) && Runnable(s, es)
    requires w < |Run(s, es).workers| && Run(s, es).workers[w].place.Returned?
    ensures var worker, installs := Run(s, es).workers[w], Run(s, es).installs;
      && |worker.checks| == |worker.tools|
      && (forall k :: 0 <= k < |worker.tools| ==> SawLast(worker, k))
      && Succeeded(installs, worker.joined) && |worker.joined| == |worker.missing|
  {
    InitialValid(s);
    RunKeepsValid(s, es);
    var worker := Run(s, es).workers[w];
    FailingPositions(worker.checks);
    forall k | 0 <= k < |worker.tools|
      ensures SawLast(worker, k)
    {
      if !worker.checks[k] {
        assert k in worker.missing;
        var j :| 0 <= j < |worker.missing| && worker.missing[j] == k;
        assert worker.rechecks[j] in worker.rechecks;
      }
    }
  }

  // ---------- Answers, read off the history ----------

  /** Past the question, with something to install. */
  predicate GoesAhead(w: Worker) {
    !w.place.Checking? && !w.place.Confirming? && !w.place.Declined? && w.missing != []
  }

  lemma AnsweredConfirms(w: Worker, present: bool, installs: seq<Install>)
    requires ValidWorker(w, installs) && (w.place.Checking? || w.place.Rechecking?)
    ensures var v := Answered(w, present);
      && v.tools == w.tools && v.asks == w.asks && !v.place.Declined?
      && (w.asks ==> (GoesAhead(v) <==> GoesAhead(w)))
      && v.checks + v.rechecks == w.checks + w.rechecks + [present]
  {
    assert w.place.Rechecking? ==> w.checks + (w.rechecks + [present]) == w.checks + w.rechecks + [present];
  }

  lemma StepConfirms(s: State, e: Event, w: nat)
    requires Valid(s) && Enabled(s, e) && w < |s.workers|
    ensures var u, v := s.workers[w], Step(s, e).workers[w];
      && v.tools == u.tools && v.asks == u.asks
      && (v.place.Declined? <==> u.place.Declined? || e == ConfirmAnswered(w, false))
      && (u.asks ==> (GoesAhead(v) <==> GoesAhead(u) || e == ConfirmAnswered(w, true)))
  {
    assert ValidWorker(s.workers[w], s.installs);
    if e.CheckAnswered? && e.w == w {
      AnsweredConfirms(s.workers[w], e.present, s.installs);
    }
  }

  lemma {:induction false} RunConfirms(s: State, es: seq<Event>, w: nat)
    requires Valid(s) && Runnable(s, es) && w < |s.workers|
    ensures |Run(s, es).workers| == |s.workers|
    ensures var u, v := s.workers[w], Run(s, es).workers[w];
      && v.tools == u.tools && v.asks == u.asks
      && (v.place.Declined? <==> u.place.Declined? || ConfirmAnswered(w, false) in es)
      && (u.asks ==> (GoesAhead(v) <==> GoesAhead(u) || ConfirmAnswered(w, true) in es))
    decreases |es|
  {
    if es != [] {
      StepConfirms(s, es[0], w);
      StepKeepsValid(s, es[0]);
      RunConfirms(Step(s, es[0]), es[1..], w);
      assert forall e :: e in es <==> e == es[0] || e in es[1..];
    }
  }

  /** Over every run a worker declines exactly when its user said no, and has then requested no
      install; and one that asks goes ahead with its missing tools exactly when its user said yes. */
  lemma ConfirmationDecides(s: State, es: seq<Event>, w: nat)
    requires Initial(s) && Runnable(s, es) && w < |s.workers|
    ensures |Run(s, es).workers| == |s.workers|
    ensures var worker := Run(s, es).workers[w];
      && worker.tools == s.workers[w].tools && worker.asks == s.workers[w].asks
      && (worker.place.Declined? <==> ConfirmAnswered(w, false) in es)
      && (worker.place.Declined? ==> worker.joined == [] && worker.missing != [])
      && (worker.asks ==> (GoesAhead(worker) <==> ConfirmAnswered(w, true) in es))
      && (worker.asks && ConfirmAnswered(w, true) !in es ==> worker.joined == [])
  {
    InitialValid(s);
    assert s.workers[w] == NewWorker(s.workers[w].tools, s.workers[w].asks);
    RunConfirms(s, es, w);
    RunKeepsValid(s, es);
    assert ValidWorker(Run(s, es).workers[w], Run(s, es).installs);
  }

  function CheckOf(e: Event, w: nat): seq<bool> {
    if e.CheckAnswered? && e.w == w then [e.present] else []
  }

  /** The answers of the checks made for a worker, in order. */
  function ChecksOf(es: seq<Event>, w: nat): seq<bool> {
    if es == [] then [] else CheckOf(es[0], w) + ChecksOf(es[1..], w)
  }

  lemma StepRecords(s: State, e: Event, w: nat)
    requires Valid(s) && Enabled(s, e) && w < |s.workers|
    ensures var u, v := s.workers[w], Step(s, e).workers[w];
      v.checks + v.rechecks == u.checks + u.rechecks + CheckOf(e, w)
  {
    assert ValidWorker(s.workers[w], s.installs);
    if e.CheckAnswered? && e.w == w {
      AnsweredConfirms(s.workers[w], e.present, s.installs);
    }
    var u := s.workers[w];
    assert u.checks + u.rechecks + [] == u.checks + u.rechecks;
  }

  /** A worker's record of its checks, first loop and second, is what they answered. */
  lemma {:induction false} ChecksAreRecorded(s: State, es: seq<Event>, w: nat)
    requires Valid(s) && Runnable(s, es) && w < |s.workers|
    ensures |Run(s, es).workers| == |s.workers|
    ensures var u, v := s.workers[w], Run(s, es).workers[w];
      v.checks + v.rechecks == u.checks + u.rechecks + ChecksOf(es, w)
    decreases |es|
  {
    var u := s.workers[w];
    if es != [] {
      StepRecords(s, es[0], w);
      StepKeepsValid(s, es[0]);
      ChecksAreRecorded(Step(s, es[0]), es[1..], w);
      Reassociate(u.checks + u.rechecks, CheckOf(es[0], w), ChecksOf(es[1..], w));
    } else {
      assert u.checks + u.rechecks + [] == u.checks + u.rechecks;
    }
  }

  /** The installer has ended this way, whether or not the promise has settled. */
  predicate EndedWith(installs: seq<Install>, i: nat, ok: bool) {
    i < |installs| && !installs[i].phase.Running? && installs[i].phase.ok == ok
  }

  predicate HasSettled(installs: seq<Install>, i: nat) {
    i < |installs| && installs[i].phase.Settled?
  }

  lemma StepEnds(s: State, e: Event, i: nat, ok: bool)
    requires Valid(s) && Enabled(s, e)
    ensures EndedWith(Step(s, e).installs, i, ok) <==> EndedWith(s.installs, i, ok) || e == InstallerEnded(i, ok)
    ensures HasSettled(Step(s, e).installs, i) <==> HasSettled(s.installs, i) || e == InstallSettled(i)
  {
  }

  lemma {:induction false} RunEnds(s: State, es: seq<Event>, i: nat, ok: bool)
    requires Valid(s) && Runnable(s, es)
    ensures EndedWith(Run(s, es).installs, i, ok) <==> EndedWith(s.installs, i, ok) || InstallerEnded(i, ok) in es
    ensures HasSettled(Run(s, es).installs, i) <==> HasSettled(s.installs, i) || InstallSettled(i) in es
    decreases |es|
  {
    if es != [] {
      StepEnds(s, es[0], i, ok);
      StepKeepsValid(s, es[0]);
      RunEnds(Step(s, es[0]), es[1..], i, ok);
      assert forall e :: e in es <==> e == es[0] || e in es[1..];
    }
  }

  /** Over every run, an install has succeeded, or failed, exactly when its installer ended so, and its
      promise has settled exactly when it was settled. */
  lemma InstallsEndAsReported(s: State, es: seq<Event>, i: nat, ok: bool)
    requires Initial(s) && Runnable(s, es)
    ensures EndedWith(Run(s, es).installs, i, ok) <==> InstallerEnded(i, ok) in es
    ensures HasSettled(Run(s, es).installs, i) <==> InstallSettled(i) in es
  {
    InitialValid(s);
    RunEnds(s, es, i, ok);
  }

  /** A worker fails for an install exactly when the last one it awaited ended badly and it has gone
      on from there. */
  lemma FailsWithItsInstall(s: State, es: seq<Event>, w: nat)
    requires Initial(s) && Runnable(s, es) && w < |Run(s, es).workers|
    ensures var worker := Run(s, es).workers[w];
      && (worker.place.InstallFailed? <==>
            && worker.joined != [] && !worker.place.Waiting?
            && InstallerEnded(worker.joined[|worker.joined| - 1], false) in es)
      && (forall j :: 0 <= j < |worker.joined| - 1 ==> InstallerEnded(worker.joined[j], true) in es)
  {
    InitialValid(s);
    RunKeepsValid(s, es);
    var worker, installs := Run(s, es).workers[w], Run(s, es).installs;
    assert ValidWorker(worker, installs);
    if worker.joined != [] {
      var n := |worker.joined| - 1;
      InstallsEndAsReported(s, es, worker.joined[n], false);
      assert worker.joined[..n] + [worker.joined[n]] == worker.joined;
      forall j | 0 <= j < n ensures InstallerEnded(worker.joined[j], true) in es {
        InstallsEndAsReported(s, es, worker.joined[j], true);
        assert worker.joined[..n][j] == worker.joined[j];
      }
    }
  }

  /** At every moment the installs a worker has awaited are, by name, those of the tools it
      found missing, in list order and without gaps. */
  lemma InstallsInListOrder(s: State, es: seq<Event>, w: nat)
    requires Initial(s) && Runnable(s, es) && w < |Run(s, es).workers|
    ensures var worker, installs := Run(s, es).workers[w], Run(s, es).installs;
      && (forall k :: k in worker.missing <==> 0 <= k < |worker.checks| && !worker.checks[k])
      && (forall i, j :: 0 <= i < j < |worker.missing| ==> worker.missing[i] < worker.missing[j])
      && JoinedInOrder(worker, installs)
  {
    InitialValid(s);
    RunKeepsValid(s, es);
    FailingPositions(Run(s, es).workers[w].checks);
  }

  // ---------- Progress ----------

  predicate Finished(w: Worker) {
    w.place.Returned? || w.place.Declined? || w.place.InstallFailed? || w.place.StillMissing?
  }

  /** A step of the worker itself or of the install it waits for. */
  predicate Concerns(s: State, w: nat, e: Event)
    requires w < |s.workers|
  {
    match e
    case InstallerEnded(i, _) => s.workers[w].place == Waiting(i)
    case InstallSettled(i) => s.workers[w].place == Waiting(i)
    case other => other.w == w
  }

  /** While a worker is unfinished some step can be taken: no wait is for a lost install. */
  lemma NoDeadlock(s: State, w: nat) returns (e: Event)
    requires Valid(s) && w < |s.workers| && !Finished(s.workers[w])
    ensures Enabled(s, e) && Concerns(s, w, e)
  {
    var worker := s.workers[w];
    match worker.place {
      case Checking => e := CheckAnswered(w, true);
      case Rechecking => e := CheckAnswered(w, true);
      case Confirming => e := ConfirmAnswered(w, true);
      case Requesting => e := InstallRequested(w);
      case Waiting(i) =>
        match s.installs[i].phase {
          case Running => e := InstallerEnded(i, true);
          case Ended(_) => e := InstallSettled(i);
          case Settled(_) => e := Resumed(w);
        }
    }
  }

  /** Steps a worker can still take, counting those of the installs it may start. */
  function WorkerBudget(w: Worker): int {
    var m, j := |w.missing|, |w.joined|;
    match w.place
    case Checking => 8 * (|w.tools| - |w.checks|) + 6 * m + 2
    case Confirming => 6 * m + 1
    case Requesting => 5 * (m - j) + m
    case Waiting(_) => 5 * (m - j) + m + 1
    case Rechecking => m - |w.rechecks|
    case _ => 0
  }

  function InstallBudget(i: Install): nat {
    match i.phase case Running => 2 case Ended(_) => 1 case Settled(_) => 0
  }

  function WorkersBudget(ws: seq<Worker>): int {
    if ws == [] then 0 else WorkersBudget(ws[..|ws| - 1]) + WorkerBudget(ws[|ws| - 1])
  }

  function InstallsBudget(installs: seq<Install>): nat {
    if installs == [] then 0
    else InstallsBudget(installs[..|installs| - 1]) + InstallBudget(installs[|installs| - 1])
  }

  function Budget(s: State): int {
    WorkersBudget(s.workers) + InstallsBudget(s.installs)
  }

  lemma {:induction false} WorkersBudgetUpdate(ws: seq<Worker>, k: nat, w: Worker)
    requires k < |ws|
    ensures WorkersBudget(ws[k := w]) == WorkersBudget(ws) - WorkerBudget(ws[k]) + WorkerBudget(w)
  {
    var n := |ws| - 1;
    if k < n {
      WorkersBudgetUpdate(ws[..n], k, w);
      assert ws[k := w][..n] == ws[..n][k := w];
    } else {
      assert ws[k := w][..n] == ws[..n];
    }
  }

  lemma {:induction false} InstallsBudgetUpdate(installs: seq<Install>, k: nat, i: Install)
    requires k < |installs|
    ensures InstallsBudget(installs[k := i]) == InstallsBudget(installs) - InstallBudget(installs[k]) + InstallBudget(i)
  {
    var n := |installs| - 1;
    if k < n {
      InstallsBudgetUpdate(installs[..n], k, i);
      assert installs[k := i][..n] == installs[..n][k := i];
    } else {
      assert installs[k := i][..n] == installs[..n];
    }
  }

  lemma {:induction false} WorkersBudgetNonNegative(ws: seq<Worker>, installs: seq<Install>)
    requires forall w :: 0 <= w < |ws| ==> ValidWorker(ws[w], installs)
    ensures WorkersBudget(ws) >= 0
  {
    if ws != [] {
      WorkersBudgetNonNegative(ws[..|ws| - 1], installs);
    }
  }

  lemma AnsweredSpends(w: Worker, present: bool)
    requires w.place.Checking? || w.place.Rechecking?
    requires w.place.Checking? ==> w.joined == [] && |w.checks| < |w.tools|
    requires w.place.Rechecking? ==> |w.rechecks| < |w.missing|
    ensures WorkerBudget(Answered(w, present)) < WorkerBudget(w)
  {
  }

  lemma RequestedSpends(w: Worker, i: nat)
    requires w.place.Requesting?
    ensures WorkerBudget(w.(place := Waiting(i), joined := w.joined + [i])) + 2 < WorkerBudget(w)
  {
  }

  lemma SharedInstallSpends(s: State, name: string)
    ensures InstallsBudget(SharedInstall(s, name).0.installs) <= InstallsBudget(s.installs) + 2
  {
    assert (s.installs + [Install(name, Running)])[..|s.installs|] == s.installs;
  }

  lemma ResumedSpends(w: Worker, installs: seq<Install>)
    requires ValidWorker(w, installs) && w.place.Waiting?
    ensures WorkerBudget(AfterInstall(w)) < WorkerBudget(w)
    ensures WorkerBudget(w.(place := InstallFailed)) < WorkerBudget(w)
  {
  }

  lemma ConfirmedSpends(w: Worker, proceed: bool, installs: seq<Install>)
    requires ValidWorker(w, installs) && w.place.Confirming?
    ensures WorkerBudget(w.(place := if proceed then Requesting else Declined)) < WorkerBudget(w)
  {
  }

  lemma RequestSpends(s: State, w: nat)
    requires Enabled(s, InstallRequested(w))
    ensures Budget(Step(s, InstallRequested(w))) < Budget(s)
  {
    var t := Step(s, InstallRequested(w));
    SharedInstallSpends(s, NextTool(s.workers[w]).name);
    RequestedSpends(s.workers[w], t.workers[w].place.install);
    WorkersBudgetUpdate(s.workers, w, t.workers[w]);
  }

  lemma InstallEventSpends(s: State, e: Event)
    requires Enabled(s, e) && (e.InstallerEnded? || e.InstallSettled?)
    ensures Budget(Step(s, e)) < Budget(s)
  {
    InstallsBudgetUpdate(s.installs, e.i, Step(s, e).installs[e.i]);
  }

  lemma StepSpends(s: State, e: Event)
    requires Valid(s) && Enabled(s, e)
    ensures Budget(Step(s, e)) < Budget(s)
  {
    match e {
      case CheckAnswered(w, present) =>
        assert ValidWorker(s.workers[w], s.installs);
        AnsweredSpends(s.workers[w], present);
        WorkersBudgetUpdate(s.workers, w, Answered(s.workers[w], present));
      case ConfirmAnswered(w, proceed) =>
        ConfirmedSpends(s.workers[w], proceed, s.installs);
        WorkersBudgetUpdate(s.workers, w, Step(s, e).workers[w]);
      case InstallRequested(w) =>
        RequestSpends(s, w);
      case Resumed(w) =>
        ResumedSpends(s.workers[w], s.installs);
        WorkersBudgetUpdate(s.workers, w, Step(s, e).workers[w]);
      case _ =>
        InstallEventSpends(s, e);
    }
  }

  /** No run is longer than its budget; with `NoDeadlock`, every worker finishes once checks,
      prompts and installers keep answering. */
  lemma {:induction false} RunsAreBounded(s: State, es: seq<Event>)
    requires Valid(s) && Runnable(s, es)
    ensures |es| <= Budget(s)
    decreases |es|
  {
    WorkersBudgetNonNegative(s.workers, s.installs);
    if es != [] {
      StepSpends(s, es[0]);
      StepKeepsValid(s, es[0]);
      RunsAreBounded(Step(s, es[0]), es[1..]);
    }
  }

  // ---------- The shared map ----------

  /** How the routine ends: the tools are there, the prompt was declined, the last of `ended`
      installers failed, or installed tools are still not found. */
  datatype Outcome = Ready | Unavailable | InstallerFailed(ended: nat) | NotOnPath(positions: seq<nat>)

  /** The process-wide map of running installs and the promises it has handed out. */
  class InFlightInstalls {
    var installs: seq<Install>
    var inFlight: map<string, nat>

    ghost function Now(): State
      reads this
    {
      State([], installs, inFlight)
    }

    constructor ()
      ensures Now() == State([], [], map[]) && ValidInstalls(Now())
    {
      installs, inFlight := [], map[];
    }

    /** Hands out the running promise of a name, or starts an installer. */
    method InstallOnce(name: string) returns (p: nat)
      requires ValidInstalls(Now())
      modifies this
      ensures ValidInstalls(Now()) && (Now(), p) == SharedInstall(old(Now()), name)
      ensures old(name in inFlight) ==> p == old(inFlight[name]) && installs == old(installs)
      ensures old(name !in inFlight) ==> p == |old(installs)| && installs == old(installs) + [Install(name, Running)]
    {
      InstallOnceValid(Now(), name);
      if name in inFlight {
        return inFlight[name];
      }
      p := |installs|;
      installs := installs + [Install(name, Running)];
      inFlight := inFlight[name := p];
    }

    method InstallerDone(p: nat, ok: bool)
      requires ValidInstalls(Now()) && p < |installs| && installs[p].phase.Running?
      modifies this
      ensures ValidInstalls(Now()) && Now() == Step(old(Now()), InstallerEnded(p, ok))
    {
      InstallEventValid(Now(), InstallerEnded(p, ok));
      installs := installs[p := installs[p].(phase := Ended(ok))];
    }

    /** The chained clean-up: drops the entry, then settles the promise. */
    method Finally(p: nat)
      requires ValidInstalls(Now()) && p < |installs| && installs[p].phase.Ended?
      modifies this
      ensures ValidInstalls(Now()) && Now() == Step(old(Now()), InstallSettled(p))
      ensures old(installs[p].name) !in inFlight
    {
      InstallEventValid(Now(), InstallSettled(p));
      inFlight := inFlight - {installs[p].name};
      installs := installs[p := installs[p].(phase := Settled(installs[p].phase.ok))];
    }

    /** A checking loop: pushes the position of every tool that is not there. */
    method CheckAll(answers: seq<bool>) returns (missing: seq<nat>)
      ensures missing == Failing(answers)
    {
      missing := [];
      for i := 0 to |answers|
        invariant missing == Failing(answers[..i])
      {
        assert answers[..i + 1][..i] == answers[..i];
        if !answers[i] {
          missing := missing + [i];
        }
      }
      assert answers[..|answers|] == answers;
    }

    /** The installing loop: `ended` installers ran, and the loop leaves at the first failure. */
    method InstallAll(tools: seq<Tool>, missing: seq<nat>, oks: seq<bool>) returns (ended: nat, ok: bool)
      requires ValidInstalls(Now()) && inFlight == map[]
      requires |oks| == |missing| && forall j :: 0 <= j < |missing| ==> missing[j] < |tools|
      modifies this
      ensures inFlight == map[] && Installed(old(installs), tools, missing, oks, ended)
      ensures if ok then ended == |oks| && false !in oks else 0 < ended && !oks[ended - 1] && false !in oks[..ended - 1]
    {
      for j := 0 to |missing|
        invariant ValidInstalls(Now()) && inFlight == map[]
        invariant Installed(old(installs), tools, missing, oks, j) && false !in oks[..j]
      {
        var p := InstallOnce(tools[missing[j]].name);
        InstallerDone(p, oks[j]);
        Finally(p);
        assert oks[..j + 1] == oks[..j] + [oks[j]];
        if !oks[j] {
          return j + 1, false;
        }
      }
      assert oks[..|oks|] == oks;
      return |missing|, true;
    }

    /** The routine of a worker that no other overlaps, given the answers it gets: `present` of
        the first loop, `oks` of its installers and `again` of the second loop. It installs the
        missing tools in list order and stops at the first installer that fails. */
    method EnsurePackageManagerForTools(tools: seq<Tool>, asks: bool, proceed: bool,
                                        present: seq<bool>, oks: seq<bool>, again: seq<bool>)
      returns (outcome: Outcome)
      requires ValidInstalls(Now()) && inFlight == map[]
      requires |present| == |tools| && |oks| == |again| == |Failing(present)|
      modifies this
      ensures inFlight == map[]
      ensures outcome.Unavailable? <==> Failing(present) != [] && asks && !proceed
      ensures outcome.Unavailable? ==> installs == old(installs)
      ensures outcome.InstallerFailed? ==>
        && 0 < outcome.ended <= |oks| && !oks[outcome.ended - 1] && false !in oks[..outcome.ended - 1]
        && Installed(old(installs), tools, Failing(present), oks, outcome.ended)
      ensures outcome.Ready? || outcome.NotOnPath? ==>
        Installed(old(installs), tools, Failing(present), oks, |oks|) && false !in oks
      ensures outcome.Ready? ==> false !in again
      ensures outcome.NotOnPath? ==> outcome.positions == Failing(again) != []
    {
      var missing := CheckAll(present);
      if |missing| == 0 {
        return Ready;
      }
      if asks && !proceed {
        return Unavailable;
      }
      FailingBelow(present);
      var ended, ok := InstallAll(tools, missing, oks);
      if !ok {
        return InstallerFailed(ended);
      }
      var stillMissing := CheckAll(again);
      FailingPositions(again);
      if |stillMissing| > 0 {
        return NotOnPath(stillMissing);
      }
      return Ready;
    }

    /** What was there before, then the first `n` missing tools, in order, as they ended. */
    ghost predicate Installed(before: seq<Install>, tools: seq<Tool>, missing: seq<nat>, oks: seq<bool>, n: nat)
      reads this
    {
      && n <= |missing| && n <= |oks| && (forall j :: 0 <= j < n ==> missing[j] < |tools|)
      && installs == before + seq(n, j requires 0 <= j < n => Install(tools[missing[j]].name, Settled(oks[j])))
    }
  }
}
