/** The throttled latest-line row of both running screens
    (src/commands/deploy/DeployScreen.tsx, src/commands/decentralize/DecentralizeScreen.tsx). */
module ThrottledLog {
  import opened Options

  const INFO_THROTTLE_MS := 100
  const INFO_MAX_LEN := 160
  const ELLIPSIS := '\U{2026}'

  function Cut(line: string): (cut: string)
    ensures |cut| <= INFO_MAX_LEN
    ensures |line| <= INFO_MAX_LEN ==> cut == line
    ensures |line| > INFO_MAX_LEN ==>
      |cut| == INFO_MAX_LEN && cut[INFO_MAX_LEN - 1] == ELLIPSIS && cut[..INFO_MAX_LEN - 1] <= line
  {
    if |line| > INFO_MAX_LEN then line[..INFO_MAX_LEN - 1] + [ELLIPSIS] else line
  }

  /** A timer the event loop still holds. */
  datatype Timer = Timer(id: nat, due: nat)

  /** A displayed update: when, what, and how many lines had been queued by then. */
  datatype Update = Update(at: nat, text: string, upto: nat)

  /** `pending` and `timer` are the screen's two refs; `timers` is what the event loop holds;
      `queued` and `updates` record the history. */
  datatype State = State(
    clock: nat, mounted: bool, pending: Option<string>, timer: Option<nat>, shown: Option<string>,
    timers: seq<Timer>, created: nat, queued: seq<string>, updates: seq<Update>)

  const START := State(0, true, None, None, None, [], 0, [], [])

  datatype Event = Wait(ms: nat) | Queue(line: string) | Fire(index: nat) | Unmount

  function SetLatestLog(s: State, text: string): State {
    if s.mounted then
      s.(shown := Some(text), updates := s.updates + [Update(s.clock, text, |s.queued|)])
    else s
  }

  function Flush(s: State): State {
    var t := if s.pending.Some? then SetLatestLog(s, s.pending.value).(pending := None) else s;
    t.(timer := None)
  }

  function QueueLog(s: State, line: string): State {
    var t := s.(pending := Some(Cut(line)), queued := s.queued + [line]);
    if s.timer.Some? then t
    else
      t.(timer := Some(s.created), created := s.created + 1,
         timers := s.timers + [Timer(s.created, s.clock + INFO_THROTTLE_MS)])
  }

  function Without(timers: seq<Timer>, id: nat): seq<Timer> {
    if timers == [] then []
    else if timers[0].id == id then Without(timers[1..], id)
    else [timers[0]] + Without(timers[1..], id)
  }

  function UnmountScreen(s: State): State {
    if s.timer.Some? then
      s.(mounted := false, timers := Without(s.timers, s.timer.value), timer := None)
    else s.(mounted := false)
  }

  /** A timer fires at its time or later; the event loop then forgets it. */
  function Step(s: State, e: Event): State {
    match e
    case Wait(ms) => s.(clock := s.clock + ms)
    case Queue(line) => QueueLog(s, line)
    case Fire(i) =>
      if i < |s.timers| && s.timers[i].due <= s.clock then
        Flush(s.(timers := s.timers[..i] + s.timers[i + 1..]))
      else s
    case Unmount => UnmountScreen(s)
  }

  function Run(events: seq<Event>): State {
    if events == [] then START else Step(Run(events[..|events| - 1]), events[|events| - 1])
  }

  // ---------- What every run keeps ----------

  function LastQueued(s: State): Option<string> {
    if s.queued == [] then None else Some(Cut(s.queued[|s.queued| - 1]))
  }

  /** The event loop holds the timer of the ref and no other, due within an interval, and a timer
      always has a line to show. */
  predicate OneTimer(s: State) {
    match s.timer
    case None => s.timers == []
    case Some(id) =>
      && |s.timers| == 1 && s.timers[0].id == id && s.timers[0].due <= s.clock + INFO_THROTTLE_MS
      && s.pending.Some?
  }

  /** What waits is the last line; with no timer on a live screen, it is what is shown. */
  predicate ShowsLast(s: State) {
    && (s.mounted && s.timer.None? ==> s.shown == LastQueued(s) && s.pending.None?)
    && (s.timer.Some? ==> s.pending == LastQueued(s))
  }

  ghost predicate Sampled(queued: seq<string>, u: Update) {
    0 < u.upto <= |queued| && u.text == Cut(queued[u.upto - 1])
  }

  /** The updates are samples of the queue, at increasing places and spaced in time. */
  ghost predicate Spaced(s: State) {
    && (forall i :: 0 <= i < |s.updates| ==> Sampled(s.queued, s.updates[i]) && s.updates[i].at <= s.clock)
    && (forall i, j :: 0 <= i < j < |s.updates| ==>
          s.updates[i].upto < s.updates[j].upto && s.updates[i].at + INFO_THROTTLE_MS <= s.updates[j].at)
  }

  /** An armed timer is due an interval after the last update, and after a line that it did not
      show. */
  ghost predicate NextIsLater(s: State) {
    s.timer.Some? ==>
      forall i :: 0 <= i < |s.updates| && |s.timers| == 1 ==>
        s.updates[i].at + INFO_THROTTLE_MS <= s.timers[0].due && s.updates[i].upto < |s.queued|
  }

  ghost predicate Good(s: State) {
    OneTimer(s) && ShowsLast(s) && Spaced(s) && NextIsLater(s)
  }

  lemma QueueKeeps(s: State, line: string)
    requires Good(s)
    ensures Good(QueueLog(s, line))
  {
    var t := QueueLog(s, line);
    forall i | 0 <= i < |t.updates| ensures Sampled(t.queued, t.updates[i]) {
      assert Sampled(s.queued, s.updates[i]);
    }
    if s.timer.None? {
      assert t.timers == [Timer(s.created, s.clock + INFO_THROTTLE_MS)];
    }
  }

  lemma FireKeeps(s: State, i: nat)
    requires Good(s)
    ensures Good(Step(s, Fire(i)))
  {
    var t := Step(s, Fire(i));
    if i < |s.timers| && s.timers[i].due <= s.clock {
      assert t.timers == [];
      if s.mounted {
        OneMoreUpdate(s, t);
      }
    }
  }

  /** The update of a timer that was due: a sample of the last line, an interval after the others. */
  lemma OneMoreUpdate(s: State, t: State)
    requires Good(s) && s.timer.Some? && s.timers[0].due <= s.clock
    requires t.updates == s.updates + [Update(s.clock, s.pending.value, |s.queued|)]
    requires t.queued == s.queued && t.clock == s.clock
    ensures Spaced(t)
  {
    var last := Update(s.clock, s.pending.value, |s.queued|);
    assert Sampled(s.queued, last);
    assert forall i :: 0 <= i < |s.updates| ==> t.updates[i] == s.updates[i];
  }

  lemma UnmountKeeps(s: State)
    requires Good(s)
    ensures Good(UnmountScreen(s))
  {
    if s.timer.Some? {
      assert Without(s.timers[1..], s.timer.value) == [];
    }
  }

  lemma {:induction false} RunKeeps(events: seq<Event>)
    ensures Good(Run(events))
  {
    if events != [] {
      var s := Run(events[..|events| - 1]);
      RunKeeps(events[..|events| - 1]);
      match events[|events| - 1]
      case Wait(_) =>
      case Queue(line) => QueueKeeps(s, line);
      case Fire(i) => FireKeeps(s, i);
      case Unmount => UnmountKeeps(s);
    }
  }

  /** Over every timed run: at most one timer is armed, and on a live screen without one the row
      shows the last line queued, cut. */
  lemma RowCatchesUp(events: seq<Event>)
    ensures var s := Run(events);
      |s.timers| <= 1 && (s.mounted && s.timers == [] ==> s.shown == LastQueued(s))
  {
    RunKeeps(events);
  }

  /** Updates are an interval apart, so `n` of them span `n - 1` intervals; each shows the line
      queued last when it fired, and no line twice. */
  lemma UpdatesAreSpaced(events: seq<Event>, i: nat, j: nat)
    requires i < j < |Run(events).updates|
    ensures var u := Run(events).updates;
      u[i].at + INFO_THROTTLE_MS * (j - i) <= u[j].at && u[i].upto < u[j].upto
    ensures Sampled(Run(events).queued, Run(events).updates[j])
    decreases j - i
  {
    RunKeeps(events);
    if i + 1 < j {
      UpdatesAreSpaced(events, i + 1, j);
    }
  }

  /** From any reached live state, one interval without further lines brings the last line up. */
  lemma SettlesWithinInterval(events: seq<Event>)
    requires Run(events).mounted
    ensures var s := Step(Step(Run(events), Wait(INFO_THROTTLE_MS)), Fire(0));
      s.shown == LastQueued(Run(events)) && s.timers == []
  {
    RunKeeps(events);
    var s := Run(events);
    if s.timer.Some? {
      assert s.timers[..0] + s.timers[1..] == [];
    }
  }

  /** Once a screen is unmounted its row no longer changes, whatever is queued or fires later. */
  lemma {:induction false} UnmountedStaysStill(events: seq<Event>, n: nat)
    requires n <= |events| && !Run(events[..n]).mounted
    ensures !Run(events).mounted
    ensures Run(events).shown == Run(events[..n]).shown && Run(events).updates == Run(events[..n]).updates
  {
    if n < |events| {
      var front := events[..|events| - 1];
      assert front[..n] == events[..n];
      UnmountedStaysStill(front, n);
    } else {
      assert events[..n] == events;
    }
  }

  function QueuedLines(events: seq<Event>): seq<string> {
    if events == [] then []
    else
      var e := events[|events| - 1];
      QueuedLines(events[..|events| - 1]) + if e.Queue? then [e.line] else []
  }

  function Waited(events: seq<Event>): nat {
    if events == [] then 0
    else
      var e := events[|events| - 1];
      Waited(events[..|events| - 1]) + if e.Wait? then e.ms else 0
  }

  /** The screen is live until it is unmounted, and the queue holds every line, in order. */
  lemma {:induction false} HistoryIsRecorded(events: seq<Event>)
    ensures var s := Run(events);
      (s.mounted <==> Unmount !in events) && s.queued == QueuedLines(events) && s.clock == Waited(events)
  {
    if events != [] {
      var front, e := events[..|events| - 1], events[|events| - 1];
      HistoryIsRecorded(front);
      assert events == front + [e];
    }
  }

  // ---------- The screen ----------

  class Screen {
    var clock: nat
    var mounted: bool
    var pendingRef: Option<string>
    var flushTimer: Option<nat>
    var latestLog: Option<string>
    var timers: seq<Timer>
    var created: nat
    ghost var queued: seq<string>
    ghost var updates: seq<Update>

    constructor ()
      ensures Now() == START
    {
      clock, mounted, pendingRef, flushTimer, latestLog := 0, true, None, None, None;
      timers, created, queued, updates := [], 0, [], [];
    }

    ghost function Now(): State
      reads this
    {
      State(clock, mounted, pendingRef, flushTimer, latestLog, timers, created, queued, updates)
    }

    method QueueLog(line: string)
      modifies this
      ensures Now() == Step(old(Now()), Queue(line))
    {
      queued := queued + [line];
      pendingRef := Some(if |line| > INFO_MAX_LEN then line[..INFO_MAX_LEN - 1] + [ELLIPSIS] else line);
      if flushTimer.Some? {
        return;
      }
      timers := timers + [Timer(created, clock + INFO_THROTTLE_MS)];
      flushTimer := Some(created);
      created := created + 1;
    }

    method SetLatestLog(text: string)
      modifies this`latestLog, this`updates
      ensures mounted ==> latestLog == Some(text) && updates == old(updates) + [Update(clock, text, |queued|)]
      ensures !mounted ==> latestLog == old(latestLog) && updates == old(updates)
    {
      if mounted {
        latestLog := Some(text);
        updates := updates + [Update(clock, text, |queued|)];
      }
    }

    /** The timer's callback. */
    method Fires(index: nat)
      requires index < |timers| && timers[index].due <= clock
      modifies this
      ensures Now() == Step(old(Now()), Fire(index))
    {
      timers := timers[..index] + timers[index + 1..];
      if pendingRef.Some? {
        SetLatestLog(pendingRef.value);
        pendingRef := None;
      }
      flushTimer := None;
    }

    /** The effect's cleanup. */
    method Cleanup()
      modifies this
      ensures Now() == Step(old(Now()), Unmount)
    {
      mounted := false;
      if flushTimer.Some? {
        timers := Without(timers, flushTimer.value);
        flushTimer := None;
      }
    }
  }
}
