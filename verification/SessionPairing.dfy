/** Session pairing against the statement store (src/utils/auth.ts, src/utils/sessionReset.ts).

    A pairing's channel is a topic fixed by the phone and by the host's device identity. The
    phone, or the host on logout, posts `Disconnected` on a topic; the statement lives for
    seven days, and whenever a session on that topic is initialised the statement is replayed
    and removes it.
 */
module SessionPairing {
  import opened Options

  const TTL := 7 * 24 * 60 * 60

  datatype Topic = Topic(phone: nat, host: nat)

  /** A stored session; `id` tells pairings on one topic apart. */
  datatype Session = Session(topic: Topic, id: nat)

  datatype Statement = Disconnected(topic: Topic, posted: nat)

  /** The host's two files, the store, what the phones remember, and fresh names. */
  datatype State = State(identity: Option<nat>, sessions: seq<Session>, store: set<Statement>,
                         remembered: set<Topic>, now: nat, nextIdentity: nat, nextId: nat)

  const INITIAL := State(None, [], {}, {}, 0, 0, 0)

  /** `Login`: the probe sees stored sessions or misses them, each deletion succeeds or fails,
      and the phone supersedes any of the sessions it remembers before the new one starts.
      `Logout`: the phone is told or not, the session leaves the stored list or, only if the phone
      was not told, stays in it, and each file is unlinked or not. */
  datatype Event =
    | Login(phone: nat, probeSees: bool, identityDeleted: bool, sessionsDeleted: bool, superseded: set<Topic>)
    | PhoneDisconnects(topic: Topic)
    | Logout(notified: bool, dropped: bool, identityUnlinked: bool, sessionsUnlinked: bool)
    | LoadSessions
    | TimePasses(seconds: nat)

  predicate Live(s: State, topic: Topic, statement: Statement) {
    statement.topic == topic && s.now < statement.posted + TTL
  }

  /** A `Disconnected` that a session on the topic would be replayed, however often it was before. */
  predicate Poisoned(s: State, topic: Topic) {
    exists statement :: statement in s.store && Live(s, topic, statement)
  }

  lemma PoisonedByStore(s: State, topic: Topic)
    ensures Poisoned(s, topic) <==> exists x :: x in s.store && x.topic == topic && s.now < x.posted + TTL
  {
    assert forall x :: Live(s, topic, x) <==> x.topic == topic && s.now < x.posted + TTL;
  }

  /** Initialising the stored sessions removes those whose topic is poisoned. */
  function Initialised(s: State, sessions: seq<Session>): seq<Session> {
    if sessions == [] then []
    else (if Poisoned(s, sessions[0].topic) then [] else [sessions[0]]) + Initialised(s, sessions[1..])
  }

  function Post(s: State, topics: set<Topic>): State {
    s.(store := s.store + set t | t in topics :: Disconnected(t, s.now))
  }

  /** The session every flow operates on: the last one stored. */
  function NewestSession(sessions: seq<Session>): Session
    requires sessions != []
  {
    sessions[|sessions| - 1]
  }

  predicate Enabled(s: State, e: Event) {
    match e
    case Login(phone, _, _, _, superseded) =>
      superseded <= s.remembered && forall t :: t in superseded ==> t.phone == phone
    case PhoneDisconnects(topic) => topic in s.remembered
    case Logout(notified, dropped, _, _) => s.sessions != [] && (notified ==> dropped)
    case _ => true
  }

  /** Whether a login finds a session and stops there. */
  predicate AlreadyPaired(s: State, e: Event)
    requires e.Login?
  {
    e.probeSees && Initialised(s, s.sessions) != []
  }

  /** The host identity a fresh pairing uses: the stored one unless it was deleted. */
  function PairingIdentity(s: State, e: Event): nat
    requires e.Login?
  {
    if s.identity.None? || e.identityDeleted then s.nextIdentity else s.identity.value
  }

  function NewSession(s: State, e: Event): Session
    requires e.Login?
  {
    Session(Topic(e.phone, PairingIdentity(s, e)), s.nextId)
  }

  /** The stored sessions a fresh pairing adds its own to. */
  function KeptSessions(s: State, e: Event): seq<Session>
    requires e.Login?
  {
    if e.sessionsDeleted then [] else s.sessions
  }

  /** The state when a fresh pairing has been stored but not yet initialised. */
  function Stored(s: State, e: Event): State
    requires e.Login?
  {
    var host := PairingIdentity(s, e);
    Post(s, e.superseded).(
      identity := Some(host),
      sessions := KeptSessions(s, e) + [NewSession(s, e)],
      nextIdentity := if host == s.nextIdentity then s.nextIdentity + 1 else s.nextIdentity,
      nextId := s.nextId + 1,
      remembered := s.remembered - e.superseded + {NewSession(s, e).topic})
  }

  function Step(s: State, e: Event): State
    requires Enabled(s, e)
  {
    match e
    case Login(_, _, _, _, _) =>
      if AlreadyPaired(s, e) then s.(sessions := Initialised(s, s.sessions))
      else Stored(s, e).(sessions := Initialised(Stored(s, e), Stored(s, e).sessions))
    case PhoneDisconnects(topic) =>
      Post(s, {topic}).(remembered := s.remembered - {topic})
    case Logout(notified, dropped, identityUnlinked, sessionsUnlinked) =>
      var session := NewestSession(s.sessions);
      var t := if notified then Post(s, {session.topic}) else s;
      t.(identity := if identityUnlinked then None else s.identity,
         sessions := if sessionsUnlinked then []
                     else if dropped then s.sessions[..|s.sessions| - 1]
                     else s.sessions)
    case LoadSessions =>
      s.(sessions := Initialised(s, s.sessions))
    case TimePasses(seconds) =>
      s.(now := s.now + seconds)
  }

  // ---------- Histories ----------

  /** Identities and topics in use are older than the next fresh identity. */
  ghost predicate Valid(s: State) {
    && (s.identity.Some? ==> s.identity.value < s.nextIdentity)
    && (forall x :: x in s.store ==> x.topic.host < s.nextIdentity && x.posted <= s.now)
    && (forall t :: t in s.remembered ==> t.host < s.nextIdentity)
    && (forall x :: x in s.sessions ==> x.topic.host < s.nextIdentity && x.id < s.nextId)
  }

  lemma {:induction false} InitialisedFacts(s: State, sessions: seq<Session>)
    ensures forall x :: x in Initialised(s, sessions) <==> x in sessions && !Poisoned(s, x.topic)
  {
    if sessions != [] {
      InitialisedFacts(s, sessions[1..]);
      assert sessions == [sessions[0]] + sessions[1..];
    }
  }

  /** The last session stays last if its topic is clean. */
  lemma {:induction false} InitialisedLast(s: State, sessions: seq<Session>, last: Session)
    ensures Initialised(s, sessions + [last]) ==
      Initialised(s, sessions) + (if Poisoned(s, last.topic) then [] else [last])
  {
    if sessions == [] {
      assert [] + [last] == [last];
    } else {
      InitialisedLast(s, sessions[1..], last);
      assert (sessions + [last])[1..] == sessions[1..] + [last];
    }
  }

  lemma StoredValid(s: State, e: Event)
    requires Valid(s) && e.Login? && Enabled(s, e)
    ensures Valid(Stored(s, e))
  {
  }

  lemma StepKeepsValid(s: State, e: Event)
    requires Valid(s) && Enabled(s, e)
    ensures Valid(Step(s, e))
  {
    InitialisedFacts(s, s.sessions);
    if e.Login? {
      StoredValid(s, e);
      InitialisedFacts(Stored(s, e), Stored(s, e).sessions);
    }
  }

  ghost predicate Runnable(s: State, es: seq<Event>)
    decreases |es|
  {
    es == [] || (Enabled(s, es[0]) && Runnable(Step(s, es[0]), es[1..]))
  }

  ghost function Run(s: State, es: seq<Event>): State
    requires Runnable(s, es)
    decreases |es|
  {
    if es == [] then s else Run(Step(s, es[0]), es[1..])
  }

  lemma {:induction false} RunKeepsValid(s: State, es: seq<Event>)
    requires Valid(s) && Runnable(s, es)
    ensures Valid(Run(s, es))
    decreases |es|
  {
    if es != [] {
      StepKeepsValid(s, es[0]);
      RunKeepsValid(Step(s, es[0]), es[1..]);
    }
  }

  // ---------- Which pairings survive ----------

  /** What the login command reports: the newest session it then finds stored, if any. */
  function LoginOutcome(t: State): Option<Session> {
    if t.sessions == [] then None else Some(NewestSession(t.sessions))
  }

  /** A fresh pairing survives its own start, and is the session every flow then uses, exactly
      when no `Disconnected` is alive on its topic: none from before and none from the phone
      superseding a session on that very topic. */
  lemma PairingSurvivesIff(s: State, e: Event)
    requires Valid(s) && e.Login? && Enabled(s, e) && !AlreadyPaired(s, e)
    ensures var paired := NewSession(s, e);
      var clean := !Poisoned(s, paired.topic) && paired.topic !in e.superseded;
      && (paired in Step(s, e).sessions <==> clean)
      && (LoginOutcome(Step(s, e)) == Some(paired) <==> clean)
  {
    var t, paired := Stored(s, e), NewSession(s, e);
    InitialisedLast(t, KeptSessions(s, e), paired);
    InitialisedFacts(t, KeptSessions(s, e));
    InitialisedFacts(t, t.sessions);
    assert paired !in s.sessions;
    var here := Disconnected(paired.topic, s.now);
    if paired.topic in e.superseded {
      assert here in t.store && Live(t, paired.topic, here);
    }
    if Poisoned(s, paired.topic) {
      var x :| x in s.store && Live(s, paired.topic, x);
      assert x in t.store && Live(t, paired.topic, x);
    }
    if Poisoned(t, paired.topic) {
      var x :| x in t.store && Live(t, paired.topic, x);
      assert x in s.store ==> Live(s, paired.topic, x);
    }
  }

  /** After any history, a login whose rotation deleted the identity, or that found none, is on
      a topic no statement was ever posted on: it survives and is the newest session. */
  lemma RotationSurvives(es: seq<Event>, e: Event)
    requires Runnable(INITIAL, es) && e.Login? && Enabled(Run(INITIAL, es), e)
    requires !AlreadyPaired(Run(INITIAL, es), e)
    requires e.identityDeleted || Run(INITIAL, es).identity.None?
    ensures var s := Run(INITIAL, es);
      && LoginOutcome(Step(s, e)) == Some(NewSession(s, e))
      && forall x :: x in Step(s, e).store ==> x.topic != NewSession(s, e).topic
  {
    RunKeepsValid(INITIAL, es);
    PairingSurvivesIff(Run(INITIAL, es), e);
  }

  /** A login with a stored identity whose topic the phone has closed, or closes now. */
  predicate OnClosedTopic(s: State, e: Event)
    requires e.Login?
  {
    s.identity.Some? &&
    (Poisoned(s, Topic(e.phone, s.identity.value)) || Topic(e.phone, s.identity.value) in e.superseded)
  }

  /** There the same login loses the new session without rotation and keeps it with. */
  lemma RepairingNeedsRotation(s: State, e: Event)
    requires Valid(s) && e.Login? && Enabled(s, e) && !AlreadyPaired(s, e) && OnClosedTopic(s, e)
    ensures var kept, rotated := e.(identityDeleted := false), e.(identityDeleted := true);
      && NewSession(s, kept) !in Step(s, kept).sessions
      && LoginOutcome(Step(s, rotated)) == Some(NewSession(s, rotated))
  {
    PairingSurvivesIff(s, e.(identityDeleted := false));
    PairingSurvivesIff(s, e.(identityDeleted := true));
  }

  /** Such logins happen before any statement was posted: pair, and pair again with the same phone,
      which then supersedes the session it remembers. The second login pairs afresh because its probe
      misses the stored session, or because a logout that reached neither the phone nor the identity
      file has removed it. */
  lemma RepairingHistory(probeSees: bool) returns (es: seq<Event>, e: Event)
    ensures Runnable(INITIAL, es) && e.Login? && e.probeSees == probeSees && Enabled(Run(INITIAL, es), e)
    ensures !AlreadyPaired(Run(INITIAL, es), e) && OnClosedTopic(Run(INITIAL, es), e)
    ensures Run(INITIAL, es).store == {}
  {
    var topic := Topic(0, 0);
    var pair, logout := Login(0, true, true, true, {}), Logout(false, false, false, true);
    e := Login(0, probeSees, false, true, {topic});
    assert Initialised(INITIAL, []) == [];
    var a := Step(INITIAL, pair);
    PairingSurvivesIff(INITIAL, pair);
    assert a.sessions != [] && a.store == {} && a.remembered == {topic} && a.identity == Some(0);
    if probeSees {
      es := [pair, logout];
      var b := Step(a, logout);
      assert Initialised(b, []) == [] && es[1..] == [logout] && [logout][1..] == [];
      assert Runnable(b, [logout][1..]) && Run(b, [logout][1..]) == b;
      assert Runnable(a, [logout]) && Run(a, [logout]) == Step(a, logout);
    } else {
      es := [pair];
    }
  }

  // ---------- Which sessions are stored ----------

  /** The event removes the session if it is stored. */
  predicate Removes(s: State, e: Event, x: Session)
    requires Enabled(s, e)
  {
    match e
    case Login(_, _, _, sessionsDeleted, _) =>
      Poisoned(Step(s, e), x.topic) || (sessionsDeleted && !AlreadyPaired(s, e))
    case LoadSessions => Poisoned(s, x.topic)
    case Logout(_, dropped, _, sessionsUnlinked) =>
      sessionsUnlinked || (dropped && x == NewestSession(s.sessions))
    case _ => false
  }

  /** The event pairs the session and leaves it stored. */
  predicate Adds(s: State, e: Event, x: Session)
    requires Enabled(s, e)
  {
    e.Login? && !AlreadyPaired(s, e) && x == NewSession(s, e) && !Poisoned(Step(s, e), x.topic)
  }

  /** Later pairings have larger ids, so no two sessions are one. */
  ghost predicate InOrder(s: State) {
    && (forall i, j :: 0 <= i < j < |s.sessions| ==> s.sessions[i].id < s.sessions[j].id)
    && (forall x :: x in s.sessions ==> x.id < s.nextId)
  }

  ghost predicate Ascending(sessions: seq<Session>) {
    forall i, j :: 0 <= i < j < |sessions| ==> sessions[i].id < sessions[j].id
  }

  lemma {:induction false} InitialisedAscends(s: State, sessions: seq<Session>)
    requires Ascending(sessions)
    ensures Ascending(Initialised(s, sessions))
  {
    if sessions != [] {
      var first, rest := sessions[0], sessions[1..];
      InitialisedAscends(s, rest);
      InitialisedFacts(s, rest);
      forall i | 0 <= i < |Initialised(s, rest)| ensures first.id < Initialised(s, rest)[i].id {
        assert Initialised(s, rest)[i] in rest;
      }
    }
  }

  lemma StepKeepsOrder(s: State, e: Event)
    requires InOrder(s) && Enabled(s, e)
    ensures InOrder(Step(s, e))
  {
    InitialisedAscends(s, s.sessions);
    InitialisedFacts(s, s.sessions);
    if e.Login? {
      StoredInOrder(s, e);
      InitialisedAscends(Stored(s, e), Stored(s, e).sessions);
      InitialisedFacts(Stored(s, e), Stored(s, e).sessions);
    }
  }

  lemma StoredInOrder(s: State, e: Event)
    requires InOrder(s) && e.Login? && Enabled(s, e)
    ensures InOrder(Stored(s, e))
  {
  }

  lemma SamePoison(s: State, t: State, topic: Topic)
    requires s.store == t.store && s.now == t.now
    ensures Poisoned(s, topic) <==> Poisoned(t, topic)
  {
    assert forall x :: Live(s, topic, x) <==> Live(t, topic, x);
  }

  lemma StepStores(s: State, e: Event, x: Session)
    requires InOrder(s) && Enabled(s, e)
    ensures x in Step(s, e).sessions <==> (x in s.sessions && !Removes(s, e, x)) || Adds(s, e, x)
  {
    match e
    case Login(_, _, _, _, _) =>
      if AlreadyPaired(s, e) {
        InitialisedFacts(s, s.sessions);
        SamePoison(s, Step(s, e), x.topic);
      } else {
        InitialisedFacts(Stored(s, e), Stored(s, e).sessions);
        SamePoison(Stored(s, e), Step(s, e), x.topic);
      }
    case LoadSessions => InitialisedFacts(s, s.sessions);
    case Logout(_, _, _, _) => DropLast(s.sessions, x);
    case _ =>
  }

  lemma DropLast(sessions: seq<Session>, x: Session)
    requires sessions != [] && forall i, j :: 0 <= i < j < |sessions| ==> sessions[i].id < sessions[j].id
    ensures x in sessions[..|sessions| - 1] <==> x in sessions && x != NewestSession(sessions)
  {
    assert sessions == sessions[..|sessions| - 1] + [NewestSession(sessions)];
  }

  ghost predicate StaysThrough(s: State, es: seq<Event>, x: Session)
    requires Runnable(s, es)
    decreases |es|
  {
    es == [] || (!Removes(s, es[0], x) && StaysThrough(Step(s, es[0]), es[1..], x))
  }

  ghost predicate AddedAndStays(s: State, es: seq<Event>, x: Session)
    requires Runnable(s, es)
    decreases |es|
  {
    es != [] &&
    ((Adds(s, es[0], x) && StaysThrough(Step(s, es[0]), es[1..], x)) || AddedAndStays(Step(s, es[0]), es[1..], x))
  }

  lemma {:induction false} RunStores(s: State, es: seq<Event>, x: Session)
    requires InOrder(s) && Runnable(s, es)
    ensures InOrder(Run(s, es))
    ensures x in Run(s, es).sessions <==> (x in s.sessions && StaysThrough(s, es, x)) || AddedAndStays(s, es, x)
    decreases |es|
  {
    if es != [] {
      StepKeepsOrder(s, es[0]);
      StepStores(s, es[0], x);
      RunStores(Step(s, es[0]), es[1..], x);
    }
  }

  /** After any history the stored sessions are those that some login paired and that nothing has
      removed since: no initialisation on a poisoned topic, no rotation and no logout. They are in
      the order of their pairings. */
  lemma StoredIff(es: seq<Event>, x: Session)
    requires Runnable(INITIAL, es)
    ensures x in Run(INITIAL, es).sessions <==> AddedAndStays(INITIAL, es, x)
    ensures InOrder(Run(INITIAL, es))
  {
    RunStores(INITIAL, es, x);
  }

  // ---------- Which topics are poisoned ----------

  /** The event makes the phone or the host post `Disconnected` on the topic. */
  predicate Posts(s: State, e: Event, topic: Topic)
    requires Enabled(s, e)
  {
    match e
    case Login(_, _, _, _, superseded) => !AlreadyPaired(s, e) && topic in superseded
    case PhoneDisconnects(t) => t == topic
    case Logout(notified, _, _, _) => notified && NewestSession(s.sessions).topic == topic
    case _ => false
  }

  function Elapsed(es: seq<Event>): nat {
    if es == [] then 0 else (if es[0].TimePasses? then es[0].seconds else 0) + Elapsed(es[1..])
  }

  /** Some event of the run posts on the topic, less than seven days before the run's end. */
  ghost predicate PostedLately(s: State, es: seq<Event>, topic: Topic)
    requires Runnable(s, es)
    decreases |es|
  {
    es != [] &&
    ((Posts(s, es[0], topic) && Elapsed(es[1..]) < TTL) || PostedLately(Step(s, es[0]), es[1..], topic))
  }

  predicate LiveUntil(store: set<Statement>, topic: Topic, end: nat) {
    exists x :: x in store && x.topic == topic && end < x.posted + TTL
  }

  lemma PostLives(s: State, topics: set<Topic>, topic: Topic, end: nat)
    ensures LiveUntil(Post(s, topics).store, topic, end) <==>
      LiveUntil(s.store, topic, end) || (topic in topics && end < s.now + TTL)
  {
    var here, t := Disconnected(topic, s.now), Post(s, topics);
    assert topic in topics ==> here in t.store;
    forall x | x in s.store ensures x in t.store {
    }
  }

  lemma StepLives(s: State, e: Event, topic: Topic, end: nat)
    requires Enabled(s, e)
    ensures var t := Step(s, e);
      && t.now == s.now + Elapsed([e]) && (Posts(s, e, topic) ==> Elapsed([e]) == 0)
      && (LiveUntil(t.store, topic, end) <==>
            LiveUntil(s.store, topic, end) || (Posts(s, e, topic) && end < s.now + TTL))
  {
    assert [e][1..] == [];
    match e
    case Login(_, _, _, _, superseded) => PostLives(s, superseded, topic, end);
    case PhoneDisconnects(t) => PostLives(s, {t}, topic, end);
    case Logout(_, _, _, _) => PostLives(s, {NewestSession(s.sessions).topic}, topic, end);
    case _ =>
  }

  lemma {:induction false} RunLives(s: State, es: seq<Event>, topic: Topic)
    requires Runnable(s, es)
    ensures Run(s, es).now == s.now + Elapsed(es)
    ensures LiveUntil(Run(s, es).store, topic, Run(s, es).now) <==>
      LiveUntil(s.store, topic, Run(s, es).now) || PostedLately(s, es, topic)
    decreases |es|
  {
    if es != [] {
      RunLives(Step(s, es[0]), es[1..], topic);
      assert [es[0]][1..] == [];
      StepLives(s, es[0], topic, Run(s, es).now);
    }
  }

  /** After any history a topic is poisoned exactly when the phone disconnected or superseded a session
      there, or a logout reached it, less than seven days ago. */
  lemma PoisonedIff(es: seq<Event>, topic: Topic)
    requires Runnable(INITIAL, es)
    ensures Poisoned(Run(INITIAL, es), topic) <==> PostedLately(INITIAL, es, topic)
  {
    RunLives(INITIAL, es, topic);
    var t := Run(INITIAL, es);
    assert Poisoned(t, topic) <==> LiveUntil(t.store, topic, t.now) by {
      assert forall x :: Live(t, topic, x) <==> x.topic == topic && t.now < x.posted + TTL;
    }
  }

  /** So after any history a fresh pairing survives, and is the session then used, exactly when that
      is not so of its topic and the phone does not supersede a session there now. */
  lemma PairingSurvivesHistory(es: seq<Event>, e: Event)
    requires Runnable(INITIAL, es) && e.Login? && Enabled(Run(INITIAL, es), e)
    requires !AlreadyPaired(Run(INITIAL, es), e)
    ensures var s := Run(INITIAL, es);
      LoginOutcome(Step(s, e)) == Some(NewSession(s, e)) <==>
        !PostedLately(INITIAL, es, NewSession(s, e).topic) && NewSession(s, e).topic !in e.superseded
  {
    RunKeepsValid(INITIAL, es);
    PairingSurvivesIff(Run(INITIAL, es), e);
    PoisonedIff(es, NewSession(Run(INITIAL, es), e).topic);
  }

  /** The event posts nothing on the topic and drops no session that is alive. */
  ghost predicate Spares(topic: Topic, e: Event) {
    match e
    case Login(_, probeSees, _, _, superseded) => probeSees
    case PhoneDisconnects(t) => t != topic
    case Logout(_, _, _, _) => false
    case _ => true
  }

  /** A surviving session stays the one every flow uses, through any number of commands, days and
      logins whose probe sees it, until the phone disconnects it or the user logs out. A login
      whose probe misses it rotates and replaces it. */
  lemma {:induction false} SurvivorStays(s: State, session: Session, es: seq<Event>)
    requires Runnable(s, es) && LoginOutcome(s) == Some(session) && !Poisoned(s, session.topic)
    requires forall i :: 0 <= i < |es| ==> Spares(session.topic, es[i])
    ensures LoginOutcome(Run(s, es)) == Some(session) && !Poisoned(Run(s, es), session.topic)
    decreases |es|
  {
    if es != [] {
      var e, t := es[0], Step(s, es[0]);
      var n := |s.sessions| - 1;
      InitialisedLast(s, s.sessions[..n], session);
      assert s.sessions == s.sessions[..n] + [session];
      assert Initialised(s, s.sessions) != [];
      assert !Poisoned(t, session.topic) by {
        forall x | x in t.store
          ensures !Live(t, session.topic, x)
        {
          assert x in s.store ==> !Live(s, session.topic, x);
        }
      }
      SurvivorStays(t, session, es[1..]);
    }
  }

  // ---------- The host ----------

  /** The host's side: its two files, with the store and the phones as its surroundings. */
  class Host {
    var identity: Option<nat>
    var sessions: seq<Session>
    var store: set<Statement>
    var remembered: set<Topic>
    var now: nat
    var nextIdentity: nat
    var nextId: nat

    ghost function Now(): State
      reads this
    {
      State(identity, sessions, store, remembered, now, nextIdentity, nextId)
    }

    constructor ()
      ensures Now() == INITIAL
    {
      identity, sessions, store, remembered, now, nextIdentity, nextId := None, [], {}, {}, 0, 0, 0;
    }

    /** Initialises the stored sessions; a replayed `Disconnected` removes its session. */
    method InitSessions()
      modifies this`sessions
      ensures sessions == Initialised(old(Now()), old(sessions))
    {
      var kept := [];
      for i := 0 to |sessions|
        invariant Now() == old(Now())
        invariant kept + Initialised(Now(), sessions[i..]) == Initialised(Now(), sessions)
      {
        var topic := sessions[i].topic;
        PoisonedByStore(Now(), topic);
        assert sessions[i..] == [sessions[i]] + sessions[i + 1..];
        if !exists x :: x in store && x.topic == topic && now < x.posted + TTL {
          kept := kept + [sessions[i]];
        }
      }
      sessions := kept;
    }

    /** Uses the newest stored session, or rotates and pairs afresh. The outcome is the
        session later commands use; `None` is a login that succeeded and left no session. */
    method Login(phone: nat, probeSees: bool, identityDeleted: bool, sessionsDeleted: bool, superseded: set<Topic>)
      returns (outcome: Option<Session>)
      requires Valid(Now())
      requires Enabled(Now(), Event.Login(phone, probeSees, identityDeleted, sessionsDeleted, superseded))
      modifies this
      ensures Valid(Now()) && outcome == LoginOutcome(Now())
      ensures Now() == Step(old(Now()), Event.Login(phone, probeSees, identityDeleted, sessionsDeleted, superseded))
    {
      ghost var s, e := Now(), Event.Login(phone, probeSees, identityDeleted, sessionsDeleted, superseded);
      StepKeepsValid(s, e);
      if probeSees {
        var stored := sessions;
        InitSessions();
        if sessions != [] {
          return Some(sessions[|sessions| - 1]);
        }
        sessions := stored;
      }
      StorePairing(phone, probeSees, identityDeleted, sessionsDeleted, superseded);
      InitSessions();
      outcome := if sessions == [] then None else Some(sessions[|sessions| - 1]);
    }

    /** Rotation, as far as its deletions succeed, and a pairing on the resulting identity. */
    method StorePairing(phone: nat, ghost probeSees: bool, identityDeleted: bool, sessionsDeleted: bool,
                        superseded: set<Topic>)
      requires Valid(Now())
      modifies this
      ensures Now() == Stored(old(Now()), Event.Login(phone, probeSees, identityDeleted, sessionsDeleted, superseded))
    {
      if identityDeleted {
        identity := None;
      }
      if sessionsDeleted {
        sessions := [];
      }
      if identity == None {
        identity := Some(nextIdentity);
        nextIdentity := nextIdentity + 1;
      }
      store := store + set t | t in superseded :: Disconnected(t, now);
      var paired := Session(Topic(phone, identity.value), nextId);
      nextId := nextId + 1;
      remembered := remembered - superseded + {paired.topic};
      sessions := sessions + [paired];
    }

    /** Tells the phone, if it can be reached, and clears the local files either way. */
    method WaitForLogout(notified: bool, dropped: bool, identityUnlinked: bool, sessionsUnlinked: bool)
      requires Valid(Now()) && sessions != [] && (notified ==> dropped)
      modifies this
      ensures Valid(Now()) && Now() == Step(old(Now()), Logout(notified, dropped, identityUnlinked, sessionsUnlinked))
    {
      StepKeepsValid(Now(), Logout(notified, dropped, identityUnlinked, sessionsUnlinked));
      var session := sessions[|sessions| - 1];
      if notified {
        store := store + {Disconnected(session.topic, now)};
        assert {Disconnected(session.topic, now)} == set t | t in {session.topic} :: Disconnected(t, now);
      }
      if dropped {
        sessions := sessions[..|sessions| - 1];
      }
      if identityUnlinked {
        identity := None;
      }
      if sessionsUnlinked {
        sessions := [];
      }
    }
  }
}
