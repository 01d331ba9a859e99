/** Topping up the product account from the shared dev funder (src/utils/account/drip.ts). */
module Drip {
  const ONE_PAS := 10_000_000_000
  const DRIP_AMOUNT := ONE_PAS
  const DRIP_CAP := 10 * ONE_PAS
  const SOURCE_BUFFER := ONE_PAS

  datatype Outcome =
    | Skipped(balance: nat)
    | Transferred(amount: nat, before: nat)
    | FunderExhausted(free: nat, required: nat)
    | TransferFailed

  /** A call between its awaits: about to read the recipient, the recipient seen below the cap,
      the transfer submitted, or over. */
  datatype Call = Ready | SawLow(seen: nat) | Submitted(low: nat) | Done(outcome: Outcome)

  /** The two balances, what left them, and the calls begun so far. `transfers` counts the
      transfers that landed; `outside` is the net credit to the funder from elsewhere. */
  datatype State = State(
    recipient: nat, funder: nat, fees: nat, spent: nat, outside: int, transfers: nat,
    sameAccount: bool, calls: seq<Call>)

  datatype Event =
    | Begin
    | ReadRecipient(reader: nat)
    | ReadFunder(checker: nat)
    | Lands(lander: nat, fee: nat)
    | Fails(failing: nat, lost: nat)
    | Spend(amount: nat)
    | FunderMoves(credit: int)

  function Count(calls: seq<Call>, p: Call -> bool): (n: nat)
    ensures n <= |calls|
  {
    if calls == [] then 0 else Count(calls[..|calls| - 1], p) + if p(calls[|calls| - 1]) then 1 else 0
  }

  /** Calls that have begun and not ended. */
  function InFlight(s: State): nat {
    Count(s.calls, (c: Call) => !c.Done?)
  }

  /** Calls that may still credit the recipient on the strength of what they read. */
  function Pending(s: State): nat {
    Count(s.calls, (c: Call) => c.SawLow? || c.Submitted?)
  }

  function AfterRecipient(balance: nat, sameAccount: bool): Call {
    if balance >= DRIP_CAP then Done(Skipped(balance))
    else if sameAccount then Done(Skipped(balance))
    else SawLow(balance)
  }

  function AfterFunder(seen: nat, funder: nat): Call {
    var required := DRIP_AMOUNT + SOURCE_BUFFER;
    if funder < required then Done(FunderExhausted(funder, required)) else Submitted(seen)
  }

  /** One step. Calls may overlap, at most `k` at a time; an event that cannot happen in a state
      leaves it as it is. */
  function Step(s: State, e: Event, k: nat): State {
    match e
    case Begin =>
      if InFlight(s) < k then s.(calls := s.calls + [Ready]) else s
    case ReadRecipient(i) =>
      if i < |s.calls| && s.calls[i].Ready? then
        s.(calls := s.calls[i := AfterRecipient(s.recipient, s.sameAccount)])
      else s
    case ReadFunder(i) =>
      if i < |s.calls| && s.calls[i].SawLow? then
        s.(calls := s.calls[i := AfterFunder(s.calls[i].seen, s.funder)])
      else s
    case Lands(i, fee) =>
      if i < |s.calls| && s.calls[i].Submitted? && DRIP_AMOUNT + fee <= s.funder then
        s.(calls := s.calls[i := Done(Transferred(DRIP_AMOUNT, s.calls[i].low))],
           recipient := s.recipient + DRIP_AMOUNT, funder := s.funder - DRIP_AMOUNT - fee,
           fees := s.fees + fee, transfers := s.transfers + 1)
      else s
    case Fails(i, fee) =>
      if i < |s.calls| && s.calls[i].Submitted? && fee <= s.funder then
        s.(calls := s.calls[i := Done(TransferFailed)], funder := s.funder - fee, fees := s.fees + fee)
      else s
    case Spend(amount) =>
      if amount <= s.recipient then
        s.(recipient := s.recipient - amount, spent := s.spent + amount)
      else s
    case FunderMoves(credit) =>
      if 0 <= s.funder + credit then
        s.(funder := s.funder + credit, outside := s.outside + credit)
      else s
  }

  function Run(s: State, events: seq<Event>, k: nat): State {
    if events == [] then s
    else Step(Run(s, events[..|events| - 1], k), events[|events| - 1], k)
  }

  function Fresh(recipient: nat, funder: nat, sameAccount: bool): State {
    State(recipient, funder, 0, 0, 0, 0, sameAccount, [])
  }

  // ---------- Bounds over every run ----------

  lemma {:induction false} CountUpdate(calls: seq<Call>, i: nat, c: Call, p: Call -> bool)
    requires i < |calls|
    ensures Count(calls[i := c], p) + (if p(calls[i]) then 1 else 0) == Count(calls, p) + if p(c) then 1 else 0
  {
    var front, last := calls[..|calls| - 1], calls[|calls| - 1];
    if i < |front| {
      CountUpdate(front, i, c, p);
      assert calls[i := c][..|calls| - 1] == front[i := c];
    } else {
      assert calls[i := c][..|calls| - 1] == front;
    }
  }

  lemma CountSnoc(calls: seq<Call>, c: Call, p: Call -> bool)
    ensures Count(calls + [c], p) == Count(calls, p) + if p(c) then 1 else 0
  {
    assert (calls + [c])[..|calls|] == calls;
  }

  /** What every step keeps: credits still due, counted in, stay under the bound. */
  predicate Bounded(s: State, k: nat) {
    && Pending(s) <= InFlight(s) <= k
    && s.recipient + DRIP_AMOUNT * Pending(s) < DRIP_CAP + DRIP_AMOUNT * k
  }

  lemma CallMoves(s: State, i: nat, c: Call)
    requires i < |s.calls|
    ensures var t := s.(calls := s.calls[i := c]);
      && InFlight(t) + (if s.calls[i].Done? then 0 else 1) == InFlight(s) + (if c.Done? then 0 else 1)
      && Pending(t) + (if s.calls[i].SawLow? || s.calls[i].Submitted? then 1 else 0)
         == Pending(s) + (if c.SawLow? || c.Submitted? then 1 else 0)
  {
    CountUpdate(s.calls, i, c, (c: Call) => !c.Done?);
    CountUpdate(s.calls, i, c, (c: Call) => c.SawLow? || c.Submitted?);
  }

  lemma {:induction false} ReadyIsNotPending(calls: seq<Call>, i: nat)
    requires i < |calls| && calls[i].Ready?
    ensures Count(calls, (c: Call) => c.SawLow? || c.Submitted?) < Count(calls, (c: Call) => !c.Done?)
  {
    PendingIsInFlight(calls[i := Done(TransferFailed)]);
    CountUpdate(calls, i, Done(TransferFailed), (c: Call) => c.SawLow? || c.Submitted?);
    CountUpdate(calls, i, Done(TransferFailed), (c: Call) => !c.Done?);
  }

  lemma {:induction false} PendingIsInFlight(calls: seq<Call>)
    ensures Count(calls, (c: Call) => c.SawLow? || c.Submitted?) <= Count(calls, (c: Call) => !c.Done?)
  {
    if calls != [] {
      PendingIsInFlight(calls[..|calls| - 1]);
    }
  }

  lemma StepKeepsBound(s: State, e: Event, k: nat)
    requires Bounded(s, k)
    ensures Bounded(Step(s, e, k), k)
  {
    match e
    case Begin =>
      CountSnoc(s.calls, Ready, (c: Call) => !c.Done?);
      CountSnoc(s.calls, Ready, (c: Call) => c.SawLow? || c.Submitted?);
    case ReadRecipient(i) => ReadKeepsBound(s, i, k);
    case ReadFunder(i) =>
      if i < |s.calls| && s.calls[i].SawLow? {
        CallMoves(s, i, AfterFunder(s.calls[i].seen, s.funder));
      }
    case Lands(i, fee) => EndKeepsBound(s, i, e, k);
    case Fails(i, fee) => EndKeepsBound(s, i, e, k);
    case Spend(_) =>
    case FunderMoves(_) =>
  }

  lemma ReadKeepsBound(s: State, i: nat, k: nat)
    requires Bounded(s, k)
    ensures Bounded(Step(s, ReadRecipient(i), k), k)
  {
    if i < |s.calls| && s.calls[i].Ready? {
      ReadyIsNotPending(s.calls, i);
      CallMoves(s, i, AfterRecipient(s.recipient, s.sameAccount));
    }
  }

  lemma EndKeepsBound(s: State, i: nat, e: Event, k: nat)
    requires Bounded(s, k)
    requires (e.Lands? && e.lander == i) || (e.Fails? && e.failing == i)
    ensures Bounded(Step(s, e, k), k)
  {
    if i < |s.calls| && s.calls[i].Submitted? {
      CallMoves(s, i, if e.Lands? then Done(Transferred(DRIP_AMOUNT, s.calls[i].low)) else Done(TransferFailed));
    }
  }

  /** With at most `k` calls overlapping, the balance stays under the cap and `k` amounts, however
      calls, spends and other traffic interleave. */
  lemma {:induction false} BalanceStaysUnder(s: State, events: seq<Event>, k: nat)
    requires s.calls == [] && s.recipient < DRIP_CAP + DRIP_AMOUNT * k
    ensures Bounded(Run(s, events, k), k)
    ensures Run(s, events, k).recipient < DRIP_CAP + DRIP_AMOUNT * k
  {
    if events != [] {
      BalanceStaysUnder(s, events[..|events| - 1], k);
      StepKeepsBound(Run(s, events[..|events| - 1], k), events[|events| - 1], k);
    }
  }

  /** Nothing is created or lost: both balances, fees and spending add up to what was there and
      what reached the funder from elsewhere. And the recipient's credits are whole drips. */
  lemma {:induction false} Conserved(s: State, events: seq<Event>, k: nat)
    ensures var t := Run(s, events, k);
      && t.funder + t.recipient + t.fees + t.spent - t.outside == s.funder + s.recipient + s.fees + s.spent - s.outside
      && t.recipient + t.spent == s.recipient + s.spent + DRIP_AMOUNT * (t.transfers - s.transfers)
      && t.sameAccount == s.sameAccount
  {
    if events != [] {
      Conserved(s, events[..|events| - 1], k);
      StepConserves(Run(s, events[..|events| - 1], k), events[|events| - 1], k);
    }
  }

  lemma StepConserves(s: State, e: Event, k: nat)
    ensures var t := Step(s, e, k);
      && t.funder + t.recipient + t.fees + t.spent - t.outside == s.funder + s.recipient + s.fees + s.spent - s.outside
      && t.recipient + t.spent - s.recipient - s.spent == (if t.transfers == s.transfers then 0 else DRIP_AMOUNT)
      && s.transfers <= t.transfers <= s.transfers + 1 && t.sameAccount == s.sameAccount
  {
  }

  /** Without spending, at most nine transfers and one more for each call that may overlap: ten
      when calls follow each other, from an empty account or any other. */
  lemma TransfersWithoutSpending(recipient: nat, funder: nat, events: seq<Event>, k: nat)
    requires k > 0
    ensures var t := Run(Fresh(recipient, funder, false), events, k);
      t.spent == 0 ==> t.transfers <= 9 + k
  {
    var s := Fresh(recipient, funder, false);
    Conserved(s, events, k);
    if recipient < DRIP_CAP + DRIP_AMOUNT * k {
      BalanceStaysUnder(s, events, k);
    } else {
      AboveTheCap(s, events, k);
    }
  }

  /** At or above the cap and without spending, no call gets past its first read. */
  lemma {:induction false} AboveTheCap(s: State, events: seq<Event>, k: nat)
    requires s.calls == [] && s.recipient >= DRIP_CAP
    ensures var t := Run(s, events, k);
      t.spent == s.spent ==> t.transfers == s.transfers && t.recipient == s.recipient && AllIdle(t.calls)
    ensures Run(s, events, k).spent >= s.spent
  {
    if events != [] {
      AboveTheCap(s, events[..|events| - 1], k);
    }
  }

  predicate AllIdle(calls: seq<Call>) {
    forall i :: 0 <= i < |calls| ==> calls[i].Ready? || calls[i].Done?
  }

  /** The dev account never drips to itself. */
  lemma {:induction false} NoSelfTransfer(s: State, events: seq<Event>, k: nat)
    requires s.calls == [] && s.sameAccount
    ensures var t := Run(s, events, k); t.transfers == s.transfers && t.sameAccount && AllIdle(t.calls)
  {
    if events != [] {
      NoSelfTransfer(s, events[..|events| - 1], k);
    }
  }

  // ---------- The bound is exact ----------

  /** `n` calls that all read before any of their transfers lands. */
  function Rush(n: nat): seq<Event> {
    if n == 0 then [] else Rush(n - 1) + [Begin] + [ReadRecipient(n - 1)] + [ReadFunder(n - 1)]
  }

  /** The same, and then `n` of the transfers land. */
  function RushAndLand(k: nat, n: nat): seq<Event> {
    if n == 0 then Rush(k) else RushAndLand(k, n - 1) + [Lands(n - 1, 0)]
  }

  lemma RunSnoc(s: State, events: seq<Event>, e: Event, k: nat)
    ensures Run(s, events + [e], k) == Step(Run(s, events, k), e, k)
  {
    assert (events + [e])[..|events|] == events;
  }

  function Repeat(n: nat, c: Call): (calls: seq<Call>)
    ensures |calls| == n && forall i :: 0 <= i < n ==> calls[i] == c
  {
    seq(n, _ => c)
  }

  lemma {:induction false} CountRepeat(n: nat, c: Call, p: Call -> bool)
    requires p(c)
    ensures Count(Repeat(n, c), p) == n
  {
    if n > 0 {
      CountRepeat(n - 1, c, p);
      assert Repeat(n, c)[..n - 1] == Repeat(n - 1, c);
    }
  }

  lemma {:induction false} RushSubmits(s: State, n: nat, k: nat)
    requires s.calls == [] && !s.sameAccount && n <= k
    requires s.recipient < DRIP_CAP && s.funder >= DRIP_AMOUNT + SOURCE_BUFFER
    ensures Run(s, Rush(n), k) == s.(calls := Repeat(n, Submitted(s.recipient)))
  {
    if n > 0 {
      var before, low := Rush(n - 1), Repeat(n - 1, Submitted(s.recipient));
      RushSubmits(s, n - 1, k);
      CountRepeat(n - 1, Submitted(s.recipient), (c: Call) => !c.Done?);
      RunSnoc(s, before, Begin, k);
      RunSnoc(s, before + [Begin], ReadRecipient(n - 1), k);
      RunSnoc(s, before + [Begin] + [ReadRecipient(n - 1)], ReadFunder(n - 1), k);
      OneSubmits(s.(calls := low), k);
      assert low + [Submitted(s.recipient)] == Repeat(n, Submitted(s.recipient));
    }
  }

  lemma OneSubmits(s: State, k: nat)
    requires InFlight(s) < k && !s.sameAccount
    requires s.recipient < DRIP_CAP && s.funder >= DRIP_AMOUNT + SOURCE_BUFFER
    ensures var i := |s.calls|;
      Step(Step(Step(s, Begin, k), ReadRecipient(i), k), ReadFunder(i), k)
      == s.(calls := s.calls + [Submitted(s.recipient)])
  {
    var i, low := |s.calls|, s.calls;
    assert (low + [Ready])[i := SawLow(s.recipient)] == low + [SawLow(s.recipient)];
    assert (low + [SawLow(s.recipient)])[i := Submitted(s.recipient)] == low + [Submitted(s.recipient)];
  }

  lemma OneLands(s: State, i: nat, k: nat)
    requires i < |s.calls| && s.calls[i].Submitted? && s.funder >= DRIP_AMOUNT
    ensures var t := Step(s, Lands(i, 0), k);
      && t.recipient == s.recipient + DRIP_AMOUNT && t.funder == s.funder - DRIP_AMOUNT
      && |t.calls| == |s.calls| && forall j :: i < j < |s.calls| ==> t.calls[j] == s.calls[j]
  {
  }

  lemma {:induction false} AllLand(s: State, n: nat, k: nat)
    requires s.calls == [] && !s.sameAccount && n <= k
    requires s.recipient < DRIP_CAP && s.funder >= DRIP_AMOUNT + SOURCE_BUFFER && s.funder >= n * DRIP_AMOUNT
    ensures var t := Run(s, RushAndLand(k, n), k);
      && t.recipient == s.recipient + n * DRIP_AMOUNT && t.funder == s.funder - n * DRIP_AMOUNT
      && |t.calls| == k && forall i :: n <= i < k ==> t.calls[i].Submitted?
  {
    if n == 0 {
      RushSubmits(s, k, k);
    } else {
      AllLand(s, n - 1, k);
      RunSnoc(s, RushAndLand(k, n - 1), Lands(n - 1, 0), k);
      var t := Run(s, RushAndLand(k, n - 1), k);
      assert n * DRIP_AMOUNT == (n - 1) * DRIP_AMOUNT + DRIP_AMOUNT;
      OneLands(t, n - 1, k);
    }
  }

  /** The bound cannot be lowered: `k` overlapping calls that start just under the cap end one
      below it. */
  lemma BoundIsReached(k: nat, funder: nat)
    requires k > 0 && funder >= (k + 1) * DRIP_AMOUNT
    ensures Run(Fresh(DRIP_CAP - 1, funder, false), RushAndLand(k, k), k).recipient
      == DRIP_CAP + DRIP_AMOUNT * k - 1
  {
    AllLand(Fresh(DRIP_CAP - 1, funder, false), k, k);
  }

  // ---------- The call ----------

  /** What becomes of a submitted transfer, if the funder can pay for it. */
  datatype Verdict = Finalized(fee: nat) | Rejected(charged: nat)

  /** How the chain settles a call's transfer. One that the funder cannot pay for is invalid, and
      charges nothing. */
  function Settlement(verdict: Verdict, funder: nat): Event {
    match verdict
    case Finalized(fee) => if DRIP_AMOUNT + fee <= funder then Lands(0, fee) else Fails(0, 0)
    case Rejected(fee) => Fails(0, if fee <= funder then fee else 0)
  }

  class Chain {
    var recipient: nat
    var funder: nat
    var fees: nat

    constructor (recipient: nat, funder: nat)
      ensures this.recipient == recipient && this.funder == funder && fees == 0
    {
      this.recipient, this.funder, fees := recipient, funder, 0;
    }

    function Balances(): State
      reads this
    {
      Fresh(recipient, funder, false).(fees := fees)
    }

    method SubmitAndWatch(verdict: Verdict) returns (landed: bool)
      modifies this
      ensures landed <==> Settlement(verdict, old(funder)).Lands?
      ensures recipient == old(recipient) + if landed then DRIP_AMOUNT else 0
      ensures landed ==> funder == old(funder) - DRIP_AMOUNT - verdict.fee && fees == old(fees) + verdict.fee
      ensures !landed ==> var lost := Settlement(verdict, old(funder)).lost;
        funder == old(funder) - lost && fees == old(fees) + lost
    {
      landed := false;
      match verdict
      case Finalized(fee) =>
        if DRIP_AMOUNT + fee <= funder {
          recipient, funder, fees := recipient + DRIP_AMOUNT, funder - DRIP_AMOUNT - fee, fees + fee;
          landed := true;
        }
      case Rejected(fee) =>
        if fee <= funder {
          funder, fees := funder - fee, fees + fee;
        }
    }

    /** A drip that nothing overlaps is one call of the state machine from beginning to end. The
        funder keeps the buffer less the fee, and the recipient ends under cap and amount. */
    method DripToProductAccount(sameAccount: bool, verdict: Verdict) returns (outcome: Outcome)
      modifies this
      ensures var events := [Begin, ReadRecipient(0), ReadFunder(0), Settlement(verdict, old(funder))];
        var s := old(Balances()).(sameAccount := sameAccount);
        var t := Run(s, events, 1);
        recipient == t.recipient && funder == t.funder && fees == t.fees && t.calls == [Done(outcome)]
      ensures outcome.Transferred? <==>
        && old(recipient) < DRIP_CAP && !sameAccount && old(funder) >= DRIP_AMOUNT + SOURCE_BUFFER
        && verdict.Finalized? && DRIP_AMOUNT + verdict.fee <= old(funder)
      ensures outcome.Transferred? ==>
        recipient < DRIP_CAP + DRIP_AMOUNT && funder + verdict.fee >= SOURCE_BUFFER && funder < old(funder)
      ensures outcome.Skipped? || outcome.FunderExhausted? ==> unchanged(this)
      ensures recipient + funder + fees == old(recipient + funder + fees)
    {
      SequentialCall(Balances().(sameAccount := sameAccount), Settlement(verdict, funder));
      var balance := recipient;
      if balance >= DRIP_CAP {
        return Skipped(balance);
      }
      if sameAccount {
        return Skipped(balance);
      }
      var required := DRIP_AMOUNT + SOURCE_BUFFER;
      if funder < required {
        return FunderExhausted(funder, required);
      }
      var landed := SubmitAndWatch(verdict);
      if !landed {
        return TransferFailed;
      }
      return Transferred(DRIP_AMOUNT, balance);
    }
  }

  lemma RunTwo(s: State, events: seq<Event>, a: Event, b: Event, k: nat)
    ensures Run(s, events + [a] + [b], k) == Step(Step(Run(s, events, k), a, k), b, k)
  {
    RunSnoc(s, events, a, k);
    RunSnoc(s, events + [a], b, k);
  }

  /** A single call's run, spelled out. */
  lemma SequentialCall(s: State, last: Event)
    requires s.calls == []
    ensures Run(s, [Begin, ReadRecipient(0), ReadFunder(0), last], 1) ==
      Step(Step(Step(s.(calls := [Ready]), ReadRecipient(0), 1), ReadFunder(0), 1), last, 1)
  {
    var first := [Begin, ReadRecipient(0)];
    RunTwo(s, [], Begin, ReadRecipient(0), 1);
    RunTwo(s, first, ReadFunder(0), last, 1);
    assert [] + [Begin] + [ReadRecipient(0)] == first;
    assert first + [ReadFunder(0)] + [last] == [Begin, ReadRecipient(0), ReadFunder(0), last];
    assert s.calls + [Ready] == [Ready];
  }
}
