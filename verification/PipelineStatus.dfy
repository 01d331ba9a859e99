/** The contract pipeline's status adapter (src/commands/contractPipelineStatus.ts). */
module PipelineStatus {
  import opened Answers
  import opened Options

  const LOG_TAIL_LINES := 5

  datatype CrateState = Waiting | Building | Built | Checking | Cached | Deploying | Done | Error

  datatype Progress = Progress(compiled: nat, total: nat)

  datatype Status = Status(
    crateName: string, state: CrateState, error: Option<string>, address: Option<string>, cid: Option<string>,
    deployTxHash: Option<string>, deployBlockHash: Option<string>, publishTxHash: Option<string>,
    durationMs: Option<nat>, buildProgress: Option<Progress>, bytecodeSize: Option<nat>,
    deployInProgress: bool, publishInProgress: bool, registerInProgress: bool)

  function Fresh(crate: string): Status {
    Status(crate, Waiting, None, None, None, None, None, None, None, None, None, false, false, false)
  }

  type Statuses = map<string, Status>

  /** What an event writes into one crate's status. */
  datatype Change =
    | Start
    | Compile(progress: Progress)
    | Compiled(duration: Option<nat>, size: Option<nat>)
    | FailBuild(buildError: string)
    | UseCached(cachedAt: string)
    | Deploy(registers: bool)
    | Publish
    | Deployed(at: string, tx: string, block: string, took: Option<nat>)
    | Published(under: string, publishTx: string)
    | FailDeploy(deployError: string)

  function Changed(c: Change, s: Status, known: bool): Status {
    match c
    case Start => s.(state := Building)
    case Compile(p) => s.(state := Building, buildProgress := Some(p))
    case Compiled(d, size) =>
      s.(state := Built, durationMs := d, bytecodeSize := size, buildProgress := Some(Progress(1, 1)))
    case FailBuild(e) => s.(state := Error, error := Some(e))
    case UseCached(a) => s.(state := Cached, address := Some(a))
    case Deploy(r) => s.(state := Deploying, deployInProgress := true, registerInProgress := r)
    case Publish => s.(state := Deploying, publishInProgress := true)
    case Deployed(a, tx, block, d) =>
      s.(state := Done, address := Some(a), deployInProgress := false, registerInProgress := false,
         deployTxHash := Some(tx), deployBlockHash := Some(block), durationMs := d)
    case Published(cid, tx) =>
      s.(state := if known then s.state else Done, cid := Some(cid), publishInProgress := false, publishTxHash := Some(tx))
    case FailDeploy(e) =>
      s.(state := Error, error := Some(e), deployInProgress := false, publishInProgress := false,
         registerInProgress := false)
  }

  function Update(m: Statuses, crate: string, c: Change): Statuses {
    m[crate := Changed(c, if crate in m then m[crate] else Fresh(crate), crate in m)]
  }

  function UpdateAll(m: Statuses, changes: seq<(string, Change)>): Statuses {
    if changes == [] then m
    else
      var last := changes[|changes| - 1];
      Update(UpdateAll(m, changes[..|changes| - 1]), last.0, last.1)
  }

  datatype Contract = Contract(name: string, cdmPackage: Option<string>, displayName: Option<string>)

  datatype Phase = Phase(name: string, description: string, layer: Option<int>)

  datatype Event =
    | SetRunError(message: string)
    | SignRequest(prompt: string)
    | SignComplete
    | SignError(reason: string)
    | Detect(contracts: seq<Contract>, layers: seq<seq<string>>)
    | Log(line: string)
    | BuildStart(starting: string)
    | BuildProgress(compiling: string, compiled: nat, total: Option<nat>)
    | BuildDone(builtCrate: string, buildMs: Option<nat>, bytes: Option<nat>)
    | BuildError(broken: string, why: string)
    | CheckCached(cachedCrate: string, cachedAddress: string)
    | CheckNeedsDeploy
    | EnterPhase(phase: Phase)
    | DeployRegisterStart(deploying: seq<string>)
    | PublishStart(publishing: seq<string>)
    | DeployRegisterDone(addresses: seq<(string, Option<string>)>, txHash: string, blockHash: string,
                         durationMs: Option<nat>)
    | PublishDone(cids: seq<(string, string)>, publishTxHash: string)
    | DeployRegisterError(failing: seq<string>, failure: string)
    | PipelineDone(failed: seq<bool>)
    | PipelineError

  datatype State = State(
    statuses: Statuses, logLines: seq<string>, crates: seq<string>, layers: seq<seq<string>>,
    contracts: seq<Contract>, packages: map<string, string>, notices: seq<(string, string)>,
    phase: Option<Phase>, signingPrompt: Option<string>, signingError: Option<string>, runError: Option<string>)

  const START := State(map[], [], [], [], [], map[], [], None, None, None, None)

  predicate Truthy(s: Option<string>) {
    s.Some? && s.value != ""
  }

  function StartChanges(crates: seq<string>, packages: map<string, string>): (c: seq<(string, Change)>)
    ensures |c| == |crates|
  {
    seq(|crates|, i requires 0 <= i < |crates| => (crates[i], Deploy(crates[i] in packages)))
  }

  function SameChange(crates: seq<string>, change: Change): (c: seq<(string, Change)>)
    ensures |c| == |crates|
  {
    seq(|crates|, i requires 0 <= i < |crates| => (crates[i], change))
  }

  /** An entry without an address is skipped. */
  function DoneChange(entry: (string, Option<string>), tx: string, block: string, took: Option<nat>): seq<(string, Change)> {
    if Truthy(entry.1) then [(entry.0, Deployed(entry.1.value, tx, block, took))] else []
  }

  function DoneChanges(addresses: seq<(string, Option<string>)>, tx: string, block: string,
                       took: Option<nat>): seq<(string, Change)>
  {
    if addresses == [] then []
    else
      DoneChanges(addresses[..|addresses| - 1], tx, block, took)
      + DoneChange(addresses[|addresses| - 1], tx, block, took)
  }

  function PublishedChanges(cids: seq<(string, string)>, tx: string): (c: seq<(string, Change)>)
    ensures |c| == |cids|
  {
    seq(|cids|, i requires 0 <= i < |cids| => (cids[i].0, Published(cids[i].1, tx)))
  }

  /** The changes an event makes, in order. */
  function Changes(s: State, e: Event): seq<(string, Change)> {
    match e
    case BuildStart(crate) => [(crate, Start)]
    case BuildProgress(crate, compiled, total) =>
      [(crate, Compile(Progress(compiled, if total.Some? then total.value else 0)))]
    case BuildDone(crate, ms, bytes) => [(crate, Compiled(ms, bytes))]
    case BuildError(crate, why) => [(crate, FailBuild(why))]
    case CheckCached(crate, address) => [(crate, UseCached(address))]
    case DeployRegisterStart(crates) => StartChanges(crates, s.packages)
    case PublishStart(crates) => SameChange(crates, Publish)
    case DeployRegisterDone(addresses, tx, block, took) => DoneChanges(addresses, tx, block, took)
    case PublishDone(cids, tx) => PublishedChanges(cids, tx)
    case DeployRegisterError(crates, failure) =>
      SameChange(crates, FailDeploy(if s.signingError.Some? then s.signingError.value else failure))
    case _ => []
  }

  function AddWaiting(m: Statuses, crates: seq<string>): Statuses {
    if crates == [] then m
    else
      var front, last := AddWaiting(m, crates[..|crates| - 1]), crates[|crates| - 1];
      if last in front then front else front[last := Fresh(last)]
  }

  function Flatten(layers: seq<seq<string>>): seq<string> {
    if layers == [] then [] else Flatten(layers[..|layers| - 1]) + layers[|layers| - 1]
  }

  function Packages(m: map<string, string>, contracts: seq<Contract>): map<string, string> {
    if contracts == [] then m
    else
      var front, last := Packages(m, contracts[..|contracts| - 1]), contracts[|contracts| - 1];
      if Truthy(last.cdmPackage) then front[last.name := last.cdmPackage.value] else front
  }

  function Notice(c: Contract): seq<(string, string)> {
    if Truthy(c.cdmPackage) then [(c.name, c.cdmPackage.value)]
    else if Truthy(c.displayName) && c.displayName.value != c.name then [(c.name, c.displayName.value)]
    else []
  }

  function Notices(contracts: seq<Contract>): seq<(string, string)> {
    if contracts == [] then [] else Notices(contracts[..|contracts| - 1]) + Notice(contracts[|contracts| - 1])
  }

  function Detected(s: State, contracts: seq<Contract>, layers: seq<seq<string>>): State {
    s.(statuses := AddWaiting(s.statuses, Flatten(layers)), crates := Flatten(layers), layers := layers,
       contracts := contracts, packages := Packages(s.packages, contracts), notices := s.notices + Notices(contracts))
  }

  /** The last five of a list. */
  function Tail(lines: seq<string>): seq<string> {
    if |lines| <= LOG_TAIL_LINES then lines else lines[|lines| - LOG_TAIL_LINES..]
  }

  function AppendLog(lines: seq<string>, line: string): seq<string> {
    if line == "" then lines else Tail(lines + [line])
  }

  /** The fields besides the statuses. `clean` strips control sequences and trailing space. */
  function Rest(s: State, e: Event, clean: string -> string): State {
    match e
    case SetRunError(m) => if s.runError.None? then s.(runError := Some(m)) else s
    case SignRequest(p) => s.(signingPrompt := Some(p), signingError := None)
    case SignComplete => s.(signingPrompt := None)
    case SignError(m) => s.(signingPrompt := None, signingError := Some(m))
    case Detect(contracts, layers) => Detected(s, contracts, layers)
    case Log(line) => s.(logLines := AppendLog(s.logLines, clean(line)))
    case EnterPhase(p) => s.(phase := Some(p))
    case DeployRegisterStart(_) => s.(signingError := None)
    case PipelineDone(failed) =>
      s.(phase := Some(Phase("done", "Pipeline complete", None)), logLines := if true in failed then s.logLines else [])
    case PipelineError => s.(phase := Some(Phase("done", "Pipeline failed", None)))
    case _ => s
  }

  function Step(s: State, e: Event, clean: string -> string): State {
    var t := Rest(s, e, clean);
    t.(statuses := UpdateAll(t.statuses, Changes(s, e)))
  }

  function Run(events: seq<Event>, clean: string -> string): State {
    if events == [] then START
    else Step(Run(events[..|events| - 1], clean), events[|events| - 1], clean)
  }

  // ---------- The log tail and the errors, read off the history ----------

  /** Every cleaned line that is not empty since the log was last cleared. */
  function LinesSinceClear(events: seq<Event>, clean: string -> string): seq<string> {
    if events == [] then []
    else
      var before := LinesSinceClear(events[..|events| - 1], clean);
      match events[|events| - 1]
      case Log(line) => if clean(line) == "" then before else before + [clean(line)]
      case PipelineDone(failed) => if true in failed then before else []
      case _ => before
  }

  lemma TailSnoc(lines: seq<string>, line: string)
    ensures Tail(Tail(lines) + [line]) == Tail(lines + [line])
  {
  }

  /** After any events, the log holds the last five lines that were not empty since it was last
      cleared, in order. */
  lemma {:induction false} LogIsTail(events: seq<Event>, clean: string -> string)
    ensures Run(events, clean).logLines == Tail(LinesSinceClear(events, clean))
  {
    if events != [] {
      var front := events[..|events| - 1];
      LogIsTail(front, clean);
      if events[|events| - 1].Log? {
        TailSnoc(LinesSinceClear(front, clean), clean(events[|events| - 1].line));
      }
    }
  }

  /** Event `i` is the first to report a run error. */
  predicate FirstRunError(events: seq<Event>, i: nat, message: string) {
    i < |events| && events[i] == SetRunError(message) && forall j :: 0 <= j < i ==> !events[j].SetRunError?
  }

  lemma FirstRunErrorSnoc(front: seq<Event>, last: Event, message: string)
    ensures (exists i: nat :: FirstRunError(front + [last], i, message)) <==>
      || (exists i: nat :: FirstRunError(front, i, message))
      || (last == SetRunError(message) && forall j :: 0 <= j < |front| ==> !front[j].SetRunError?)
  {
    var events := front + [last];
    if i: nat :| FirstRunError(events, i, message) {
      forall j | 0 <= j < i && j < |front| ensures !front[j].SetRunError? {
        assert events[j] == front[j];
      }
      assert i < |front| ==> FirstRunError(front, i, message);
    }
    if i: nat :| FirstRunError(front, i, message) {
      assert FirstRunError(events, i, message);
    }
    if last == SetRunError(message) && forall j :: 0 <= j < |front| ==> !front[j].SetRunError? {
      assert FirstRunError(events, |front|, message);
    }
  }

  lemma StepErrors(s: State, e: Event, clean: string -> string)
    ensures Step(s, e, clean).runError ==
      if e.SetRunError? && s.runError.None? then Some(e.message) else s.runError
    ensures Step(s, e, clean).signingError ==
      if e.SignError? then Some(e.reason) else if DecidesSigningError(e) then None else s.signingError
  {
  }

  lemma {:induction false} NoRunError(events: seq<Event>, clean: string -> string)
    ensures Run(events, clean).runError.None? <==> forall j :: 0 <= j < |events| ==> !events[j].SetRunError?
  {
    if events != [] {
      var front, last := events[..|events| - 1], events[|events| - 1];
      NoRunError(front, clean);
      StepErrors(Run(front, clean), last, clean);
      assert forall j :: 0 <= j < |front| ==> front[j] == events[j];
    }
  }

  /** The run error is the first one reported, whatever else happens. */
  lemma {:induction false} RunErrorIsFirst(events: seq<Event>, clean: string -> string, message: string)
    ensures Run(events, clean).runError == Some(message) <==> exists i: nat :: FirstRunError(events, i, message)
  {
    if events != [] {
      var front, last := events[..|events| - 1], events[|events| - 1];
      RunErrorIsFirst(front, clean, message);
      NoRunError(front, clean);
      StepErrors(Run(front, clean), last, clean);
      FirstRunErrorSnoc(front, last, message);
      assert events == front + [last];
      if i: nat :| FirstRunError(front, i, message) {
        assert front[i].SetRunError?;
      }
    }
  }

  /** The events that decide whether a signing error is held. */
  predicate DecidesSigningError(e: Event) {
    e.SignError? || e.SignRequest? || e.DeployRegisterStart?
  }

  /** Event `i` is a signing error and the last event to decide. */
  predicate LastSigningError(events: seq<Event>, i: nat, reason: string) {
    i < |events| && events[i] == SignError(reason) && forall j :: i < j < |events| ==> !DecidesSigningError(events[j])
  }

  lemma LastSigningErrorSnoc(front: seq<Event>, last: Event, reason: string)
    ensures (exists i: nat :: LastSigningError(front + [last], i, reason)) <==>
      if DecidesSigningError(last) then last == SignError(reason) else exists i: nat :: LastSigningError(front, i, reason)
  {
    var events := front + [last];
    assert events[|front|] == last;
    if i: nat :| LastSigningError(events, i, reason) {
      forall j | i < j < |front| ensures !DecidesSigningError(front[j]) {
        assert events[j] == front[j];
      }
      assert i < |front| && !DecidesSigningError(last) ==> LastSigningError(front, i, reason);
    }
    if i: nat :| LastSigningError(front, i, reason) {
      assert !DecidesSigningError(last) ==> LastSigningError(events, i, reason);
    }
    if last == SignError(reason) {
      assert LastSigningError(events, |front|, reason);
    }
  }

  /** A failed deploy is blamed on a signing error exactly when one came after the last signing
      request and the last start of a deploy: completing a signature does not take it back. */
  lemma {:induction false} BlamedOnSigningIff(events: seq<Event>, clean: string -> string, reason: string)
    ensures Run(events, clean).signingError == Some(reason) <==> exists i: nat :: LastSigningError(events, i, reason)
  {
    if events != [] {
      var front, last := events[..|events| - 1], events[|events| - 1];
      BlamedOnSigningIff(front, clean, reason);
      StepErrors(Run(front, clean), last, clean);
      LastSigningErrorSnoc(front, last, reason);
      assert events == front + [last];
    }
  }

  // ---------- Crates that are done ----------

  /** A finished crate has an address, and nothing on it is still in progress. */
  predicate Complete(s: Status) {
    s.state == Done ==> Truthy(s.address) && !s.deployInProgress && !s.registerInProgress
  }

  predicate DoneComplete(m: Statuses) {
    forall c :: c in m ==> Complete(m[c])
  }

  predicate PublishesKnown(m: Statuses, e: Event) {
    e.PublishDone? ==> forall i :: 0 <= i < |e.cids| ==> e.cids[i].0 in m
  }

  /** The changes that leave a complete crate complete, or take an unknown crate somewhere else. */
  predicate Sound(m: Statuses, change: (string, Change)) {
    match change.1
    case Deployed(a, _, _, _) => a != ""
    case Published(_, _) => change.0 in m
    case _ => true
  }

  lemma {:induction false} UpdateAllKeeps(m: Statuses, changes: seq<(string, Change)>)
    requires DoneComplete(m)
    requires forall i :: 0 <= i < |changes| ==> Sound(m, changes[i])
    ensures DoneComplete(UpdateAll(m, changes)) && m.Keys <= UpdateAll(m, changes).Keys
  {
    if changes != [] {
      var front, last := changes[..|changes| - 1], changes[|changes| - 1];
      UpdateAllKeeps(m, front);
      assert Sound(m, last);
      var n := UpdateAll(m, front);
      assert last.0 in n ==> Complete(n[last.0]);
    }
  }

  lemma {:induction false} DoneChangesHaveAddresses(addresses: seq<(string, Option<string>)>, tx: string,
                                                    block: string, took: Option<nat>, m: Statuses)
    ensures forall c :: c in DoneChanges(addresses, tx, block, took) ==> Sound(m, c)
  {
    if addresses != [] {
      DoneChangesHaveAddresses(addresses[..|addresses| - 1], tx, block, took, m);
    }
  }

  lemma ChangesAreSound(s: State, e: Event)
    requires PublishesKnown(s.statuses, e)
    ensures forall i :: 0 <= i < |Changes(s, e)| ==> Sound(s.statuses, Changes(s, e)[i])
  {
    if e.DeployRegisterDone? {
      DoneChangesHaveAddresses(e.addresses, e.txHash, e.blockHash, e.durationMs, s.statuses);
    }
  }

  lemma {:induction false} AddWaitingKeeps(m: Statuses, crates: seq<string>)
    ensures var n := AddWaiting(m, crates);
      && m.Keys <= n.Keys
      && (forall c :: c in m ==> n[c] == m[c])
      && (forall c :: c in n && c !in m ==> n[c] == Fresh(c))
  {
    if crates != [] {
      AddWaitingKeeps(m, crates[..|crates| - 1]);
    }
  }

  lemma StepKeepsComplete(s: State, e: Event, clean: string -> string)
    requires DoneComplete(s.statuses) && PublishesKnown(s.statuses, e)
    ensures DoneComplete(Step(s, e, clean).statuses)
  {
    if e.Detect? {
      AddWaitingKeeps(s.statuses, Flatten(e.layers));
    } else {
      ChangesAreSound(s, e);
      UpdateAllKeeps(s.statuses, Changes(s, e));
    }
  }

  /** A crate first heard of when it was published. */
  predicate Addressless(m: Statuses, crate: string) {
    crate in m && m[crate].state == Done && m[crate].address == None
  }

  lemma {:induction false} PublishingUnknown(m: Statuses, cids: seq<(string, string)>, tx: string, i: nat)
    requires i < |cids| && cids[i].0 !in m
    ensures Addressless(UpdateAll(m, PublishedChanges(cids, tx)), cids[i].0)
  {
    var front, crate := cids[..|cids| - 1], cids[i].0;
    assert PublishedChanges(cids, tx)[..|cids| - 1] == PublishedChanges(front, tx);
    if j: nat :| j < |front| && front[j].0 == crate {
      PublishingUnknown(m, front, tx, j);
    } else {
      assert i == |front|;
      NotNamedNotAdded(m, PublishedChanges(front, tx), crate);
    }
  }

  lemma {:induction false} NotNamedNotAdded(m: Statuses, changes: seq<(string, Change)>, crate: string)
    requires forall i :: 0 <= i < |changes| ==> changes[i].0 != crate
    ensures crate in UpdateAll(m, changes) <==> crate in m
    ensures crate in m ==> UpdateAll(m, changes)[crate] == m[crate]
  {
    if changes != [] {
      NotNamedNotAdded(m, changes[..|changes| - 1], crate);
    }
  }

  predicate AlwaysComplete(events: seq<Event>, clean: string -> string) {
    forall n :: 0 <= n <= |events| ==> DoneComplete(Run(events[..n], clean).statuses)
  }

  predicate PublishesOnlyKnown(events: seq<Event>, clean: string -> string) {
    forall n :: 0 <= n < |events| ==> PublishesKnown(Run(events[..n], clean).statuses, events[n])
  }

  lemma RunPrefix(events: seq<Event>, n: nat, clean: string -> string)
    requires n < |events|
    ensures Run(events[..n + 1], clean) == Step(Run(events[..n], clean), events[n], clean)
  {
    assert events[..n + 1][..n] == events[..n];
  }

  lemma {:induction false} KnownKeepsComplete(events: seq<Event>, n: nat, clean: string -> string)
    requires n <= |events| && PublishesOnlyKnown(events, clean)
    ensures DoneComplete(Run(events[..n], clean).statuses)
  {
    if n > 0 {
      KnownKeepsComplete(events, n - 1, clean);
      RunPrefix(events, n - 1, clean);
      StepKeepsComplete(Run(events[..n - 1], clean), events[n - 1], clean);
    }
  }

  lemma UnknownBreaks(s: State, e: Event, clean: string -> string)
    requires !PublishesKnown(s.statuses, e)
    ensures !DoneComplete(Step(s, e, clean).statuses)
  {
    var i :| 0 <= i < |e.cids| && e.cids[i].0 !in s.statuses;
    PublishingUnknown(s.statuses, e.cids, e.publishTxHash, i);
    assert !Complete(Step(s, e, clean).statuses[e.cids[i].0]);
  }

  /** Every crate shown as done, all along the run, has an address and no deploy or registration in
      progress exactly when every `publish-done` event names only crates already known. */
  lemma AlwaysCompleteIff(events: seq<Event>, clean: string -> string)
    ensures AlwaysComplete(events, clean) <==> PublishesOnlyKnown(events, clean)
  {
    if PublishesOnlyKnown(events, clean) {
      forall n | 0 <= n <= |events| ensures DoneComplete(Run(events[..n], clean).statuses) {
        KnownKeepsComplete(events, n, clean);
      }
    } else {
      var n :| 0 <= n < |events| && !PublishesKnown(Run(events[..n], clean).statuses, events[n]);
      RunPrefix(events, n, clean);
      UnknownBreaks(Run(events[..n], clean), events[n], clean);
    }
  }

  // ---------- Every field, read off the history ----------

  datatype Flag = DeployFlag | PublishFlag | RegisterFlag

  /** A field of a status. */
  datatype Field =
    | StateField | Flagged(flag: Flag) | ErrorField | AddressField | CidField | DeployTxField | DeployBlockField
    | PublishTxField | DurationField | SizeField | ProgressField
  {
    function Read(s: Status): Value {
      match this
      case StateField => Shows(s.state)
      case Flagged(DeployFlag) => Bit(s.deployInProgress)
      case Flagged(PublishFlag) => Bit(s.publishInProgress)
      case Flagged(RegisterFlag) => Bit(s.registerInProgress)
      case ErrorField => Text(s.error)
      case AddressField => Text(s.address)
      case CidField => Text(s.cid)
      case DeployTxField => Text(s.deployTxHash)
      case DeployBlockField => Text(s.deployBlockHash)
      case PublishTxField => Text(s.publishTxHash)
      case DurationField => Count(s.durationMs)
      case SizeField => Count(s.bytecodeSize)
      case ProgressField => Portion(s.buildProgress)
    }
  }

  datatype Value =
    | Shows(shows: CrateState) | Bit(bit: bool) | Text(text: Option<string>) | Count(count: Option<nat>)
    | Portion(portion: Option<Progress>)

  /** The field of a crate, known or not. */
  function FieldOf(field: Field, m: Statuses, crate: string): Value {
    field.Read(if crate in m then m[crate] else Fresh(crate))
  }

  /** The address of the last entry that gives the crate one. */
  function LastAddress(addresses: seq<(string, Option<string>)>, crate: string): (a: Option<string>)
    ensures a.Some? ==> Truthy(a)
  {
    if addresses == [] then None
    else
      var last := addresses[|addresses| - 1];
      if last.0 == crate && Truthy(last.1) then last.1 else LastAddress(addresses[..|addresses| - 1], crate)
  }

  function LastCid(cids: seq<(string, string)>, crate: string): Option<string> {
    if cids == [] then None
    else if cids[|cids| - 1].0 == crate then Some(cids[|cids| - 1].1)
    else LastCid(cids[..|cids| - 1], crate)
  }

  /** What the start of a deploy says of a field; only a crate with a package is registered. */
  function DeployStartSays(field: Field, packaged: bool): Option<Value> {
    match field
    case StateField => Some(Shows(Deploying))
    case Flagged(DeployFlag) => Some(Bit(true))
    case Flagged(RegisterFlag) => Some(Bit(packaged))
    case _ => None
  }

  function DeployDoneSays(field: Field, address: string, tx: string, block: string, took: Option<nat>): Option<Value> {
    match field
    case StateField => Some(Shows(Done))
    case Flagged(DeployFlag) => Some(Bit(false))
    case Flagged(RegisterFlag) => Some(Bit(false))
    case AddressField => Some(Text(Some(address)))
    case DeployTxField => Some(Text(Some(tx)))
    case DeployBlockField => Some(Text(Some(block)))
    case DurationField => Some(Count(took))
    case _ => None
  }

  /** A publish shows only an unknown crate as done. */
  function PublishDoneSays(field: Field, cid: string, tx: string, known: bool): Option<Value> {
    match field
    case StateField => if known then None else Some(Shows(Done))
    case Flagged(PublishFlag) => Some(Bit(false))
    case CidField => Some(Text(Some(cid)))
    case PublishTxField => Some(Text(Some(tx)))
    case _ => None
  }

  function DeployErrorSays(field: Field, why: string): Option<Value> {
    match field
    case StateField => Some(Shows(Error))
    case Flagged(_) => Some(Bit(false))
    case ErrorField => Some(Text(Some(why)))
    case _ => None
  }

  function BuildSays(field: Field, e: Event): Option<Value>
    requires e.BuildStart? || e.BuildProgress? || e.BuildDone? || e.BuildError?
  {
    match field
    case StateField => Some(Shows(if e.BuildError? then Error else if e.BuildDone? then Built else Building))
    case ErrorField => if e.BuildError? then Some(Text(Some(e.why))) else None
    case DurationField => if e.BuildDone? then Some(Count(e.buildMs)) else None
    case SizeField => if e.BuildDone? then Some(Count(e.bytes)) else None
    case ProgressField =>
      if e.BuildDone? then Some(Portion(Some(Progress(1, 1))))
      else if e.BuildProgress? then
        Some(Portion(Some(Progress(e.compiled, if e.total.Some? then e.total.value else 0))))
      else None
    case _ => None
  }

  /** What an event says about a field of a crate, if anything: `packaged` if a package of the crate
      was detected, `known` if any event before was about it, `blame` if signing has failed. */
  function Says(field: Field, e: Event, crate: string, packaged: bool, known: bool, blame: Option<string>): Option<Value> {
    match e
    case BuildStart(c) => if c == crate then BuildSays(field, e) else None
    case BuildProgress(c, _, _) => if c == crate then BuildSays(field, e) else None
    case BuildDone(c, _, _) => if c == crate then BuildSays(field, e) else None
    case BuildError(c, _) => if c == crate then BuildSays(field, e) else None
    case CheckCached(c, address) =>
      if c != crate then None
      else if field.StateField? then Some(Shows(Cached))
      else if field.AddressField? then Some(Text(Some(address)))
      else None
    case DeployRegisterStart(crates) => if crate in crates then DeployStartSays(field, packaged) else None
    case PublishStart(crates) =>
      if crate !in crates then None
      else if field.StateField? then Some(Shows(Deploying))
      else if field == Flagged(PublishFlag) then Some(Bit(true))
      else None
    case DeployRegisterDone(addresses, tx, block, took) =>
      var address := LastAddress(addresses, crate);
      if address.Some? then DeployDoneSays(field, address.value, tx, block, took) else None
    case PublishDone(cids, tx) =>
      var cid := LastCid(cids, crate);
      if cid.Some? then PublishDoneSays(field, cid.value, tx, known) else None
    case DeployRegisterError(crates, failure) =>
      if crate in crates then DeployErrorSays(field, if blame.Some? then blame.value else failure) else None
    case _ => None
  }

  predicate HasPackage(contracts: seq<Contract>, crate: string) {
    exists i :: 0 <= i < |contracts| && contracts[i].name == crate && Truthy(contracts[i].cdmPackage)
  }

  /** Some event detected a package of the crate. */
  predicate Packaged(events: seq<Event>, crate: string) {
    exists i :: 0 <= i < |events| && events[i].Detect? && HasPackage(events[i].contracts, crate)
  }

  /** The event is about the crate. */
  predicate Names(e: Event, crate: string) {
    match e
    case Detect(_, layers) => crate in Flatten(layers)
    case BuildStart(c) => c == crate
    case BuildProgress(c, _, _) => c == crate
    case BuildDone(c, _, _) => c == crate
    case BuildError(c, _) => c == crate
    case CheckCached(c, _) => c == crate
    case DeployRegisterStart(crates) => crate in crates
    case PublishStart(crates) => crate in crates
    case DeployRegisterDone(addresses, _, _, _) => LastAddress(addresses, crate).Some?
    case PublishDone(cids, _) => LastCid(cids, crate).Some?
    case DeployRegisterError(crates, _) => crate in crates
    case _ => false
  }

  predicate Known(events: seq<Event>, crate: string) {
    exists i :: 0 <= i < |events| && Names(events[i], crate)
  }

  /** What the next event says after a history. */
  function SaysNext(field: Field, front: seq<Event>, e: Event, clean: string -> string, crate: string): Option<Value> {
    Says(field, e, crate, Packaged(front, crate), Known(front, crate), Run(front, clean).signingError)
  }

  /** The last thing said about a field. */
  function LastSaid(field: Field, events: seq<Event>, clean: string -> string, crate: string): Value {
    if events == [] then field.Read(Fresh(crate))
    else
      var front, e := events[..|events| - 1], events[|events| - 1];
      var w := SaysNext(field, front, e, clean, crate);
      if w.Some? then w.value else LastSaid(field, front, clean, crate)
  }

  /** What a change writes into a field, if anything. */
  function Writes(field: Field, c: Change): Option<Value> {
    match c
    case Start => if field.StateField? then Some(Shows(Building)) else None
    case Compile(p) =>
      if field.StateField? then Some(Shows(Building)) else if field.ProgressField? then Some(Portion(Some(p))) else None
    case Compiled(d, size) => BuildSays(field, BuildDone("", d, size))
    case FailBuild(e) => BuildSays(field, BuildError("", e))
    case UseCached(a) =>
      if field.StateField? then Some(Shows(Cached)) else if field.AddressField? then Some(Text(Some(a))) else None
    case Deploy(registers) => DeployStartSays(field, registers)
    case Publish =>
      if field.StateField? then Some(Shows(Deploying))
      else if field == Flagged(PublishFlag) then Some(Bit(true))
      else None
    case Deployed(a, tx, block, d) => DeployDoneSays(field, a, tx, block, d)
    case Published(cid, tx) => PublishDoneSays(field, cid, tx, true)
    case FailDeploy(e) => DeployErrorSays(field, e)
  }

  function LastWrite(field: Field, changes: seq<(string, Change)>, crate: string): Option<Value> {
    if changes == [] then None
    else
      var last := changes[|changes| - 1];
      if last.0 == crate && Writes(field, last.1).Some? then Writes(field, last.1)
      else LastWrite(field, changes[..|changes| - 1], crate)
  }

  lemma ChangedReads(field: Field, c: Change, s: Status, known: bool)
    requires field.StateField? && c.Published? ==> known
    ensures field.Read(Changed(c, s, known)) ==
      if Writes(field, c).Some? then Writes(field, c).value else field.Read(s)
  {
  }

  lemma UpdateWrites(field: Field, m: Statuses, named: string, c: Change, crate: string)
    requires field.StateField? ==> !c.Published?
    ensures FieldOf(field, Update(m, named, c), crate) ==
      if named == crate && Writes(field, c).Some? then Writes(field, c).value else FieldOf(field, m, crate)
  {
    ChangedReads(field, c, if crate in m then m[crate] else Fresh(crate), crate in m);
  }

  lemma {:induction false} UpdateAllWrites(field: Field, m: Statuses, changes: seq<(string, Change)>, crate: string)
    requires field.StateField? ==> forall i :: 0 <= i < |changes| ==> !changes[i].1.Published?
    ensures FieldOf(field, UpdateAll(m, changes), crate) ==
      var w := LastWrite(field, changes, crate); if w.Some? then w.value else FieldOf(field, m, crate)
  {
    if changes != [] {
      var front, last := changes[..|changes| - 1], changes[|changes| - 1];
      UpdateAllWrites(field, m, front, crate);
      UpdateWrites(field, UpdateAll(m, front), last.0, last.1, crate);
    }
  }

  /** Changes of one kind, one for each name in a list. */
  lemma {:induction false} UniformWrites(field: Field, changes: seq<(string, Change)>, names: seq<string>,
                                         crate: string, w: Option<Value>)
    requires |changes| == |names|
    requires forall i :: 0 <= i < |changes| ==>
      changes[i].0 == names[i] && (names[i] == crate ==> Writes(field, changes[i].1) == w)
    ensures LastWrite(field, changes, crate) == if crate in names then w else None
  {
    if changes != [] {
      var n := |changes| - 1;
      UniformWrites(field, changes[..n], names[..n], crate, w);
      assert names == names[..n] + [names[n]];
    }
  }

  lemma LastWriteSnoc(field: Field, changes: seq<(string, Change)>, named: string, c: Change, crate: string)
    ensures LastWrite(field, changes + [(named, c)], crate) ==
      if named == crate && Writes(field, c).Some? then Writes(field, c) else LastWrite(field, changes, crate)
  {
    assert (changes + [(named, c)])[..|changes|] == changes;
  }

  /** Whether a change writes a field does not depend on its values. */
  lemma DoneWritesAlike(field: Field, a: string, b: string, tx: string, block: string, took: Option<nat>)
    ensures DeployDoneSays(field, a, tx, block, took).Some? <==> DeployDoneSays(field, b, tx, block, took).Some?
  {
  }

  lemma {:induction false} DoneWrites(field: Field, addresses: seq<(string, Option<string>)>, tx: string, block: string,
                                      took: Option<nat>, crate: string)
    ensures LastWrite(field, DoneChanges(addresses, tx, block, took), crate) ==
      var a := LastAddress(addresses, crate);
      if a.Some? then DeployDoneSays(field, a.value, tx, block, took) else None
  {
    if addresses != [] {
      var front, last := addresses[..|addresses| - 1], addresses[|addresses| - 1];
      DoneWrites(field, front, tx, block, took, crate);
      var before := DoneChanges(front, tx, block, took);
      if Truthy(last.1) {
        LastWriteSnoc(field, before, last.0, Deployed(last.1.value, tx, block, took), crate);
        var a := LastAddress(front, crate);
        if a.Some? {
          DoneWritesAlike(field, a.value, last.1.value, tx, block, took);
        }
      } else {
        assert before + DoneChange(last, tx, block, took) == before;
      }
    }
  }

  lemma {:induction false} PublishedWrites(field: Field, cids: seq<(string, string)>, tx: string, crate: string)
    ensures LastWrite(field, PublishedChanges(cids, tx), crate) ==
      var cid := LastCid(cids, crate); if cid.Some? then PublishDoneSays(field, cid.value, tx, true) else None
  {
    if cids != [] {
      var front, last := cids[..|cids| - 1], cids[|cids| - 1];
      PublishedWrites(field, front, tx, crate);
      assert PublishedChanges(cids, tx) == PublishedChanges(front, tx) + [(last.0, Published(last.1, tx))];
      LastWriteSnoc(field, PublishedChanges(front, tx), last.0, Published(last.1, tx), crate);
    }
  }

  lemma SingleWrite(field: Field, named: string, c: Change, crate: string)
    ensures LastWrite(field, [(named, c)], crate) == if named == crate then Writes(field, c) else None
  {
    LastWriteSnoc(field, [], named, c, crate);
    assert [] + [(named, c)] == [(named, c)];
  }

  /** The changes of an event write what the event says. */
  lemma ChangesSay(field: Field, s: State, e: Event, crate: string)
    ensures LastWrite(field, Changes(s, e), crate) == Says(field, e, crate, crate in s.packages, true, s.signingError)
  {
    if e.DeployRegisterDone? {
      DoneWrites(field, e.addresses, e.txHash, e.blockHash, e.durationMs, crate);
    } else if e.PublishDone? {
      PublishedWrites(field, e.cids, e.publishTxHash, crate);
    } else if e.DeployRegisterStart? || e.PublishStart? || e.DeployRegisterError? {
      ListChangesSay(field, s, e, crate);
    } else {
      BuildChangesSay(field, s, e, crate);
    }
  }

  lemma ListChangesSay(field: Field, s: State, e: Event, crate: string)
    requires e.DeployRegisterStart? || e.PublishStart? || e.DeployRegisterError?
    ensures LastWrite(field, Changes(s, e), crate) == Says(field, e, crate, crate in s.packages, true, s.signingError)
  {
    var crates := if e.DeployRegisterStart? then e.deploying else if e.PublishStart? then e.publishing else e.failing;
    var change :=
      if e.DeployRegisterStart? then Deploy(crate in s.packages)
      else if e.PublishStart? then Publish
      else FailDeploy(if s.signingError.Some? then s.signingError.value else e.failure);
    UniformWrites(field, Changes(s, e), crates, crate, Writes(field, change));
  }

  lemma BuildChangesSay(field: Field, s: State, e: Event, crate: string)
    requires !e.DeployRegisterDone? && !e.PublishDone? && !e.DeployRegisterStart? && !e.PublishStart?
    requires !e.DeployRegisterError?
    ensures LastWrite(field, Changes(s, e), crate) == Says(field, e, crate, crate in s.packages, true, s.signingError)
  {
    var changes := Changes(s, e);
    if changes != [] {
      SingleWrite(field, changes[0].0, changes[0].1, crate);
    }
  }

  /** A publish leaves the state of a known crate and shows an unknown one as done. */
  lemma {:induction false} PublishedState(m: Statuses, cids: seq<(string, string)>, tx: string, crate: string)
    ensures var n, cid := UpdateAll(m, PublishedChanges(cids, tx)), LastCid(cids, crate);
      && (crate in n <==> crate in m || cid.Some?)
      && FieldOf(StateField, n, crate) == if cid.Some? && crate !in m then Shows(Done) else FieldOf(StateField, m, crate)
  {
    if cids != [] {
      var front, last := cids[..|cids| - 1], cids[|cids| - 1];
      PublishedState(m, front, tx, crate);
      assert PublishedChanges(cids, tx) == PublishedChanges(front, tx) + [(last.0, Published(last.1, tx))];
      UpdateAllSnoc(m, PublishedChanges(front, tx), last.0, Published(last.1, tx));
    }
  }

  lemma NoPublishedChanges(s: State, e: Event)
    requires !e.PublishDone?
    ensures forall i :: 0 <= i < |Changes(s, e)| ==> !Changes(s, e)[i].1.Published?
  {
    if e.DeployRegisterDone? {
      DoneIsDeployed(e.addresses, e.txHash, e.blockHash, e.durationMs);
    }
  }

  lemma {:induction false} DoneIsDeployed(addresses: seq<(string, Option<string>)>, tx: string, block: string,
                                          took: Option<nat>)
    ensures forall i :: 0 <= i < |DoneChanges(addresses, tx, block, took)| ==>
      DoneChanges(addresses, tx, block, took)[i].1.Deployed?
  {
    if addresses != [] {
      DoneIsDeployed(addresses[..|addresses| - 1], tx, block, took);
    }
  }

  /** Detecting writes no field. */
  lemma DetectKeepsFields(field: Field, m: Statuses, crates: seq<string>, crate: string)
    ensures FieldOf(field, AddWaiting(m, crates), crate) == FieldOf(field, m, crate)
  {
    AddWaitingKeeps(m, crates);
  }

  lemma StepSays(field: Field, s: State, e: Event, clean: string -> string, crate: string)
    ensures FieldOf(field, Step(s, e, clean).statuses, crate) ==
      var w := Says(field, e, crate, crate in s.packages, crate in s.statuses, s.signingError);
      if w.Some? then w.value else FieldOf(field, s.statuses, crate)
  {
    if field.StateField? && e.PublishDone? {
      PublishedState(s.statuses, e.cids, e.publishTxHash, crate);
    } else {
      OtherStepSays(field, s, e, clean, crate);
    }
  }

  lemma OtherStepSays(field: Field, s: State, e: Event, clean: string -> string, crate: string)
    requires !(field.StateField? && e.PublishDone?)
    ensures FieldOf(field, Step(s, e, clean).statuses, crate) ==
      var w := Says(field, e, crate, crate in s.packages, true, s.signingError);
      if w.Some? then w.value else FieldOf(field, s.statuses, crate)
  {
    ChangesSay(field, s, e, crate);
    if field.StateField? {
      NoPublishedChanges(s, e);
    }
    UpdateAllWrites(field, Rest(s, e, clean).statuses, Changes(s, e), crate);
    if e.Detect? {
      DetectKeepsFields(field, s.statuses, Flatten(e.layers), crate);
    }
  }

  // ---------- Packages and known crates ----------

  lemma {:induction false} PackagesIff(m: map<string, string>, contracts: seq<Contract>, crate: string)
    ensures crate in Packages(m, contracts) <==> crate in m || HasPackage(contracts, crate)
  {
    if contracts != [] {
      var front, last := contracts[..|contracts| - 1], contracts[|contracts| - 1];
      PackagesIff(m, front, crate);
      HasPackageSnoc(front, last, crate);
      assert contracts == front + [last];
    }
  }

  lemma HasPackageSnoc(front: seq<Contract>, last: Contract, crate: string)
    ensures HasPackage(front + [last], crate) <==>
      HasPackage(front, crate) || (last.name == crate && Truthy(last.cdmPackage))
  {
    var all := front + [last];
    assert all[|front|] == last;
    assert forall i :: 0 <= i < |front| ==> all[i] == front[i];
  }

  lemma PackagedSnoc(front: seq<Event>, last: Event, crate: string)
    ensures Packaged(front + [last], crate) <==>
      Packaged(front, crate) || (last.Detect? && HasPackage(last.contracts, crate))
  {
    var all := front + [last];
    assert all[|front|] == last;
    assert forall i :: 0 <= i < |front| ==> all[i] == front[i];
  }

  /** The recorded packages are those of the crates detected with one. */
  lemma {:induction false} PackagesAreDetected(events: seq<Event>, clean: string -> string, crate: string)
    ensures crate in Run(events, clean).packages <==> Packaged(events, crate)
  {
    if events != [] {
      var front, last := events[..|events| - 1], events[|events| - 1];
      PackagesAreDetected(front, clean, crate);
      PackagedSnoc(front, last, crate);
      assert events == front + [last];
      StepDetects(Run(front, clean), last, clean, crate);
    }
  }

  lemma StepDetects(s: State, e: Event, clean: string -> string, crate: string)
    ensures crate in Step(s, e, clean).packages <==>
      crate in s.packages || (e.Detect? && HasPackage(e.contracts, crate))
  {
    if e.Detect? {
      PackagesIff(s.packages, e.contracts, crate);
    }
  }

  predicate NamedIn(changes: seq<(string, Change)>, crate: string) {
    exists i :: 0 <= i < |changes| && changes[i].0 == crate
  }

  lemma {:induction false} UpdateAllNames(m: Statuses, changes: seq<(string, Change)>, crate: string)
    ensures crate in UpdateAll(m, changes) <==> crate in m || NamedIn(changes, crate)
  {
    if changes != [] {
      UpdateAllNames(m, changes[..|changes| - 1], crate);
    }
  }

  lemma {:induction false} DoneNames(addresses: seq<(string, Option<string>)>, tx: string, block: string,
                                     took: Option<nat>, crate: string)
    ensures NamedIn(DoneChanges(addresses, tx, block, took), crate) <==> LastAddress(addresses, crate).Some?
  {
    if addresses != [] {
      var front, last := addresses[..|addresses| - 1], addresses[|addresses| - 1];
      var before, changes := DoneChanges(front, tx, block, took), DoneChanges(addresses, tx, block, took);
      DoneNames(front, tx, block, took, crate);
      assert forall i :: 0 <= i < |before| ==> changes[i] == before[i];
      assert Truthy(last.1) ==> changes[|before|].0 == last.0;
    }
  }

  lemma {:induction false} CidNames(cids: seq<(string, string)>, crate: string)
    ensures LastCid(cids, crate).Some? <==> exists i :: 0 <= i < |cids| && cids[i].0 == crate
  {
    if cids != [] {
      CidNames(cids[..|cids| - 1], crate);
    }
  }

  lemma NamedOne(named: string, c: Change, crate: string)
    ensures NamedIn([(named, c)], crate) <==> named == crate
  {
    assert [(named, c)][0].0 == named;
  }

  lemma SingleNames(s: State, e: Event, crate: string)
    requires !e.Detect? && !e.DeployRegisterDone? && !e.PublishDone? && !e.DeployRegisterStart?
    requires !e.PublishStart? && !e.DeployRegisterError?
    ensures NamedIn(Changes(s, e), crate) <==> Names(e, crate)
  {
    var changes := Changes(s, e);
    if changes != [] {
      NamedOne(changes[0].0, changes[0].1, crate);
    }
  }

  lemma ChangesName(s: State, e: Event, crate: string)
    requires !e.Detect?
    ensures NamedIn(Changes(s, e), crate) <==> Names(e, crate)
  {
    var changes := Changes(s, e);
    match e
    case DeployRegisterDone(addresses, tx, block, took) => DoneNames(addresses, tx, block, took, crate);
    case PublishDone(cids, tx) =>
      CidNames(cids, crate);
      assert forall i :: 0 <= i < |cids| ==> changes[i].0 == cids[i].0;
    case DeployRegisterStart(crates) => assert forall i :: 0 <= i < |crates| ==> changes[i].0 == crates[i];
    case PublishStart(crates) => assert forall i :: 0 <= i < |crates| ==> changes[i].0 == crates[i];
    case DeployRegisterError(crates, _) => assert forall i :: 0 <= i < |crates| ==> changes[i].0 == crates[i];
    case _ => SingleNames(s, e, crate);
  }

  lemma {:induction false} AddWaitingNames(m: Statuses, crates: seq<string>, crate: string)
    ensures crate in AddWaiting(m, crates) <==> crate in m || crate in crates
  {
    if crates != [] {
      AddWaitingNames(m, crates[..|crates| - 1], crate);
      assert crates == crates[..|crates| - 1] + [crates[|crates| - 1]];
    }
  }

  lemma StepNames(s: State, e: Event, clean: string -> string, crate: string)
    ensures crate in Step(s, e, clean).statuses <==> crate in s.statuses || Names(e, crate)
  {
    if e.Detect? {
      AddWaitingNames(s.statuses, Flatten(e.layers), crate);
    } else {
      UpdateAllNames(s.statuses, Changes(s, e), crate);
      ChangesName(s, e, crate);
    }
  }

  lemma KnownSnoc(front: seq<Event>, last: Event, crate: string)
    ensures Known(front + [last], crate) <==> Known(front, crate) || Names(last, crate)
  {
    var all := front + [last];
    assert all[|front|] == last;
    assert forall i :: 0 <= i < |front| ==> all[i] == front[i];
  }

  /** The crates with a status are those that some event was about. */
  lemma {:induction false} KnownAreNamed(events: seq<Event>, clean: string -> string, crate: string)
    ensures crate in Run(events, clean).statuses <==> Known(events, crate)
  {
    if events != [] {
      var front, last := events[..|events| - 1], events[|events| - 1];
      KnownAreNamed(front, clean, crate);
      KnownSnoc(front, last, crate);
      assert events == front + [last];
      StepNames(Run(front, clean), last, clean, crate);
    }
  }

  /** Every field of every crate shows the last thing that any event said about it. */
  lemma {:induction false} FieldIsLastSaid(field: Field, events: seq<Event>, clean: string -> string, crate: string)
    ensures FieldOf(field, Run(events, clean).statuses, crate) == LastSaid(field, events, clean, crate)
  {
    if events != [] {
      var front, last := events[..|events| - 1], events[|events| - 1];
      FieldIsLastSaid(field, front, clean, crate);
      StepSays(field, Run(front, clean), last, clean, crate);
      PackagesAreDetected(front, clean, crate);
      KnownAreNamed(front, clean, crate);
    }
  }

  // ---------- What is in progress ----------

  predicate InProgress(flag: Flag, m: Statuses, crate: string) {
    FieldOf(Flagged(flag), m, crate) == Bit(true)
  }

  function SaysAt(flag: Flag, events: seq<Event>, clean: string -> string, crate: string, i: nat): Option<Value>
    requires i < |events|
  {
    SaysNext(Flagged(flag), events[..i], events[i], clean, crate)
  }

  /** Event `i` starts the work and no later event ends it. */
  predicate StartedLast(flag: Flag, events: seq<Event>, clean: string -> string, crate: string, i: nat) {
    && i < |events| && SaysAt(flag, events, clean, crate, i) == Some(Bit(true))
    && forall j: nat :: i < j < |events| ==> SaysAt(flag, events, clean, crate, j) != Some(Bit(false))
  }

  ghost predicate Started(flag: Flag, events: seq<Event>, clean: string -> string, crate: string) {
    exists i: nat :: StartedLast(flag, events, clean, crate, i)
  }

  lemma FlagSays(flag: Flag, e: Event, crate: string, packaged: bool, known: bool, blame: Option<string>)
    ensures var w := Says(Flagged(flag), e, crate, packaged, known, blame); w.Some? ==> w.value.Bit?
  {
  }

  lemma NextIsBit(flag: Flag, front: seq<Event>, last: Event, clean: string -> string, crate: string)
    ensures var w := SaysNext(Flagged(flag), front, last, clean, crate); w.Some? ==> w.value.Bit?
  {
    FlagSays(flag, last, crate, Packaged(front, crate), Known(front, crate), Run(front, clean).signingError);
  }

  lemma SaysAtFront(flag: Flag, front: seq<Event>, last: Event, clean: string -> string, crate: string, i: nat)
    requires i <= |front|
    ensures SaysAt(flag, front + [last], clean, crate, i) ==
      if i < |front| then SaysAt(flag, front, clean, crate, i) else SaysNext(Flagged(flag), front, last, clean, crate)
  {
    assert (front + [last])[..i] == front[..i];
    assert front[..|front|] == front;
  }

  lemma StartedSnoc(flag: Flag, front: seq<Event>, last: Event, clean: string -> string, crate: string)
    ensures Started(flag, front + [last], clean, crate) <==>
      var w := SaysNext(Flagged(flag), front, last, clean, crate);
      if w.Some? then w == Some(Bit(true)) else Started(flag, front, clean, crate)
  {
    var events := front + [last];
    NextIsBit(flag, front, last, clean, crate);
    forall i: nat | i <= |front|
      ensures SaysAt(flag, events, clean, crate, i) ==
        if i < |front| then SaysAt(flag, front, clean, crate, i) else SaysNext(Flagged(flag), front, last, clean, crate)
    {
      SaysAtFront(flag, front, last, clean, crate, i);
    }
    if i: nat :| StartedLast(flag, events, clean, crate, i) {
      assert i < |front| ==> SaysAt(flag, events, clean, crate, |front|) != Some(Bit(false));
      forall j: nat | i < j < |front| ensures SaysAt(flag, front, clean, crate, j) != Some(Bit(false)) {
        assert SaysAt(flag, events, clean, crate, j) != Some(Bit(false));
      }
      assert i < |front| ==> StartedLast(flag, front, clean, crate, i);
    }
    if i: nat :| StartedLast(flag, front, clean, crate, i) {
      assert SaysAt(flag, events, clean, crate, |front|) != Some(Bit(false)) ==>
        StartedLast(flag, events, clean, crate, i);
    }
    if SaysAt(flag, events, clean, crate, |front|) == Some(Bit(true)) {
      assert StartedLast(flag, events, clean, crate, |front|);
    }
  }

  lemma {:induction false} StartedIsLastSaid(flag: Flag, events: seq<Event>, clean: string -> string, crate: string)
    ensures Started(flag, events, clean, crate) <==> LastSaid(Flagged(flag), events, clean, crate) == Bit(true)
    decreases |events|, 1
  {
    if events != [] {
      StartedIsLastSaidMore(flag, events[..|events| - 1], events[|events| - 1], clean, crate);
      assert events == events[..|events| - 1] + [events[|events| - 1]];
    }
  }

  lemma {:induction false} StartedIsLastSaidMore(flag: Flag, front: seq<Event>, last: Event,
                                                 clean: string -> string, crate: string)
    ensures var events := front + [last];
      Started(flag, events, clean, crate) <==> LastSaid(Flagged(flag), events, clean, crate) == Bit(true)
    decreases |front| + 1, 0
  {
    StartedIsLastSaid(flag, front, clean, crate);
    StartedSnoc(flag, front, last, clean, crate);
    LastSaidSnoc(Flagged(flag), front, last, clean, crate);
  }

  lemma LastSaidSnoc(field: Field, front: seq<Event>, last: Event, clean: string -> string, crate: string)
    ensures LastSaid(field, front + [last], clean, crate) ==
      var w := SaysNext(field, front, last, clean, crate);
      if w.Some? then w.value else LastSaid(field, front, clean, crate)
  {
    assert (front + [last])[..|front|] == front;
  }

  /** A crate is shown as deploying, as publishing or as registering exactly when an event started
      that and no later one reported it done or failed, whatever events came between. A deploy start
      starts a registration of the crates whose package was detected before it. */
  lemma InProgressIffStarted(flag: Flag, events: seq<Event>, clean: string -> string, crate: string)
    ensures InProgress(flag, Run(events, clean).statuses, crate) <==> Started(flag, events, clean, crate)
  {
    FieldIsLastSaid(Flagged(flag), events, clean, crate);
    StartedIsLastSaid(flag, events, clean, crate);
  }

  // ---------- The fields besides the statuses ----------

  function PhaseAnswer(e: Event): Option<Phase> {
    match e
    case EnterPhase(phase) => Some(phase)
    case PipelineDone(_) => Some(Phase("done", "Pipeline complete", None))
    case PipelineError => Some(Phase("done", "Pipeline failed", None))
    case _ => None
  }

  /** A request sets the prompt, and its completion or failure clears it. */
  function PromptAnswer(e: Event): Option<Option<string>> {
    match e
    case SignRequest(prompt) => Some(Some(prompt))
    case SignComplete => Some(None)
    case SignError(_) => Some(None)
    case _ => None
  }

  function DetectAnswer(e: Event): Option<(seq<Contract>, seq<seq<string>>)> {
    if e.Detect? then Some((e.contracts, e.layers)) else None
  }

  function AllNotices(events: seq<Event>): seq<(string, string)> {
    if events == [] then []
    else
      var e := events[|events| - 1];
      AllNotices(events[..|events| - 1]) + if e.Detect? then Notices(e.contracts) else []
  }

  /** After any events the phase, the prompt and the detected contracts and layers are those of the
      last event about them, and the notices those of every detection, in order. */
  lemma {:induction false} RestIsLastSaid(events: seq<Event>, clean: string -> string)
    ensures var t := Run(events, clean);
      && t.phase == Last(events, PhaseAnswer)
      && Some(t.signingPrompt) == Or(Last(events, PromptAnswer), Some(None))
      && (t.contracts, t.layers) == Or(Last(events, DetectAnswer), Some(([], []))).value
      && t.crates == Flatten(t.layers)
      && t.notices == AllNotices(events)
  {
    if events != [] {
      RestIsLastSaid(events[..|events| - 1], clean);
      RestSays(Run(events[..|events| - 1], clean), events[|events| - 1], clean);
    }
  }

  lemma RestSays(s: State, e: Event, clean: string -> string)
    ensures var t := Step(s, e, clean);
      && t.phase == Or(PhaseAnswer(e), s.phase)
      && Some(t.signingPrompt) == Or(PromptAnswer(e), Some(s.signingPrompt))
      && Some((t.contracts, t.layers)) == Or(DetectAnswer(e), Some((s.contracts, s.layers)))
      && t.crates == (if e.Detect? then Flatten(t.layers) else s.crates)
      && t.notices == s.notices + if e.Detect? then Notices(e.contracts) else []
  {
  }

  /** A contract's notice names its package, or else a display name of its own. */
  predicate NoticeOf(c: Contract, notice: (string, string)) {
    && notice.0 == c.name && notice.1 != ""
    && (c.cdmPackage == Some(notice.1)
        || (!Truthy(c.cdmPackage) && c.displayName == Some(notice.1) && notice.1 != c.name))
  }

  lemma {:induction false} NoticesIff(contracts: seq<Contract>, notice: (string, string))
    ensures notice in Notices(contracts) <==> exists c :: c in contracts && NoticeOf(c, notice)
  {
    if contracts != [] {
      var front, last := contracts[..|contracts| - 1], contracts[|contracts| - 1];
      NoticesIff(front, notice);
      assert contracts == front + [last];
      assert notice in Notice(last) <==> NoticeOf(last, notice);
    }
  }

  /** The package that the last contract of this name that has one gives. */
  function LastPackage(contracts: seq<Contract>, crate: string): Option<string> {
    if contracts == [] then None
    else
      var last := contracts[|contracts| - 1];
      if last.name == crate && Truthy(last.cdmPackage) then last.cdmPackage
      else LastPackage(contracts[..|contracts| - 1], crate)
  }

  function PackageAnswer(crate: string): Event -> Option<string> {
    (e: Event) => if e.Detect? then LastPackage(e.contracts, crate) else None
  }

  function Get(m: map<string, string>, key: string): Option<string> {
    if key in m then Some(m[key]) else None
  }

  lemma {:induction false} PackagesGet(m: map<string, string>, contracts: seq<Contract>, crate: string)
    ensures Get(Packages(m, contracts), crate) == Or(LastPackage(contracts, crate), Get(m, crate))
  {
    if contracts != [] {
      PackagesGet(m, contracts[..|contracts| - 1], crate);
    }
  }

  /** And each recorded package is the last one detected. */
  lemma {:induction false} PackageIsLastDetected(events: seq<Event>, clean: string -> string, crate: string)
    ensures Get(Run(events, clean).packages, crate) == Last(events, PackageAnswer(crate))
  {
    if events != [] {
      var front, last := events[..|events| - 1], events[|events| - 1];
      PackageIsLastDetected(front, clean, crate);
      if last.Detect? {
        PackagesGet(Run(front, clean).packages, last.contracts, crate);
      }
    }
  }

  // ---------- Errors and frames ----------

  predicate WellKept(m: Statuses) {
    forall c :: c in m ==> m[c].crateName == c && (m[c].state == Error ==> m[c].error.Some?)
  }

  lemma UpdateWellKept(m: Statuses, crate: string, c: Change)
    requires WellKept(m)
    ensures WellKept(Update(m, crate, c))
  {
    var s := if crate in m then m[crate] else Fresh(crate);
    assert Changed(c, s, crate in m).crateName == crate;
  }

  lemma {:induction false} UpdateAllWellKept(m: Statuses, changes: seq<(string, Change)>)
    requires WellKept(m)
    ensures WellKept(UpdateAll(m, changes))
  {
    if changes != [] {
      var last := changes[|changes| - 1];
      UpdateAllWellKept(m, changes[..|changes| - 1]);
      UpdateWellKept(UpdateAll(m, changes[..|changes| - 1]), last.0, last.1);
    }
  }

  /** Every entry is kept under its own name, and every failed crate says why. */
  lemma {:induction false} FailuresAreExplained(events: seq<Event>, clean: string -> string)
    ensures WellKept(Run(events, clean).statuses)
  {
    if events != [] {
      var s, e := Run(events[..|events| - 1], clean), events[|events| - 1];
      FailuresAreExplained(events[..|events| - 1], clean);
      if e.Detect? {
        AddWaitingKeeps(s.statuses, Flatten(e.layers));
      }
      UpdateAllWellKept(Rest(s, e, clean).statuses, Changes(s, e));
    }
  }

  /** An event leaves every crate it does not name as it was, and detecting again demotes none. */
  lemma OthersUntouched(s: State, e: Event, clean: string -> string, crate: string)
    requires crate in s.statuses
    requires forall i :: 0 <= i < |Changes(s, e)| ==> Changes(s, e)[i].0 != crate
    ensures var m := Step(s, e, clean).statuses; crate in m && m[crate] == s.statuses[crate]
  {
    if e.Detect? {
      AddWaitingKeeps(s.statuses, Flatten(e.layers));
    }
    NotNamedNotAdded(Rest(s, e, clean).statuses, Changes(s, e), crate);
  }

  lemma UpdateAllSnoc(m: Statuses, changes: seq<(string, Change)>, crate: string, c: Change)
    ensures UpdateAll(m, changes + [(crate, c)]) == Update(UpdateAll(m, changes), crate, c)
  {
    assert (changes + [(crate, c)])[..|changes|] == changes;
  }

  lemma MoreDone(m: Statuses, addresses: seq<(string, Option<string>)>, i: nat, tx: string, block: string, took: Option<nat>)
    requires i < |addresses|
    ensures var (crate, address) := addresses[i];
      var before := UpdateAll(m, DoneChanges(addresses[..i], tx, block, took));
      UpdateAll(m, DoneChanges(addresses[..i + 1], tx, block, took)) ==
      if Truthy(address) then Update(before, crate, Deployed(address.value, tx, block, took)) else before
  {
    var (crate, address) := addresses[i];
    assert addresses[..i + 1][..i] == addresses[..i];
    var sofar := DoneChanges(addresses[..i], tx, block, took);
    if Truthy(address) {
      UpdateAllSnoc(m, sofar, crate, Deployed(address.value, tx, block, took));
    } else {
      assert sofar + [] == sofar;
    }
  }

  lemma DetectStep(s: State, contracts: seq<Contract>, layers: seq<seq<string>>, clean: string -> string)
    ensures Step(s, Detect(contracts, layers), clean) == Detected(s, contracts, layers)
  {
  }

  // ---------- The adapter ----------

  class ContractPipelineStatusAdapter {
    const clean: string -> string
    var statuses: Statuses
    var logLines: seq<string>
    var crates: seq<string>
    var layers: seq<seq<string>>
    var contracts: seq<Contract>
    var cdmPackageMap: map<string, string>
    var notices: seq<(string, string)>
    var phase: Option<Phase>
    var signingPrompt: Option<string>
    var signingError: Option<string>
    var runError: Option<string>

    constructor (clean: string -> string)
      ensures Now() == START && this.clean == clean
    {
      this.clean := clean;
      statuses, logLines, crates, layers, contracts := map[], [], [], [], [];
      cdmPackageMap, notices, phase := map[], [], None;
      signingPrompt, signingError, runError := None, None, None;
    }

    function Now(): State
      reads this
    {
      State(statuses, logLines, crates, layers, contracts, cdmPackageMap, notices,
            phase, signingPrompt, signingError, runError)
    }

    method RecordRunError(message: string)
      modifies this
      ensures Now() == Step(old(Now()), SetRunError(message), clean)
    {
      if runError.None? {
        runError := Some(message);
      }
    }

    method HandleSigningEvent(event: Event)
      requires event.SignRequest? || event.SignComplete? || event.SignError?
      modifies this
      ensures Now() == Step(old(Now()), event, clean)
    {
      match event
      case SignRequest(prompt) =>
        signingPrompt := Some(prompt);
        signingError := None;
      case SignComplete =>
        signingPrompt := None;
      case SignError(reason) =>
        signingPrompt := None;
        signingError := Some(reason);
    }

    method Set(crate: string, change: Change)
      modifies this`statuses
      ensures statuses == Update(old(statuses), crate, change)
    {
      var known := crate in statuses;
      var current := if known then statuses[crate] else Fresh(crate);
      statuses := statuses[crate := Changed(change, current, known)];
    }

    method SetOne(crate: string, change: Change)
      modifies this`statuses
      ensures statuses == UpdateAll(old(statuses), [(crate, change)])
    {
      UpdateAllSnoc(statuses, [], crate, change);
      Set(crate, change);
    }

    method SetAll(names: seq<string>, change: Change)
      modifies this`statuses
      ensures statuses == UpdateAll(old(statuses), SameChange(names, change))
    {
      ghost var changes := SameChange(names, change);
      for i := 0 to |names|
        invariant statuses == UpdateAll(old(statuses), changes[..i])
      {
        assert changes[..i + 1][..i] == changes[..i];
        Set(names[i], change);
      }
      assert changes[..|names|] == changes;
    }

    method OnDeployStart(names: seq<string>)
      modifies this
      ensures Now() == Step(old(Now()), DeployRegisterStart(names), clean)
    {
      signingError := None;
      ghost var changes := StartChanges(names, cdmPackageMap);
      for i := 0 to |names|
        invariant statuses == UpdateAll(old(statuses), changes[..i])
        invariant Now() == old(Now()).(statuses := statuses, signingError := None)
      {
        assert changes[..i + 1][..i] == changes[..i];
        Set(names[i], Deploy(names[i] in cdmPackageMap));
      }
      assert changes[..|names|] == changes;
    }

    method OnDeployDone(addresses: seq<(string, Option<string>)>, txHash: string, blockHash: string, durationMs: Option<nat>)
      modifies this
      ensures Now() == Step(old(Now()), DeployRegisterDone(addresses, txHash, blockHash, durationMs), clean)
    {
      for i := 0 to |addresses|
        invariant statuses == UpdateAll(old(statuses), DoneChanges(addresses[..i], txHash, blockHash, durationMs))
        invariant Now() == old(Now()).(statuses := statuses)
      {
        MoreDone(old(statuses), addresses, i, txHash, blockHash, durationMs);
        var (crate, address) := addresses[i];
        if Truthy(address) {
          Set(crate, Deployed(address.value, txHash, blockHash, durationMs));
        }
      }
      assert addresses[..|addresses|] == addresses;
    }

    method OnPublishDone(cids: seq<(string, string)>, txHash: string)
      modifies this
      ensures Now() == Step(old(Now()), PublishDone(cids, txHash), clean)
    {
      ghost var changes := PublishedChanges(cids, txHash);
      for i := 0 to |cids|
        invariant statuses == UpdateAll(old(statuses), changes[..i])
        invariant Now() == old(Now()).(statuses := statuses)
      {
        assert changes[..i + 1][..i] == changes[..i];
        Set(cids[i].0, Published(cids[i].1, txHash));
      }
      assert changes[..|cids|] == changes;
    }

    method OnPublishStart(names: seq<string>)
      modifies this
      ensures Now() == Step(old(Now()), PublishStart(names), clean)
    {
      SetAll(names, Publish);
    }

    method OnDeployError(names: seq<string>, failure: string)
      modifies this
      ensures Now() == Step(old(Now()), DeployRegisterError(names, failure), clean)
    {
      SetAll(names, FailDeploy(if signingError.Some? then signingError.value else failure));
    }

    method OnDetect(found: seq<Contract>, order: seq<seq<string>>)
      modifies this
      ensures Now() == Detected(old(Now()), found, order)
    {
      contracts, layers, crates := found, order, Flatten(order);
      RecordPackages(found);
      AddMissing(crates);
    }

    method AddMissing(names: seq<string>)
      modifies this`statuses
      ensures statuses == AddWaiting(old(statuses), names)
    {
      for i := 0 to |names|
        invariant statuses == AddWaiting(old(statuses), names[..i])
      {
        assert names[..i + 1][..i] == names[..i];
        if names[i] !in statuses {
          statuses := statuses[names[i] := Fresh(names[i])];
        }
      }
      assert names[..|names|] == names;
    }

    method RecordPackages(found: seq<Contract>)
      modifies this`cdmPackageMap, this`notices
      ensures cdmPackageMap == Packages(old(cdmPackageMap), found)
      ensures notices == old(notices) + Notices(found)
    {
      for i := 0 to |found|
        invariant cdmPackageMap == Packages(old(cdmPackageMap), found[..i])
        invariant notices == old(notices) + Notices(found[..i])
      {
        assert found[..i + 1][..i] == found[..i];
        var c := found[i];
        if Truthy(c.cdmPackage) {
          cdmPackageMap := cdmPackageMap[c.name := c.cdmPackage.value];
          notices := notices + [(c.name, c.cdmPackage.value)];
        } else if Truthy(c.displayName) && c.displayName.value != c.name {
          notices := notices + [(c.name, c.displayName.value)];
        }
      }
      assert found[..|found|] == found;
    }

    /** A line is pushed, and lines beyond the fifth are spliced off the front. */
    method OnLog(rawLine: string)
      modifies this
      ensures Now() == Step(old(Now()), Log(rawLine), clean)
    {
      var line := clean(rawLine);
      if line == "" {
        return;
      }
      logLines := logLines + [line];
      if |logLines| > LOG_TAIL_LINES {
        logLines := logLines[|logLines| - LOG_TAIL_LINES..];
      }
    }

    method OnPipelineDone(failed: seq<bool>)
      modifies this
      ensures Now() == Step(old(Now()), PipelineDone(failed), clean)
    {
      phase := Some(Phase("done", "Pipeline complete", None));
      if true !in failed {
        logLines := [];
      }
    }

    method HandleBuildEvent(event: Event)
      requires event.Detect? || event.Log? || event.BuildStart? || event.BuildProgress? || event.BuildDone?
        || event.BuildError?
      modifies this
      ensures Now() == Step(old(Now()), event, clean)
    {
      match event
      case Detect(found, order) =>
        DetectStep(Now(), found, order, clean);
        OnDetect(found, order);
      case Log(line) => OnLog(line);
      case BuildStart(crate) => SetOne(crate, Start);
      case BuildProgress(crate, compiled, total) =>
        SetOne(crate, Compile(Progress(compiled, if total.Some? then total.value else 0)));
      case BuildDone(crate, ms, bytes) => SetOne(crate, Compiled(ms, bytes));
      case BuildError(crate, why) => SetOne(crate, FailBuild(why));
    }

    method HandleDeployEvent(event: Event)
      requires !event.SetRunError? && !event.SignRequest? && !event.SignComplete? && !event.SignError?
      modifies this
      ensures Now() == Step(old(Now()), event, clean)
    {
      match event
      case CheckCached(crate, address) => SetOne(crate, UseCached(address));
      case CheckNeedsDeploy =>
      case EnterPhase(p) => phase := Some(p);
      case DeployRegisterStart(names) => OnDeployStart(names);
      case PublishStart(names) => OnPublishStart(names);
      case DeployRegisterDone(addresses, tx, block, took) => OnDeployDone(addresses, tx, block, took);
      case PublishDone(cids, tx) => OnPublishDone(cids, tx);
      case DeployRegisterError(names, failure) => OnDeployError(names, failure);
      case PipelineDone(failed) => OnPipelineDone(failed);
      case PipelineError => phase := Some(Phase("done", "Pipeline failed", None));
      case Detect(_, _) => HandleBuildEvent(event);
      case Log(_) => HandleBuildEvent(event);
      case BuildStart(_) => HandleBuildEvent(event);
      case BuildProgress(_, _, _) => HandleBuildEvent(event);
      case BuildDone(_, _, _) => HandleBuildEvent(event);
      case BuildError(_, _) => HandleBuildEvent(event);
    }
  }
}
