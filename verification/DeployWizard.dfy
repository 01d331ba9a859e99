/** The interactive deploy wizard (src/commands/deploy/DeployScreen.tsx): a picker chooses the
    next stage from the answers so far, and each stage's handler records one more answer. */
module DeployWizard {
  import opened Answers
  import opened Options

  datatype Mode = Phone | Dev

  /** Not asked yet, explicitly none, or chosen. */
  datatype Tag = Unasked | Untagged | Tagged(tag: string)

  datatype Stage =
    | Ack | PromptBuild | PromptSigner | PromptContracts | ContractsNotice | PromptBuildDir
    | PromptDomain | ValidateDomain(domain: string) | PromptPublish | PromptModdable
    | ModdablePreflight | ModdableError | PromptTags | Confirm | Running | Done | Failed | Left

  /** The command-line flags, with `hasSession` for a logged-in phone. */
  datatype Inputs = Inputs(domain: Option<string>, buildDir: Option<string>, mode: Option<Mode>,
                           deployContracts: Option<bool>, publish: Option<bool>, skipBuild: Option<bool>,
                           moddable: Option<bool>, tag: Option<string>, hasSession: bool)

  /** Domain syntax, as the environment decides it, and whitespace trimming. */
  datatype Syntax = Syntax(normalizes: string -> bool, trim: string -> string)

  datatype State = State(stage: Stage, skipBuild: Option<bool>, mode: Option<Mode>,
                         deployContracts: Option<bool>, buildDir: Option<string>, domain: Option<string>,
                         publish: Option<bool>, moddable: Option<bool>, repositoryUrl: Option<string>, tag: Tag)

  datatype Event =
    | Continue | Leave | Build(skip: bool) | Signer(mode: Mode) | Contracts(yes: bool)
    | BuildDir(dir: string) | DomainSubmitted(text: string) | DomainAvailable(fullDomain: string)
    | DomainUnavailable | Publish(yes: bool) | Moddable(yes: bool) | PreflightResolved(url: string)
    | PreflightFailed | DeclineModdable | TagChosen(choice: Option<string>) | Proceed
    | DeploySucceeded | DeployFailed

  function PickNextStage(s: State): Stage {
    var effectiveSkipBuild := if s.deployContracts == Some(true) then Some(false) else s.skipBuild;
    if s.deployContracts.None? then PromptContracts
    else if effectiveSkipBuild.None? then PromptBuild
    else if s.mode.None? then PromptSigner
    else if s.buildDir.None? then PromptBuildDir
    else if s.domain.None? then PromptDomain
    else if s.publish.None? then PromptPublish
    else if s.publish.value && s.moddable.None? then PromptModdable
    else if s.publish.value && s.moddable.value && s.repositoryUrl.None? then ModdablePreflight
    else if s.publish.value && s.tag.Unasked? then PromptTags
    else Confirm
  }

  function Advance(s: State): State {
    s.(stage := PickNextStage(s))
  }

  /** The flag's domain is kept, as typed, if its trimmed form normalises. */
  function Start(x: Syntax, i: Inputs): State {
    State(Ack,
          if i.deployContracts == Some(true) then Some(false) else i.skipBuild,
          if !i.hasSession && i.mode == Some(Phone) then None else i.mode,
          i.deployContracts, i.buildDir,
          if i.domain.Some? && x.normalizes(x.trim(i.domain.value)) then i.domain else None,
          i.publish, i.moddable, None,
          if i.tag.Some? then Tagged(i.tag.value) else Unasked)
  }

  datatype Resolved = Resolved(mode: Mode, buildDir: string, domain: string, deployContracts: bool,
                               publish: bool, skipBuild: bool, moddable: bool,
                               repositoryUrl: Option<string>, tag: Option<string>)

  /** The confirmed plan, or nothing while an answer is missing. */
  function Resolve(s: State): Option<Resolved> {
    var effectiveSkipBuild := if s.deployContracts == Some(true) then Some(false) else s.skipBuild;
    if s.mode.None? || s.deployContracts.None? || s.buildDir.None? || s.domain.None? || s.publish.None?
       || effectiveSkipBuild.None? || s.moddable.None? || (s.publish.value && s.tag.Unasked?) then None
    else
      Some(Resolved(s.mode.value, s.buildDir.value, s.domain.value, s.deployContracts.value,
                    s.publish.value, effectiveSkipBuild.value, s.moddable.value, s.repositoryUrl,
                    if s.publish.value && s.tag.Tagged? then Some(s.tag.tag) else None))
  }

  /** Which answers the mounted stage can give. The confirmation and everything after it are
      mounted only with a resolved plan; the phone signer can be picked only with a session. */
  predicate Enabled(x: Syntax, i: Inputs, s: State, e: Event) {
    match e
    case Continue => s.stage.Ack? || s.stage.ContractsNotice?
    case Leave =>
      s.stage.Ack? || s.stage.ContractsNotice? || s.stage.ModdableError? || (s.stage.Confirm? && Resolve(s).Some?)
    case Build(_) => s.stage.PromptBuild?
    case Signer(mode) => s.stage.PromptSigner? && (mode.Phone? ==> i.hasSession)
    case Contracts(_) => s.stage.PromptContracts?
    case BuildDir(_) => s.stage.PromptBuildDir?
    case DomainSubmitted(text) => s.stage.PromptDomain? && x.normalizes(x.trim(text))
    case DomainAvailable(_) => s.stage.ValidateDomain?
    case DomainUnavailable => s.stage.ValidateDomain?
    case Publish(_) => s.stage.PromptPublish?
    case Moddable(_) => s.stage.PromptModdable?
    case PreflightResolved(_) => s.stage.ModdablePreflight?
    case PreflightFailed => s.stage.ModdablePreflight?
    case DeclineModdable => s.stage.ModdableError?
    case TagChosen(_) => s.stage.PromptTags?
    case Proceed => s.stage.Confirm? && Resolve(s).Some?
    case DeploySucceeded => s.stage.Running? && Resolve(s).Some?
    case DeployFailed => s.stage.Running? && Resolve(s).Some?
  }

  function Step(x: Syntax, s: State, e: Event): State {
    match e
    case Continue => Advance(s)
    case Leave => s.(stage := Left)
    case Build(skip) => Advance(s.(skipBuild := Some(skip)))
    case Signer(mode) => Advance(s.(mode := Some(mode)))
    case Contracts(yes) =>
      if yes then s.(deployContracts := Some(true), skipBuild := Some(false), stage := ContractsNotice)
      else Advance(s.(deployContracts := Some(false)))
    case BuildDir(dir) => Advance(s.(buildDir := Some(dir)))
    case DomainSubmitted(text) => s.(domain := Some(x.trim(text)), stage := ValidateDomain(x.trim(text)))
    case DomainAvailable(fullDomain) => Advance(s.(domain := Some(fullDomain)))
    case DomainUnavailable => s.(stage := PromptDomain)
    case Publish(yes) =>
      Advance(s.(publish := Some(yes), moddable := if yes then s.moddable else Some(false)))
    case Moddable(yes) =>
      if yes then s.(moddable := Some(true), stage := ModdablePreflight)
      else Advance(s.(moddable := Some(false)))
    case PreflightResolved(url) => Advance(s.(repositoryUrl := Some(url), moddable := Some(true)))
    case PreflightFailed => s.(stage := ModdableError)
    case DeclineModdable => Advance(s.(moddable := Some(false)))
    case TagChosen(choice) => Advance(s.(tag := if choice.Some? then Tagged(choice.value) else Untagged))
    case Proceed => s.(stage := Running)
    case DeploySucceeded => s.(stage := Done)
    case DeployFailed => s.(stage := Failed)
  }

  // ---------- Runs ----------

  ghost predicate Runnable(x: Syntax, i: Inputs, s: State, es: seq<Event>)
    decreases |es|
  {
    es == [] || (Enabled(x, i, s, es[0]) && Runnable(x, i, Step(x, s, es[0]), es[1..]))
  }

  ghost function Run(x: Syntax, s: State, es: seq<Event>): State
    decreases |es|
  {
    if es == [] then s else Run(x, Step(x, s, es[0]), es[1..])
  }

  /** The names that availability checks have accepted. */
  function Accepted(es: seq<Event>): set<string> {
    if es == [] then {}
    else (if es[0].DomainAvailable? then {es[0].fullDomain} else {}) + Accepted(es[1..])
  }

  /** A publish property of false with moddable unset: nothing will ask for the latter. The screen
      accepts these properties, but no command line produces them. */
  predicate Stuck(i: Inputs) {
    i.publish == Some(false) && i.moddable.None?
  }

  /** What the deploy command passes to the screen: it has no flag against publishing, a build
      choice follows from `--no-build` and `--contracts`, and a command line that answers all of
      signer, domain, directory, playground and contracts does not open the wizard. */
  predicate Passed(i: Inputs) {
    && i.publish != Some(false)
    && (i.deployContracts == Some(true) <==> i.skipBuild == Some(false))
    && !(i.mode.Some? && i.domain.Some? && i.buildDir.Some? && i.publish.Some? && i.deployContracts.Some?)
  }

  /** The stage that the answers call for, where a stage set directly counts as the one its
      handler will leave to the picker. */
  ghost predicate OnTrack(s: State) {
    match s.stage
    case Ack => true
    case ContractsNotice => s.deployContracts == Some(true) && s.skipBuild == Some(false)
    case PromptDomain => PickNextStage(s.(domain := None)) == PromptDomain
    case ValidateDomain(d) => s.domain == Some(d) && PickNextStage(s.(domain := None)) == PromptDomain
    case ModdableError => PickNextStage(s) == ModdablePreflight
    case Running => PickNextStage(s) == Confirm
    case Done => PickNextStage(s) == Confirm
    case Failed => PickNextStage(s) == Confirm
    case Left => true
    case stage => PickNextStage(s) == stage
  }

  ghost predicate Valid(x: Syntax, i: Inputs, accepted: set<string>, s: State) {
    && OnTrack(s)
    && (s.domain.Some? && !s.stage.PromptDomain? && !s.stage.ValidateDomain? && !s.stage.Left? ==>
          s.domain.value in accepted || (s.domain == i.domain && x.normalizes(x.trim(s.domain.value))))
    && (s.publish == Some(false) && s.moddable.None? <==> Stuck(i))
    && (s.mode == Some(Phone) ==> i.hasSession)
    && (s.deployContracts == Some(true) ==> s.skipBuild == Some(false))
    && (s.repositoryUrl.Some? ==> s.moddable.Some?)
    && (s.stage.Running? || s.stage.Done? || s.stage.Failed? ==> Resolve(s).Some?)
  }

  lemma StartValid(x: Syntax, i: Inputs)
    ensures Valid(x, i, {}, Start(x, i))
  {
  }

  lemma AdvanceIsOnTrack(s: State)
    ensures OnTrack(Advance(s))
  {
    if PickNextStage(s) == PromptDomain {
      assert s.(domain := None) == s;
    }
  }

  /** The stages that handlers set directly agree with the picker too. */
  lemma DomainStepOnTrack(x: Syntax, s: State, e: Event)
    requires OnTrack(s)
    requires if e.DomainSubmitted? then s.stage.PromptDomain? else e.DomainUnavailable? && s.stage.ValidateDomain?
    ensures OnTrack(Step(x, s, e))
  {
    var t := Step(x, s, e);
    assert t.(domain := None) == s.(domain := None, stage := t.stage);
  }

  /** Whether the handler may set a stage itself, other than the domain stages. */
  predicate SetsStage(e: Event) {
    e.Contracts? || e.Moddable? || e.PreflightFailed? || e.Proceed? || e.DeploySucceeded? || e.DeployFailed? || e.Leave?
  }

  lemma DirectStepOnTrack(x: Syntax, i: Inputs, s: State, e: Event)
    requires OnTrack(s) && Enabled(x, i, s, e) && SetsStage(e)
    requires s.repositoryUrl.Some? ==> s.moddable.Some?
    requires e.Contracts? || e.Moddable? ==> e.yes
    ensures OnTrack(Step(x, s, e))
  {
  }

  lemma OtherStepsAdvance(x: Syntax, s: State, e: Event)
    requires !e.DomainSubmitted? && !e.DomainUnavailable?
    requires SetsStage(e) ==> (e.Contracts? || e.Moddable?) && !e.yes
    ensures Step(x, s, e) == Advance(Step(x, s, e))
  {
  }

  lemma StepStaysOnTrack(x: Syntax, i: Inputs, s: State, e: Event)
    requires OnTrack(s) && Enabled(x, i, s, e) && (s.repositoryUrl.Some? ==> s.moddable.Some?)
    ensures OnTrack(Step(x, s, e))
  {
    if e.DomainSubmitted? || e.DomainUnavailable? {
      DomainStepOnTrack(x, s, e);
    } else if SetsStage(e) && (e.Contracts? || e.Moddable? ==> e.yes) {
      DirectStepOnTrack(x, i, s, e);
    } else {
      OtherStepsAdvance(x, s, e);
      AdvanceIsOnTrack(Step(x, s, e));
    }
  }

  lemma StepKeepsValid(x: Syntax, i: Inputs, accepted: set<string>, s: State, e: Event)
    requires Valid(x, i, accepted, s) && Enabled(x, i, s, e)
    ensures Valid(x, i, accepted + Accepted([e]), Step(x, s, e))
  {
    assert [e][1..] == [];
    StepStaysOnTrack(x, i, s, e);
  }

  lemma {:induction false} RunKeepsValid(x: Syntax, i: Inputs, accepted: set<string>, s: State, es: seq<Event>)
    requires Valid(x, i, accepted, s) && Runnable(x, i, s, es)
    ensures Valid(x, i, accepted + Accepted(es), Run(x, s, es))
    decreases |es|
  {
    if es != [] {
      StepKeepsValid(x, i, accepted, s, es[0]);
      assert Accepted(es) == Accepted([es[0]]) + Accepted(es[1..]) by {
        assert [es[0]][1..] == [];
      }
      assert accepted + Accepted([es[0]]) + Accepted(es[1..]) == accepted + Accepted(es);
      RunKeepsValid(x, i, accepted + Accepted([es[0]]), Step(x, s, es[0]), es[1..]);
    } else {
      assert accepted + Accepted(es) == accepted;
    }
  }

  // ---------- What holds at the confirmation ----------

  /** Whenever the wizard reaches its confirmation, by any answers: the plan is resolved except
      under the one combination of properties that leaves the moddable question unasked, where the
      screen shows nothing; a moddable publish has its repository; and the domain passed the
      availability check or is the flag's, whose trimmed form normalises. */
  lemma ConfirmIsResolved(x: Syntax, i: Inputs, es: seq<Event>)
    requires Runnable(x, i, Start(x, i), es) && Run(x, Start(x, i), es).stage.Confirm?
    ensures var s := Run(x, Start(x, i), es);
      && (Resolve(s).Some? <==> !Stuck(i))
      && (s.publish == Some(true) && s.moddable == Some(true) ==> s.repositoryUrl.Some?)
      && s.domain.Some?
      && (s.domain.value in Accepted(es) || (s.domain == i.domain && x.normalizes(x.trim(s.domain.value))))
  {
    StartValid(x, i);
    RunKeepsValid(x, i, {}, Start(x, i), es);
    assert {} + Accepted(es) == Accepted(es);
  }

  /** From the command line every confirmation is resolved, whatever is answered. */
  lemma CommandIsResolved(x: Syntax, i: Inputs, es: seq<Event>)
    requires Passed(i) && Runnable(x, i, Start(x, i), es) && Run(x, Start(x, i), es).stage.Confirm?
    ensures Resolve(Run(x, Start(x, i), es)).Some?
  {
    ConfirmIsResolved(x, i, es);
  }

  /** The run and its outcome are only ever shown with a resolved plan. */
  lemma RunningIsResolved(x: Syntax, i: Inputs, es: seq<Event>)
    requires Runnable(x, i, Start(x, i), es)
    requires var s := Run(x, Start(x, i), es); s.stage.Running? || s.stage.Done? || s.stage.Failed?
    ensures Resolve(Run(x, Start(x, i), es)).Some? && !Stuck(i)
    ensures PickNextStage(Run(x, Start(x, i), es)) == Confirm
  {
    StartValid(x, i);
    RunKeepsValid(x, i, {}, Start(x, i), es);
  }

  /** The properties under which the confirmation shows nothing. */
  lemma BlankConfirmation(x: Syntax, domain: string)
    requires x.normalizes(x.trim(domain))
    ensures var i := Inputs(Some(domain), Some("dist"), Some(Dev), Some(false), Some(false), Some(true), None, None, false);
      Runnable(x, i, Start(x, i), [Continue]) && Run(x, Start(x, i), [Continue]).stage.Confirm?
      && Resolve(Run(x, Start(x, i), [Continue])).None?
  {
    assert [Continue][1..] == [];
  }

  // ---------- Answers are kept ----------

  /** The domain is settled: it is not being typed or checked. */
  predicate DomainSettled(s: State) {
    s.domain.Some? && !s.stage.PromptDomain? && !s.stage.ValidateDomain?
  }

  ghost predicate KeepsDomain(s: State, t: State) {
    DomainSettled(s) ==> DomainSettled(t) && t.domain == s.domain
  }

  /** What is settled in `s` is the same in `t`. Only contracts overrule a build choice, and only
      declining takes back an unresolved "yes" to moddable. */
  ghost predicate KeepsAnswers(s: State, t: State) {
    && (s.mode.Some? ==> t.mode == s.mode)
    && (s.deployContracts.Some? ==> t.deployContracts == s.deployContracts)
    && (s.skipBuild.Some? ==> t.skipBuild == s.skipBuild || (t.deployContracts == Some(true) && t.skipBuild == Some(false)))
    && (s.buildDir.Some? ==> t.buildDir == s.buildDir)
    && (s.publish.Some? ==> t.publish == s.publish)
    && (s.moddable == Some(false) ==> t.moddable == Some(false))
    && (s.repositoryUrl.Some? ==> t.repositoryUrl == s.repositoryUrl && t.moddable == s.moddable)
    && (!s.tag.Unasked? ==> t.tag == s.tag)
  }

  /** A repository is recorded only for a moddable publish. */
  predicate RepositoryFits(s: State) {
    s.repositoryUrl.Some? ==> s.publish == Some(true) && s.moddable == Some(true)
  }

  lemma StepKeepsSettled(x: Syntax, i: Inputs, accepted: set<string>, s: State, e: Event)
    requires Valid(x, i, accepted, s) && RepositoryFits(s) && Enabled(x, i, s, e)
    ensures KeepsAnswers(s, Step(x, s, e)) && RepositoryFits(Step(x, s, e))
  {
  }

  lemma StepKeepsDomain(x: Syntax, i: Inputs, accepted: set<string>, s: State, e: Event)
    requires Valid(x, i, accepted, s) && Enabled(x, i, s, e)
    ensures KeepsDomain(s, Step(x, s, e))
  {
  }

  lemma KeepsTrans(s: State, t: State, u: State)
    requires KeepsAnswers(s, t) && KeepsAnswers(t, u) && KeepsDomain(s, t) && KeepsDomain(t, u)
    ensures KeepsAnswers(s, u) && KeepsDomain(s, u)
  {
  }

  /** No answer once settled is asked for again or overwritten, along any run. */
  lemma {:induction false} SettledStays(x: Syntax, i: Inputs, accepted: set<string>, s: State, es: seq<Event>)
    requires Valid(x, i, accepted, s) && RepositoryFits(s) && Runnable(x, i, s, es)
    ensures KeepsAnswers(s, Run(x, s, es)) && KeepsDomain(s, Run(x, s, es))
    decreases |es|
  {
    if es != [] {
      var t := Step(x, s, es[0]);
      StepKeepsSettled(x, i, accepted, s, es[0]);
      StepKeepsDomain(x, i, accepted, s, es[0]);
      StepKeepsValid(x, i, accepted, s, es[0]);
      SettledStays(x, i, accepted + Accepted([es[0]]), t, es[1..]);
      KeepsTrans(s, t, Run(x, t, es[1..]));
    }
  }

  /** What was given on the command line is what every later state holds: a phone signer without a
      session and a domain that does not normalise are dropped, a build choice gives way to
      contracts, and nothing else changes but a "yes" to moddable. */
  lemma FlagsAreKept(x: Syntax, i: Inputs, es: seq<Event>)
    requires Runnable(x, i, Start(x, i), es)
    ensures var s := Run(x, Start(x, i), es);
      && (i.mode == Some(Dev) || (i.mode == Some(Phone) && i.hasSession) ==> s.mode == i.mode)
      && (i.deployContracts.Some? ==> s.deployContracts == i.deployContracts)
      && (i.skipBuild.Some? ==> s.skipBuild == i.skipBuild || s.deployContracts == Some(true))
      && (i.buildDir.Some? ==> s.buildDir == i.buildDir) && (i.publish.Some? ==> s.publish == i.publish)
      && (i.moddable == Some(false) ==> s.moddable == Some(false))
      && (i.tag.Some? ==> s.tag == Tagged(i.tag.value))
      && (i.domain.Some? && x.normalizes(x.trim(i.domain.value)) ==> s.domain == i.domain)
  {
    StartValid(x, i);
    SettledStays(x, i, {}, Start(x, i), es);
  }

  // ---------- What the plan is ----------

  function SignerAnswer(e: Event): Option<Mode> {
    if e.Signer? then Some(e.mode) else None
  }

  function ContractsAnswer(e: Event): Option<bool> {
    if e.Contracts? then Some(e.yes) else None
  }

  /** Contracts are built, so they answer the build question too. */
  function BuildAnswer(e: Event): Option<bool> {
    match e
    case Build(skip) => Some(skip)
    case Contracts(yes) => if yes then Some(false) else None
    case _ => None
  }

  function DirAnswer(e: Event): Option<string> {
    if e.BuildDir? then Some(e.dir) else None
  }

  /** A name counts once its check has accepted it. */
  function DomainAnswer(e: Event): Option<string> {
    if e.DomainAvailable? then Some(e.fullDomain) else None
  }

  function PublishAnswer(e: Event): Option<bool> {
    if e.Publish? then Some(e.yes) else None
  }

  /** Who does not publish offers nothing to modify. */
  function ModdableAnswer(e: Event): Option<bool> {
    match e
    case Moddable(yes) => Some(yes)
    case PreflightResolved(_) => Some(true)
    case DeclineModdable => Some(false)
    case Publish(yes) => if yes then None else Some(false)
    case _ => None
  }

  function RepositoryAnswer(e: Event): Option<string> {
    if e.PreflightResolved? then Some(e.url) else None
  }

  function TagAnswer(e: Event): Option<Option<string>> {
    if e.TagChosen? then Some(e.choice) else None
  }

  /** A phone signer needs a session. */
  function GivenMode(i: Inputs): Option<Mode> {
    if i.mode == Some(Phone) && !i.hasSession then None else i.mode
  }

  function GivenDomain(x: Syntax, i: Inputs): Option<string> {
    if i.domain.Some? && x.normalizes(x.trim(i.domain.value)) then i.domain else None
  }

  function TagOf(choice: Option<Option<string>>, was: Tag): Tag {
    match choice
    case None => was
    case Some(None) => Untagged
    case Some(Some(tag)) => Tagged(tag)
  }

  ghost predicate Records(es: seq<Event>, s: State, t: State) {
    && t.mode == Or(Last(es, SignerAnswer), s.mode)
    && t.deployContracts == Or(Last(es, ContractsAnswer), s.deployContracts)
    && t.skipBuild == Or(Last(es, BuildAnswer), s.skipBuild)
    && t.buildDir == Or(Last(es, DirAnswer), s.buildDir)
    && t.publish == Or(Last(es, PublishAnswer), s.publish)
    && t.moddable == Or(Last(es, ModdableAnswer), s.moddable)
    && t.repositoryUrl == Or(Last(es, RepositoryAnswer), s.repositoryUrl)
    && t.tag == TagOf(Last(es, TagAnswer), s.tag)
  }

  lemma StepRecords(x: Syntax, s: State, e: Event)
    ensures var t := Step(x, s, e);
      && t.mode == Or(SignerAnswer(e), s.mode)
      && t.deployContracts == Or(ContractsAnswer(e), s.deployContracts)
      && t.skipBuild == Or(BuildAnswer(e), s.skipBuild)
      && t.buildDir == Or(DirAnswer(e), s.buildDir)
      && t.publish == Or(PublishAnswer(e), s.publish)
      && t.moddable == Or(ModdableAnswer(e), s.moddable)
      && t.repositoryUrl == Or(RepositoryAnswer(e), s.repositoryUrl)
      && t.tag == TagOf(TagAnswer(e), s.tag)
  {
  }

  lemma {:induction false} RunRecords(x: Syntax, s: State, es: seq<Event>)
    ensures Records(es, s, Run(x, s, es))
    decreases |es|
  {
    if es != [] {
      StepRecords(x, s, es[0]);
      RunRecords(x, Step(x, s, es[0]), es[1..]);
      RecordsMore(es, s, Step(x, s, es[0]), Run(x, s, es));
    }
  }

  lemma RecordsMore(es: seq<Event>, s: State, t: State, u: State)
    requires es != [] && Records(es[1..], t, u)
    requires var e := es[0];
      && t.mode == Or(SignerAnswer(e), s.mode)
      && t.deployContracts == Or(ContractsAnswer(e), s.deployContracts)
      && t.skipBuild == Or(BuildAnswer(e), s.skipBuild)
      && t.buildDir == Or(DirAnswer(e), s.buildDir)
      && t.publish == Or(PublishAnswer(e), s.publish)
      && t.moddable == Or(ModdableAnswer(e), s.moddable)
      && t.repositoryUrl == Or(RepositoryAnswer(e), s.repositoryUrl)
      && t.tag == TagOf(TagAnswer(e), s.tag)
    ensures Records(es, s, u)
  {
    LastRecords(es, SignerAnswer, s.mode, t.mode, u.mode);
    LastRecords(es, ContractsAnswer, s.deployContracts, t.deployContracts, u.deployContracts);
    LastRecords(es, BuildAnswer, s.skipBuild, t.skipBuild, u.skipBuild);
    LastRecords(es, DirAnswer, s.buildDir, t.buildDir, u.buildDir);
    LastRecords(es, PublishAnswer, s.publish, t.publish, u.publish);
    LastRecords(es, ModdableAnswer, s.moddable, t.moddable, u.moddable);
    LastRecords(es, RepositoryAnswer, s.repositoryUrl, t.repositoryUrl, u.repositoryUrl);
    LastCons(es, TagAnswer);
  }

  /** The domain is the last one accepted, or the flag's, but while it is asked for. */
  predicate DomainIs(s: State, domain: Option<string>) {
    if s.stage.PromptDomain? || s.stage.ValidateDomain? then domain == None else s.domain == domain
  }

  lemma StepDomainIs(x: Syntax, i: Inputs, s: State, e: Event, domain: Option<string>)
    requires OnTrack(s) && Enabled(x, i, s, e) && DomainIs(s, domain)
    ensures DomainIs(Step(x, s, e), Or(DomainAnswer(e), domain))
  {
  }

  lemma {:induction false} RunDomainIs(x: Syntax, i: Inputs, accepted: set<string>, s: State, es: seq<Event>,
                                       domain: Option<string>)
    requires Valid(x, i, accepted, s) && Runnable(x, i, s, es) && DomainIs(s, domain)
    ensures DomainIs(Run(x, s, es), Or(Last(es, DomainAnswer), domain))
    decreases |es|
  {
    if es != [] {
      StepDomainIs(x, i, s, es[0], domain);
      StepKeepsValid(x, i, accepted, s, es[0]);
      RunDomainIs(x, i, accepted + Accepted([es[0]]), Step(x, s, es[0]), es[1..], Or(DomainAnswer(es[0]), domain));
      LastCons(es, DomainAnswer);
    }
  }

  /** The plan that is confirmed and run is, field by field, what was answered last, or else given on
      the command line: nothing else decides it. */
  lemma PlanIsAnswered(x: Syntax, i: Inputs, es: seq<Event>)
    requires Runnable(x, i, Start(x, i), es)
    requires var s := Run(x, Start(x, i), es);
      (s.stage.Confirm? || s.stage.Running? || s.stage.Done? || s.stage.Failed?) && Resolve(s).Some?
    ensures var plan := Resolve(Run(x, Start(x, i), es)).value;
      && Some(plan.mode) == Or(Last(es, SignerAnswer), GivenMode(i))
      && Some(plan.deployContracts) == Or(Last(es, ContractsAnswer), i.deployContracts)
      && (!plan.deployContracts ==> Some(plan.skipBuild) == Or(Last(es, BuildAnswer), i.skipBuild))
      && (plan.deployContracts ==> !plan.skipBuild)
      && Some(plan.buildDir) == Or(Last(es, DirAnswer), i.buildDir)
      && Some(plan.domain) == Or(Last(es, DomainAnswer), GivenDomain(x, i))
      && Some(plan.publish) == Or(Last(es, PublishAnswer), i.publish)
      && Some(plan.moddable) == Or(Last(es, ModdableAnswer), i.moddable)
      && plan.repositoryUrl == Last(es, RepositoryAnswer)
      && plan.tag == (if plan.publish then Or(Last(es, TagAnswer), Some(i.tag)).value else None)
  {
    StartValid(x, i);
    RunRecords(x, Start(x, i), es);
    RunDomainIs(x, i, {}, Start(x, i), es, GivenDomain(x, i));
    FlagsAreKept(x, i, es);
  }

  function TypedAnswer(e: Event): Option<string> {
    if e.DomainSubmitted? then Some(e.text) else None
  }

  /** The name whose availability is checked is the one typed last, trimmed. */
  lemma {:induction false} CheckedIsTyped(x: Syntax, s: State, es: seq<Event>, typed: Option<string>)
    requires s.stage.ValidateDomain? ==> typed.Some? && s.stage.domain == x.trim(typed.value)
    ensures var t, last := Run(x, s, es), Or(Last(es, TypedAnswer), typed);
      t.stage.ValidateDomain? ==> last.Some? && t.stage.domain == x.trim(last.value)
    decreases |es|
  {
    if es != [] {
      CheckedIsTyped(x, Step(x, s, es[0]), es[1..], Or(TypedAnswer(es[0]), typed));
      LastCons(es, TypedAnswer);
    }
  }

  /** The order of the questions. */
  function Place(stage: Stage): nat {
    match stage
    case Ack => 0
    case PromptContracts => 1
    case ContractsNotice => 2
    case PromptBuild => 3
    case PromptSigner => 4
    case PromptBuildDir => 5
    case PromptDomain => 6
    case ValidateDomain(_) => 6
    case PromptPublish => 7
    case PromptModdable => 8
    case ModdablePreflight => 8
    case ModdableError => 8
    case PromptTags => 9
    case Confirm => 10
    case Running => 11
    case Done => 12
    case Failed => 12
    case Left => 12
  }

  lemma StepAsksInOrder(x: Syntax, i: Inputs, s: State, e: Event)
    requires OnTrack(s) && Enabled(x, i, s, e) && (s.repositoryUrl.Some? ==> s.moddable.Some?)
    ensures Place(Step(x, s, e).stage) >= Place(s.stage)
  {
  }

  /** Along every run the questions come in that order; only a domain is asked for again. */
  lemma {:induction false} AsksInOrder(x: Syntax, i: Inputs, accepted: set<string>, s: State, es: seq<Event>)
    requires Valid(x, i, accepted, s) && Runnable(x, i, s, es)
    ensures Place(Run(x, s, es).stage) >= Place(s.stage)
    decreases |es|
  {
    if es != [] {
      StepAsksInOrder(x, i, s, es[0]);
      StepKeepsValid(x, i, accepted, s, es[0]);
      AsksInOrder(x, i, accepted + Accepted([es[0]]), Step(x, s, es[0]), es[1..]);
    }
  }

  // ---------- The summary ----------

  /** The confirmation renders a summary that normalises the domain once more, untrimmed. If
      accepted names normalise, that fails exactly when the domain flag normalises trimmed and not
      as typed, whatever is answered. */
  lemma SummaryRendersIff(x: Syntax, i: Inputs, es: seq<Event>)
    requires Runnable(x, i, Start(x, i), es) && Run(x, Start(x, i), es).stage.Confirm?
    requires forall name :: name in Accepted(es) ==> x.normalizes(name)
    ensures var domain := Run(x, Start(x, i), es).domain;
      && domain.Some?
      && (x.normalizes(domain.value) <==>
            !(i.domain.Some? && x.normalizes(x.trim(i.domain.value)) && !x.normalizes(i.domain.value)))
  {
    ConfirmIsResolved(x, i, es);
    FlagsAreKept(x, i, es);
  }

  /** Such a flag, given with others that still open the wizard, and one answer: the plan is
      resolved and its summary fails. */
  lemma PaddedFlagBreaksSummary(x: Syntax, domain: string)
    requires x.normalizes(x.trim(domain)) && !x.normalizes(domain)
    ensures var i := Inputs(Some(domain), Some("dist"), Some(Dev), Some(false), None, Some(true), None, None, false);
      var es := [Continue, Publish(false)];
      && Passed(i) && Runnable(x, i, Start(x, i), es)
      && var s := Run(x, Start(x, i), es);
        s.stage.Confirm? && Resolve(s).Some? && Resolve(s).value.domain == domain
  {
    assert [Continue, Publish(false)][1..] == [Publish(false)];
    assert [Publish(false)][1..] == [];
  }

  // ---------- Progress ----------

  /** Decisions still open, with a screen to acknowledge counting as one. */
  function Remaining(s: State): nat {
    (if s.stage.Ack? then 1 else 0)
    + (if s.deployContracts.None? then 2 else if s.stage.ContractsNotice? then 1 else 0)
    + (if s.skipBuild.None? && s.deployContracts != Some(true) then 1 else 0)
    + (if s.mode.None? then 1 else 0)
    + (if s.buildDir.None? then 1 else 0)
    + (if s.domain.None? || s.stage.PromptDomain? then 2 else if s.stage.ValidateDomain? then 1 else 0)
    + (if s.publish.None? then 1 else 0)
    + (if s.moddable.None? then 3
       else if !s.moddable.value || s.repositoryUrl.Some? then 0
       else if s.stage.ModdableError? then 1 else 2)
    + (if s.tag.Unasked? then 1 else 0)
    + (if s.stage.Running? then 1 else if s.stage.Done? || s.stage.Failed? || s.stage.Left? then 0 else 2)
  }

  lemma RemainingAfterAdvance(s: State)
    ensures Remaining(Advance(s)) ==
      (if s.deployContracts.None? then 2 else 0)
      + (if s.skipBuild.None? && s.deployContracts != Some(true) then 1 else 0)
      + (if s.mode.None? then 1 else 0) + (if s.buildDir.None? then 1 else 0)
      + (if s.domain.None? then 2 else 0) + (if s.publish.None? then 1 else 0)
      + (if s.moddable.None? then 3 else if s.moddable.value && s.repositoryUrl.None? then 2 else 0)
      + (if s.tag.Unasked? then 1 else 0) + 2
  {
  }

  lemma DirectAnswersDecide(x: Syntax, i: Inputs, s: State, e: Event)
    requires OnTrack(s) && Enabled(x, i, s, e) && (s.repositoryUrl.Some? ==> s.moddable.Some?)
    requires e.DomainSubmitted? || e.DomainUnavailable? || (SetsStage(e) && (e.Contracts? || e.Moddable? ==> e.yes))
    ensures if e.DomainUnavailable? then Remaining(Step(x, s, e)) == Remaining(s) + 1
      else Remaining(Step(x, s, e)) < Remaining(s)
  {
  }

  lemma OtherAnswersDecide(x: Syntax, i: Inputs, s: State, e: Event)
    requires OnTrack(s) && Enabled(x, i, s, e)
    requires !e.DomainSubmitted? && !e.DomainUnavailable?
    requires SetsStage(e) ==> (e.Contracts? || e.Moddable?) && !e.yes
    ensures Remaining(Step(x, s, e)) < Remaining(s)
  {
    OtherStepsAdvance(x, s, e);
    RemainingAfterAdvance(Step(x, s, e));
  }

  /** Every answer settles something, except that a failed domain check reopens the domain. */
  lemma AnswersDecide(x: Syntax, i: Inputs, s: State, e: Event)
    requires OnTrack(s) && Enabled(x, i, s, e) && (s.repositoryUrl.Some? ==> s.moddable.Some?)
    ensures if e.DomainUnavailable? then Remaining(Step(x, s, e)) == Remaining(s) + 1
      else Remaining(Step(x, s, e)) < Remaining(s)
  {
    if e.DomainSubmitted? || e.DomainUnavailable? || (SetsStage(e) && (e.Contracts? || e.Moddable? ==> e.yes)) {
      DirectAnswersDecide(x, i, s, e);
    } else {
      OtherAnswersDecide(x, i, s, e);
    }
  }

  function FailedChecks(es: seq<Event>): nat {
    if es == [] then 0 else (if es[0].DomainUnavailable? then 1 else 0) + FailedChecks(es[1..])
  }

  /** A run takes at most fifteen answers and two more for each failed domain check. */
  lemma {:induction false} RunsAreShort(x: Syntax, i: Inputs, accepted: set<string>, s: State, es: seq<Event>)
    requires Valid(x, i, accepted, s) && Runnable(x, i, s, es)
    ensures |es| + Remaining(Run(x, s, es)) <= Remaining(s) + 2 * FailedChecks(es) <= 15 + 2 * FailedChecks(es)
    decreases |es|
  {
    if es != [] {
      AnswersDecide(x, i, s, es[0]);
      StepKeepsValid(x, i, accepted, s, es[0]);
      RunsAreShort(x, i, accepted + Accepted([es[0]]), Step(x, s, es[0]), es[1..]);
    }
  }

  lemma NeverDeadEnds(x: Syntax, i: Inputs, accepted: set<string>, s: State, name: string) returns (e: Event)
    requires Valid(x, i, accepted, s) && x.normalizes(x.trim(name))
    requires !s.stage.Done? && !s.stage.Failed? && !s.stage.Left?
    requires Stuck(i) ==> !s.stage.Confirm?
    ensures Enabled(x, i, s, e)
  {
    match s.stage {
      case Ack => e := Continue;
      case ContractsNotice => e := Continue;
      case PromptBuild => e := Build(true);
      case PromptSigner => e := Signer(Dev);
      case PromptContracts => e := Contracts(false);
      case PromptBuildDir => e := BuildDir("");
      case PromptDomain => e := DomainSubmitted(name);
      case ValidateDomain(_) => e := DomainUnavailable;
      case PromptPublish => e := Publish(true);
      case PromptModdable => e := Moddable(true);
      case ModdablePreflight => e := PreflightFailed;
      case ModdableError => e := DeclineModdable;
      case PromptTags => e := TagChosen(None);
      case Confirm => e := Proceed;
      case Running => e := DeploySucceeded;
    }
  }

  /** An unfinished wizard takes some answer, unless its properties leave the confirmation
      unresolved: then the screen is blank and takes none. */
  lemma DeadEndIff(x: Syntax, i: Inputs, accepted: set<string>, s: State, name: string)
    requires Valid(x, i, accepted, s) && x.normalizes(x.trim(name))
    requires !s.stage.Done? && !s.stage.Failed? && !s.stage.Left?
    ensures (forall e :: !Enabled(x, i, s, e)) <==> Stuck(i) && s.stage.Confirm?
  {
    if !(Stuck(i) && s.stage.Confirm?) {
      var e := NeverDeadEnds(x, i, accepted, s, name);
    }
  }

  // ---------- The component ----------

  /** The screen's state hooks, with one method for each handler. Handlers pass the picker the
      answers they have just recorded, since the hooks show them only on the next rendering. */
  class DeployScreen {
    const syntax: Syntax
    var stage: Stage
    var skipBuild: Option<bool>
    var mode: Option<Mode>
    var deployContracts: Option<bool>
    var buildDir: Option<string>
    var domain: Option<string>
    var publish: Option<bool>
    var moddable: Option<bool>
    var repositoryUrl: Option<string>
    var tag: Tag

    ghost function Now(): State
      reads this
    {
      State(stage, skipBuild, mode, deployContracts, buildDir, domain, publish, moddable, repositoryUrl, tag)
    }

    constructor (syntax: Syntax, i: Inputs)
      ensures this.syntax == syntax && Now() == Start(syntax, i)
    {
      this.syntax := syntax;
      stage := Ack;
      skipBuild := if i.deployContracts == Some(true) then Some(false) else i.skipBuild;
      mode := if !i.hasSession && i.mode == Some(Phone) then None else i.mode;
      deployContracts, buildDir := i.deployContracts, i.buildDir;
      domain := if i.domain.Some? && syntax.normalizes(syntax.trim(i.domain.value)) then i.domain else None;
      publish, moddable, repositoryUrl := i.publish, i.moddable, None;
      tag := if i.tag.Some? then Tagged(i.tag.value) else Unasked;
    }

    /** The picker, over the recorded answers. */
    method AdvanceStage()
      modifies this`stage
      ensures Now() == Advance(old(Now()))
    {
      stage := PickNextStage(State(stage, skipBuild, mode, deployContracts, buildDir, domain, publish,
                                   moddable, repositoryUrl, tag));
    }

    method OnContracts(yes: bool)
      modifies this
      ensures Now() == Step(syntax, old(Now()), Contracts(yes))
    {
      deployContracts := Some(yes);
      if yes {
        skipBuild := Some(false);
        stage := ContractsNotice;
      } else {
        AdvanceStage();
      }
    }

    method OnDomainSubmit(text: string)
      modifies this
      ensures Now() == Step(syntax, old(Now()), DomainSubmitted(text))
    {
      var trimmed := syntax.trim(text);
      domain := Some(trimmed);
      stage := ValidateDomain(trimmed);
    }

    method OnDomainChecked(available: Option<string>)
      modifies this
      ensures Now() == Step(syntax, old(Now()),
                            if available.Some? then DomainAvailable(available.value) else DomainUnavailable)
    {
      if available.Some? {
        domain := available;
        AdvanceStage();
      } else {
        stage := PromptDomain;
      }
    }

    method OnPublish(yes: bool)
      modifies this
      ensures Now() == Step(syntax, old(Now()), Publish(yes))
    {
      publish := Some(yes);
      if !yes {
        moddable := Some(false);
      }
      AdvanceStage();
    }

    method OnModdable(yes: bool)
      modifies this
      ensures Now() == Step(syntax, old(Now()), Moddable(yes))
    {
      if yes {
        moddable := Some(true);
        stage := ModdablePreflight;
      } else {
        OnDeclineModdable();
      }
    }

    method OnDeclineModdable()
      modifies this
      ensures Now() == Step(syntax, old(Now()), DeclineModdable)
    {
      moddable := Some(false);
      AdvanceStage();
    }

    method OnPreflight(url: Option<string>)
      modifies this
      ensures Now() == Step(syntax, old(Now()), if url.Some? then PreflightResolved(url.value) else PreflightFailed)
    {
      if url.Some? {
        repositoryUrl, moddable := url, Some(true);
        AdvanceStage();
      } else {
        stage := ModdableError;
      }
    }
  }
}
