/** The interactive decentralize wizard (src/commands/decentralize/state.ts,
    src/commands/decentralize/DecentralizeScreen.tsx). Its stages read answers through non-null
    assertions; that they may is a property of the reachable states. */
module DecentralizeWizard {
  import opened Answers
  import opened Options

  datatype Kind = Url | Path
  datatype Mode = Phone | Dev
  datatype Tag = Unasked | Untagged | Tagged(tag: string)
  datatype Signer = Explicit(address: string) | Session(address: string) | DevPublish

  datatype Stage =
    | PromptSource | PromptUrl | PromptPath | PromptSigner | PromptDomain | ValidateDomain(raw: string)
    | PromptPublish | PromptModdable | ModdablePreflight | ModdableError | PromptTags
    | Confirm | Running | Done | Error | Cancelled

  datatype Inputs = Inputs(siteUrl: Option<string>, dot: Option<string>, explicitSigner: Option<Signer>,
                           sessionSigner: Option<Signer>, publish: Option<bool>, tag: Option<string>,
                           moddable: Option<bool>)

  datatype State = State(stage: Stage, sourceKind: Option<Kind>, siteUrl: Option<string>,
                         localPath: Option<string>, preparedFiles: Option<nat>, signerMode: Option<Mode>,
                         domainRaw: Option<string>, domainLabel: Option<string>, fullDomain: Option<string>,
                         publish: Option<bool>, moddable: Option<bool>, repositoryUrl: Option<string>, tag: Tag)

  /** `PathChosen` carries the file count that preparing the directory found. */
  datatype Event =
    | SourceChosen(kind: Kind) | UrlSubmitted(url: string) | PathSubmitted(path: string, files: nat)
    | SignerChosen(mode: Mode) | DomainSubmitted(raw: string)
    | DomainResolved(name: string, fullDomain: string) | DomainFailed
    | PublishChosen(yes: bool) | ModdableChosen(yes: bool) | PreflightResolved(url: string)
    | PreflightFailed | DeclineModdable | TagChosen(choice: Option<string>)
    | Go | Cancel | RunCompleted | RunFailed

  function PickNextStage(s: State): Stage {
    if s.sourceKind.None? then PromptSource
    else if s.sourceKind.value.Url? && s.siteUrl.None? then PromptUrl
    else if s.sourceKind.value.Path? && s.localPath.None? then PromptPath
    else if s.signerMode.None? then PromptSigner
    else if s.domainLabel.None? then
      if s.domainRaw.None? then PromptDomain else ValidateDomain(s.domainRaw.value)
    else if s.publish.None? then PromptPublish
    else if s.sourceKind.value.Path? && s.publish.value && s.moddable.None? then PromptModdable
    else if s.sourceKind.value.Path? && s.publish.value && s.moddable.value && s.repositoryUrl.None? then
      ModdablePreflight
    else if s.publish.value && s.tag.Unasked? then PromptTags
    else Confirm
  }

  function Advance(s: State): State {
    s.(stage := PickNextStage(s))
  }

  /** An empty site URL counts as none for the source kind, but is kept as the URL. */
  function Start(i: Inputs): State {
    Advance(State(PromptSource,
      if i.siteUrl.Some? && i.siteUrl.value != "" then Some(Url) else None,
      i.siteUrl, None, None, if i.explicitSigner.Some? then Some(Dev) else None,
      i.dot, None, None, i.publish, i.moddable, None,
      if i.tag.Some? then Tagged(i.tag.value) else Unasked))
  }

  predicate Enabled(s: State, e: Event) {
    match e
    case SourceChosen(_) => s.stage.PromptSource?
    case UrlSubmitted(_) => s.stage.PromptUrl?
    case PathSubmitted(_, _) => s.stage.PromptPath?
    case SignerChosen(_) => s.stage.PromptSigner?
    case DomainSubmitted(_) => s.stage.PromptDomain?
    case DomainResolved(_, _) => s.stage.ValidateDomain?
    case DomainFailed => s.stage.ValidateDomain?
    case PublishChosen(_) => s.stage.PromptPublish?
    case ModdableChosen(_) => s.stage.PromptModdable?
    case PreflightResolved(_) => s.stage.ModdablePreflight?
    case PreflightFailed => s.stage.ModdablePreflight?
    case DeclineModdable => s.stage.ModdableError?
    case TagChosen(_) => s.stage.PromptTags?
    case Go => s.stage.Confirm?
    case Cancel => s.stage.Confirm? || s.stage.ModdableError?
    case RunCompleted => s.stage.Running?
    case RunFailed => s.stage.Running?
  }

  function Step(i: Inputs, s: State, e: Event): State {
    match e
    case SourceChosen(kind) => Advance(s.(sourceKind := Some(kind)))
    case UrlSubmitted(url) => Advance(s.(siteUrl := Some(url)))
    case PathSubmitted(path, files) => Advance(s.(preparedFiles := Some(files), localPath := Some(path)))
    case SignerChosen(mode) =>
      if mode.Phone? && i.sessionSigner.None? then s.(stage := Error)
      else Advance(s.(signerMode := Some(mode)))
    case DomainSubmitted(raw) => Advance(s.(domainRaw := Some(raw)))
    case DomainResolved(name, fullDomain) =>
      Advance(s.(domainLabel := Some(name), fullDomain := Some(fullDomain)))
    case DomainFailed => s.(domainLabel := None, domainRaw := None, stage := PromptDomain)
    case PublishChosen(yes) => Advance(s.(publish := Some(yes)))
    case ModdableChosen(yes) =>
      if yes then s.(moddable := Some(true), stage := ModdablePreflight)
      else Advance(s.(moddable := Some(false)))
    case PreflightResolved(url) => Advance(s.(moddable := Some(true), repositoryUrl := Some(url)))
    case PreflightFailed => s.(stage := ModdableError)
    case DeclineModdable => Advance(s.(moddable := Some(false)))
    case TagChosen(choice) => Advance(s.(tag := if choice.Some? then Tagged(choice.value) else Untagged))
    case Go => s.(stage := Running)
    case Cancel => s.(stage := Cancelled)
    case RunCompleted => s.(stage := Done)
    case RunFailed => s.(stage := Error)
  }

  // ---------- What the stages read ----------

  datatype Source = Site(url: string) | Directory(path: string)

  function ResolvedSource(s: State): Option<Source> {
    if s.sourceKind.None? then None
    else if s.sourceKind.value.Url? && s.siteUrl.Some? then Some(Site(s.siteUrl.value))
    else if s.sourceKind.value.Path? && s.localPath.Some? then Some(Directory(s.localPath.value))
    else None
  }

  function ActiveSigner(i: Inputs, s: State): Option<Signer> {
    if i.explicitSigner.Some? then i.explicitSigner
    else match s.signerMode
      case Some(Phone) => i.sessionSigner
      case Some(Dev) => Some(DevPublish)
      case None => None
  }

  /** Everything the stage now shown reads through a non-null assertion is there. */
  predicate Mountable(i: Inputs, s: State) {
    match s.stage
    case ValidateDomain(_) => ResolvedSource(s).Some?
    case ModdablePreflight => s.localPath.Some?
    case Confirm =>
      && ResolvedSource(s).Some? && s.fullDomain.Some? && ActiveSigner(i, s).Some? && s.signerMode.Some?
      && (s.sourceKind == Some(Path) ==> s.preparedFiles.Some?)
    case Running =>
      ResolvedSource(s).Some? && s.domainLabel.Some? && s.fullDomain.Some? && s.signerMode.Some?
    case _ => true
  }

  // ---------- Reachable states ----------

  ghost predicate Runnable(i: Inputs, s: State, es: seq<Event>)
    decreases |es|
  {
    es == [] || (Enabled(s, es[0]) && Runnable(i, Step(i, s, es[0]), es[1..]))
  }

  ghost function Run(i: Inputs, s: State, es: seq<Event>): State
    decreases |es|
  {
    if es == [] then s else Run(i, Step(i, s, es[0]), es[1..])
  }

  ghost predicate OnTrack(s: State) {
    match s.stage
    case ModdableError => PickNextStage(s) == ModdablePreflight
    case Running => PickNextStage(s) == Confirm
    case Done => PickNextStage(s) == Confirm
    case Error => true
    case Cancelled => true
    case stage => PickNextStage(s) == stage
  }

  ghost predicate Consistent(i: Inputs, s: State) {
    && (s.domainLabel.Some? <==> s.fullDomain.Some?)
    && (s.localPath.Some? <==> s.preparedFiles.Some?)
    && (s.signerMode == Some(Phone) ==> i.sessionSigner.Some?)
    && (i.explicitSigner.Some? ==> s.signerMode.Some?)
    && (s.repositoryUrl.Some? ==> s.sourceKind == Some(Path) && s.publish == Some(true) && s.moddable == Some(true))
  }

  lemma StepStaysOnTrack(i: Inputs, s: State, e: Event)
    requires OnTrack(s) && Consistent(i, s) && Enabled(s, e)
    ensures OnTrack(Step(i, s, e))
  {
  }

  lemma StepStaysConsistent(i: Inputs, s: State, e: Event)
    requires OnTrack(s) && Consistent(i, s) && Enabled(s, e)
    ensures Consistent(i, Step(i, s, e))
  {
  }

  lemma {:induction false} RunStaysOnTrack(i: Inputs, s: State, es: seq<Event>)
    requires OnTrack(s) && Consistent(i, s) && Runnable(i, s, es)
    ensures OnTrack(Run(i, s, es)) && Consistent(i, Run(i, s, es))
    decreases |es|
  {
    if es != [] {
      StepStaysOnTrack(i, s, es[0]);
      StepStaysConsistent(i, s, es[0]);
      RunStaysOnTrack(i, Step(i, s, es[0]), es[1..]);
    }
  }

  /** Whatever the flags and answers, every stage finds what its assertions claim. */
  lemma AssertionsHold(i: Inputs, es: seq<Event>)
    requires Runnable(i, Start(i), es)
    ensures Mountable(i, Run(i, Start(i), es))
  {
    RunStaysOnTrack(i, Start(i), es);
    var s := Run(i, Start(i), es);
    match s.stage {
      case ValidateDomain(_) => SourceIsResolved(s);
      case ModdablePreflight => SourceIsResolved(s);
      case Confirm => SourceIsResolved(s); SignerIsActive(i, s);
      case Running => SourceIsResolved(s);
      case _ =>
    }
  }

  /** Past the source stages the source is there. */
  lemma SourceIsResolved(s: State)
    requires var stage := PickNextStage(s); !stage.PromptSource? && !stage.PromptUrl? && !stage.PromptPath?
    ensures ResolvedSource(s).Some? && (s.sourceKind == Some(Path) ==> s.localPath.Some?)
  {
  }

  lemma SignerIsActive(i: Inputs, s: State)
    requires s.signerMode.Some? && (s.signerMode == Some(Phone) ==> i.sessionSigner.Some?)
    ensures ActiveSigner(i, s).Some?
  {
    assert s.signerMode.value.Phone? ==> s.signerMode == Some(Phone);
  }

  /** What a confirmation records: a repository exactly for a moddable publish of a local
      directory, and a tag decision whenever it publishes. */
  lemma ConfirmRecordsRepositoryIff(i: Inputs, es: seq<Event>)
    requires Runnable(i, Start(i), es) && Run(i, Start(i), es).stage.Confirm?
    ensures var s := Run(i, Start(i), es);
      && (s.repositoryUrl.Some? <==>
            s.sourceKind == Some(Path) && s.publish == Some(true) && s.moddable == Some(true))
      && s.publish.Some? && (s.publish == Some(true) ==> !s.tag.Unasked?)
  {
    RunStaysOnTrack(i, Start(i), es);
  }

  // ---------- Answers are kept ----------

  /** What is settled in `s` is the same in `t`. Only declining takes back an unresolved "yes" to
      moddable, and a domain is settled once its check has passed. */
  ghost predicate Keeps(s: State, t: State) {
    && (s.sourceKind.Some? ==> t.sourceKind == s.sourceKind)
    && (s.siteUrl.Some? ==> t.siteUrl == s.siteUrl)
    && (s.localPath.Some? ==> t.localPath == s.localPath && t.preparedFiles == s.preparedFiles)
    && (s.signerMode.Some? ==> t.signerMode == s.signerMode)
    && (s.domainLabel.Some? ==> t.domainLabel == s.domainLabel && t.fullDomain == s.fullDomain)
    && (s.publish.Some? ==> t.publish == s.publish)
    && (s.moddable == Some(false) ==> t.moddable == Some(false))
    && (s.repositoryUrl.Some? ==> t.repositoryUrl == s.repositoryUrl && t.moddable == s.moddable)
    && (!s.tag.Unasked? ==> t.tag == s.tag)
  }

  lemma StepKeepsSettled(i: Inputs, s: State, e: Event)
    requires OnTrack(s) && Consistent(i, s) && Enabled(s, e)
    ensures Keeps(s, Step(i, s, e))
  {
  }

  /** No answer once settled is asked for again or overwritten, along any run. */
  lemma {:induction false} SettledStays(i: Inputs, s: State, es: seq<Event>)
    requires OnTrack(s) && Consistent(i, s) && Runnable(i, s, es)
    ensures Keeps(s, Run(i, s, es))
    decreases |es|
  {
    if es != [] {
      StepKeepsSettled(i, s, es[0]);
      StepStaysOnTrack(i, s, es[0]);
      StepStaysConsistent(i, s, es[0]);
      SettledStays(i, Step(i, s, es[0]), es[1..]);
    }
  }

  /** What was given on the command line is what every later state holds; an explicit signer signs
      whatever is answered. */
  lemma FlagsAreKept(i: Inputs, es: seq<Event>)
    requires Runnable(i, Start(i), es)
    ensures var s := Run(i, Start(i), es);
      && (i.siteUrl.Some? && i.siteUrl.value != "" ==> ResolvedSource(s) == Some(Site(i.siteUrl.value)))
      && (i.explicitSigner.Some? ==> s.signerMode == Some(Dev) && ActiveSigner(i, s) == i.explicitSigner)
      && (i.publish.Some? ==> s.publish == i.publish)
      && (i.moddable == Some(false) ==> s.moddable == Some(false))
      && (i.tag.Some? ==> s.tag == Tagged(i.tag.value))
  {
    SettledStays(i, Start(i), es);
  }

  // ---------- What is confirmed and run ----------

  function SourceAnswer(e: Event): Option<Kind> {
    if e.SourceChosen? then Some(e.kind) else None
  }

  function UrlAnswer(e: Event): Option<string> {
    if e.UrlSubmitted? then Some(e.url) else None
  }

  function PathAnswer(e: Event): Option<string> {
    if e.PathSubmitted? then Some(e.path) else None
  }

  function FilesAnswer(e: Event): Option<nat> {
    if e.PathSubmitted? then Some(e.files) else None
  }

  /** Choosing the phone without a session answers nothing. */
  function SignerAnswer(i: Inputs): Event -> Option<Mode> {
    (e: Event) => if e.SignerChosen? && !(e.mode.Phone? && i.sessionSigner.None?) then Some(e.mode) else None
  }

  /** A failed check takes back what was typed. */
  function TypedAnswer(e: Event): Option<Option<string>> {
    match e
    case DomainSubmitted(raw) => Some(Some(raw))
    case DomainFailed => Some(None)
    case _ => None
  }

  function LabelAnswer(e: Event): Option<string> {
    if e.DomainResolved? then Some(e.name) else None
  }

  function FullDomainAnswer(e: Event): Option<string> {
    if e.DomainResolved? then Some(e.fullDomain) else None
  }

  function PublishAnswer(e: Event): Option<bool> {
    if e.PublishChosen? then Some(e.yes) else None
  }

  function ModdableAnswer(e: Event): Option<bool> {
    match e
    case ModdableChosen(yes) => Some(yes)
    case PreflightResolved(_) => Some(true)
    case DeclineModdable => Some(false)
    case _ => None
  }

  function RepositoryAnswer(e: Event): Option<string> {
    if e.PreflightResolved? then Some(e.url) else None
  }

  function TagAnswer(e: Event): Option<Tag> {
    if e.TagChosen? then Some(if e.choice.Some? then Tagged(e.choice.value) else Untagged) else None
  }

  ghost predicate Records(i: Inputs, es: seq<Event>, s: State, t: State) {
    && t.sourceKind == Or(Last(es, SourceAnswer), s.sourceKind)
    && t.siteUrl == Or(Last(es, UrlAnswer), s.siteUrl)
    && t.localPath == Or(Last(es, PathAnswer), s.localPath)
    && t.preparedFiles == Or(Last(es, FilesAnswer), s.preparedFiles)
    && t.signerMode == Or(Last(es, SignerAnswer(i)), s.signerMode)
    && Some(t.domainRaw) == Or(Last(es, TypedAnswer), Some(s.domainRaw))
    && t.domainLabel == Or(Last(es, LabelAnswer), s.domainLabel)
    && t.fullDomain == Or(Last(es, FullDomainAnswer), s.fullDomain)
    && t.publish == Or(Last(es, PublishAnswer), s.publish)
    && t.moddable == Or(Last(es, ModdableAnswer), s.moddable)
    && t.repositoryUrl == Or(Last(es, RepositoryAnswer), s.repositoryUrl)
    && Some(t.tag) == Or(Last(es, TagAnswer), Some(s.tag))
  }

  ghost predicate StepRecords(i: Inputs, e: Event, s: State, t: State) {
    && t.sourceKind == Or(SourceAnswer(e), s.sourceKind)
    && t.siteUrl == Or(UrlAnswer(e), s.siteUrl)
    && t.localPath == Or(PathAnswer(e), s.localPath)
    && t.preparedFiles == Or(FilesAnswer(e), s.preparedFiles)
    && t.signerMode == Or(SignerAnswer(i)(e), s.signerMode)
    && Some(t.domainRaw) == Or(TypedAnswer(e), Some(s.domainRaw))
    && t.domainLabel == Or(LabelAnswer(e), s.domainLabel)
    && t.fullDomain == Or(FullDomainAnswer(e), s.fullDomain)
    && t.publish == Or(PublishAnswer(e), s.publish)
    && t.moddable == Or(ModdableAnswer(e), s.moddable)
    && t.repositoryUrl == Or(RepositoryAnswer(e), s.repositoryUrl)
    && Some(t.tag) == Or(TagAnswer(e), Some(s.tag))
  }

  lemma EveryStepRecords(i: Inputs, s: State, e: Event)
    requires OnTrack(s) && Enabled(s, e)
    ensures StepRecords(i, e, s, Step(i, s, e))
  {
  }

  lemma RecordsMore(i: Inputs, es: seq<Event>, s: State, t: State, u: State)
    requires es != [] && StepRecords(i, es[0], s, t) && Records(i, es[1..], t, u)
    ensures Records(i, es, s, u)
  {
    LastRecords(es, SourceAnswer, s.sourceKind, t.sourceKind, u.sourceKind);
    LastRecords(es, UrlAnswer, s.siteUrl, t.siteUrl, u.siteUrl);
    LastRecords(es, PathAnswer, s.localPath, t.localPath, u.localPath);
    LastRecords(es, FilesAnswer, s.preparedFiles, t.preparedFiles, u.preparedFiles);
    LastRecords(es, SignerAnswer(i), s.signerMode, t.signerMode, u.signerMode);
    LastRecords(es, TypedAnswer, Some(s.domainRaw), Some(t.domainRaw), Some(u.domainRaw));
    LastRecords(es, LabelAnswer, s.domainLabel, t.domainLabel, u.domainLabel);
    LastRecords(es, FullDomainAnswer, s.fullDomain, t.fullDomain, u.fullDomain);
    LastRecords(es, PublishAnswer, s.publish, t.publish, u.publish);
    LastRecords(es, ModdableAnswer, s.moddable, t.moddable, u.moddable);
    LastRecords(es, RepositoryAnswer, s.repositoryUrl, t.repositoryUrl, u.repositoryUrl);
    LastRecords(es, TagAnswer, Some(s.tag), Some(t.tag), Some(u.tag));
  }

  lemma {:induction false} RunRecords(i: Inputs, s: State, es: seq<Event>)
    requires OnTrack(s) && Consistent(i, s) && Runnable(i, s, es)
    ensures Records(i, es, s, Run(i, s, es))
    decreases |es|
  {
    if es != [] {
      EveryStepRecords(i, s, es[0]);
      StepStaysOnTrack(i, s, es[0]);
      StepStaysConsistent(i, s, es[0]);
      RunRecords(i, Step(i, s, es[0]), es[1..]);
      RecordsMore(i, es, s, Step(i, s, es[0]), Run(i, s, es));
    }
  }

  function GivenSource(i: Inputs): Option<Kind> {
    if i.siteUrl.Some? && i.siteUrl.value != "" then Some(Url) else None
  }

  /** The source that is confirmed and run is the one answered, or else the flag's site. */
  lemma SourceIsAnswered(i: Inputs, es: seq<Event>)
    requires Runnable(i, Start(i), es)
    requires var s := Run(i, Start(i), es); s.stage.Confirm? || s.stage.Running? || s.stage.Done?
    ensures var s, kind := Run(i, Start(i), es), Or(Last(es, SourceAnswer), GivenSource(i));
      var url, path := Or(Last(es, UrlAnswer), i.siteUrl), Last(es, PathAnswer);
      && kind.Some?
      && (kind.value.Url? ==> url.Some? && ResolvedSource(s) == Some(Site(url.value)))
      && (kind.value.Path? ==>
            path.Some? && ResolvedSource(s) == Some(Directory(path.value)) && s.preparedFiles == Last(es, FilesAnswer))
  {
    RunRecords(i, Start(i), es);
    RunStaysOnTrack(i, Start(i), es);
    SourceIsResolved(Run(i, Start(i), es));
  }

  /** And so is everything else that is confirmed and run: the signer, the name and the full domain
      that the check resolved, whether to publish, the repository and the tag. */
  lemma DecisionsAreAnswered(i: Inputs, es: seq<Event>)
    requires Runnable(i, Start(i), es)
    requires var s := Run(i, Start(i), es); s.stage.Confirm? || s.stage.Running? || s.stage.Done?
    ensures var s := Run(i, Start(i), es);
      && s.domainLabel.Some? && s.domainLabel == Last(es, LabelAnswer)
      && s.fullDomain.Some? && s.fullDomain == Last(es, FullDomainAnswer)
      && s.publish.Some? && s.publish == Or(Last(es, PublishAnswer), i.publish)
      && s.moddable == Or(Last(es, ModdableAnswer), i.moddable) && s.repositoryUrl == Last(es, RepositoryAnswer)
      && (s.publish == Some(true) ==>
            Some(s.tag) == Or(Last(es, TagAnswer), if i.tag.Some? then Some(Tagged(i.tag.value)) else None))
  {
    RunRecords(i, Start(i), es);
    RunStaysOnTrack(i, Start(i), es);
  }

  lemma SignerIsAnswered(i: Inputs, es: seq<Event>)
    requires Runnable(i, Start(i), es)
    requires var s := Run(i, Start(i), es); s.stage.Confirm? || s.stage.Running? || s.stage.Done?
    ensures ActiveSigner(i, Run(i, Start(i), es)) ==
      if i.explicitSigner.Some? then i.explicitSigner
      else if Last(es, SignerAnswer(i)) == Some(Phone) then i.sessionSigner else Some(DevPublish)
  {
    RunRecords(i, Start(i), es);
    RunStaysOnTrack(i, Start(i), es);
  }

  /** What is being checked is what was typed last since a check failed, or else the flag. */
  lemma CheckedIsTyped(i: Inputs, es: seq<Event>)
    requires Runnable(i, Start(i), es) && Run(i, Start(i), es).stage.ValidateDomain?
    ensures Or(Last(es, TypedAnswer), Some(i.dot)) == Some(Some(Run(i, Start(i), es).stage.raw))
  {
    RunRecords(i, Start(i), es);
    RunStaysOnTrack(i, Start(i), es);
  }

  /** The order of the questions. */
  function Place(stage: Stage): nat {
    match stage
    case PromptSource => 0
    case PromptUrl => 1
    case PromptPath => 1
    case PromptSigner => 2
    case PromptDomain => 3
    case ValidateDomain(_) => 3
    case PromptPublish => 4
    case PromptModdable => 5
    case ModdablePreflight => 5
    case ModdableError => 5
    case PromptTags => 6
    case Confirm => 7
    case Running => 8
    case Done => 9
    case Error => 9
    case Cancelled => 9
  }

  lemma StepAsksInOrder(i: Inputs, s: State, e: Event)
    requires OnTrack(s) && Enabled(s, e)
    ensures Place(Step(i, s, e).stage) >= Place(s.stage)
  {
  }

  /** Along every run the questions come in that order; only a domain is asked for again. */
  lemma {:induction false} AsksInOrder(i: Inputs, s: State, es: seq<Event>)
    requires OnTrack(s) && Consistent(i, s) && Runnable(i, s, es)
    ensures Place(Run(i, s, es).stage) >= Place(s.stage)
    decreases |es|
  {
    if es != [] {
      StepAsksInOrder(i, s, es[0]);
      StepStaysOnTrack(i, s, es[0]);
      StepStaysConsistent(i, s, es[0]);
      AsksInOrder(i, Step(i, s, es[0]), es[1..]);
    }
  }

  // ---------- Progress ----------

  /** Decisions still open at an unfinished stage. */
  function Remaining(s: State): nat {
    (if s.sourceKind.None? then 1 else 0)
    + (if s.sourceKind != Some(Path) && s.siteUrl.None? then 1 else 0)
    + (if s.sourceKind != Some(Url) && s.localPath.None? then 1 else 0)
    + (if s.signerMode.None? then 1 else 0)
    + (if s.domainLabel.Some? then 0 else if s.domainRaw.Some? then 1 else 2)
    + (if s.publish.None? then 1 else 0)
    + (if s.moddable.None? then 3
       else if !s.moddable.value || s.repositoryUrl.Some? then 0
       else if s.stage.ModdableError? then 1 else 2)
    + (if s.tag.Unasked? then 1 else 0)
    + (match s.stage case Running => 2 case Done => 0 case Error => 0 case Cancelled => 0 case _ => 3)
  }

  /** The events whose handlers leave the next stage to the picker. */
  predicate Advances(i: Inputs, e: Event) {
    match e
    case SignerChosen(mode) => !(mode.Phone? && i.sessionSigner.None?)
    case ModdableChosen(yes) => !yes
    case DomainFailed => false
    case PreflightFailed => false
    case Go => false
    case Cancel => false
    case RunCompleted => false
    case RunFailed => false
    case _ => true
  }

  lemma AdvancingDecides(i: Inputs, s: State, e: Event)
    requires OnTrack(s) && Enabled(s, e) && Advances(i, e)
    ensures Remaining(Step(i, s, e)) < Remaining(s)
  {
    var t := Step(i, s, e);
    assert !t.stage.ModdableError? && !t.stage.Running? && !t.stage.Done? && !t.stage.Error? && !t.stage.Cancelled?;
  }

  lemma DirectDecides(i: Inputs, s: State, e: Event)
    requires OnTrack(s) && Enabled(s, e) && !Advances(i, e)
    ensures if e.DomainFailed? then Remaining(Step(i, s, e)) == Remaining(s) + 1
      else Remaining(Step(i, s, e)) < Remaining(s)
  {
  }

  /** Every answer settles something, except that a failed domain check reopens the domain. */
  lemma AnswersDecide(i: Inputs, s: State, e: Event)
    requires OnTrack(s) && Enabled(s, e)
    ensures if e.DomainFailed? then Remaining(Step(i, s, e)) == Remaining(s) + 1
      else Remaining(Step(i, s, e)) < Remaining(s)
  {
    if Advances(i, e) {
      AdvancingDecides(i, s, e);
    } else {
      DirectDecides(i, s, e);
    }
  }

  function FailedChecks(es: seq<Event>): nat {
    if es == [] then 0 else (if es[0].DomainFailed? then 1 else 0) + FailedChecks(es[1..])
  }

  /** A run takes at most fourteen answers and two more for each failed domain check. */
  lemma {:induction false} RunsAreShort(i: Inputs, s: State, es: seq<Event>)
    requires OnTrack(s) && Consistent(i, s) && Runnable(i, s, es)
    ensures |es| + Remaining(Run(i, s, es)) <= Remaining(s) + 2 * FailedChecks(es) <= 14 + 2 * FailedChecks(es)
    decreases |es|
  {
    if es != [] {
      AnswersDecide(i, s, es[0]);
      StepStaysOnTrack(i, s, es[0]);
      StepStaysConsistent(i, s, es[0]);
      RunsAreShort(i, Step(i, s, es[0]), es[1..]);
    }
  }

  // ---------- The component ----------

  /** The screen's state hooks, with one method for each handler that does more than record a
      single answer and advance. */
  class DecentralizeScreen {
    const inputs: Inputs
    var stage: Stage
    var sourceKind: Option<Kind>
    var siteUrl: Option<string>
    var localPath: Option<string>
    var preparedFiles: Option<nat>
    var signerMode: Option<Mode>
    var domainRaw: Option<string>
    var domainLabel: Option<string>
    var fullDomain: Option<string>
    var publish: Option<bool>
    var moddable: Option<bool>
    var repositoryUrl: Option<string>
    var tag: Tag

    function Now(): State
      reads this
    {
      State(stage, sourceKind, siteUrl, localPath, preparedFiles, signerMode, domainRaw, domainLabel,
            fullDomain, publish, moddable, repositoryUrl, tag)
    }

    constructor (i: Inputs)
      ensures inputs == i && Now() == Start(i)
    {
      inputs := i;
      stage := Start(i).stage;
      sourceKind := if i.siteUrl.Some? && i.siteUrl.value != "" then Some(Url) else None;
      siteUrl, localPath, preparedFiles := i.siteUrl, None, None;
      signerMode := if i.explicitSigner.Some? then Some(Dev) else None;
      domainRaw, domainLabel, fullDomain := i.dot, None, None;
      publish, moddable, repositoryUrl := i.publish, i.moddable, None;
      tag := if i.tag.Some? then Tagged(i.tag.value) else Unasked;
    }

    method AdvanceStage()
      modifies this`stage
      ensures Now() == Advance(old(Now()))
    {
      stage := PickNextStage(Now());
    }

    method OnPath(path: string, files: nat)
      modifies this
      ensures Now() == Step(inputs, old(Now()), PathSubmitted(path, files))
    {
      preparedFiles := Some(files);
      localPath := Some(path);
      AdvanceStage();
    }

    method OnSigner(mode: Mode)
      modifies this
      ensures Now() == Step(inputs, old(Now()), SignerChosen(mode))
    {
      if mode.Phone? && inputs.sessionSigner.None? {
        stage := Error;
        return;
      }
      signerMode := Some(mode);
      AdvanceStage();
    }

    /** The domain check: a result, or a failure that reopens the prompt. */
    method OnDomainChecked(result: Option<(string, string)>)
      modifies this
      ensures Now() == Step(inputs, old(Now()),
        if result.Some? then DomainResolved(result.value.0, result.value.1) else DomainFailed)
    {
      if result.Some? {
        domainLabel, fullDomain := Some(result.value.0), Some(result.value.1);
        AdvanceStage();
      } else {
        domainLabel, domainRaw := None, None;
        stage := PromptDomain;
      }
    }

    method OnModdable(yes: bool)
      modifies this
      ensures Now() == Step(inputs, old(Now()), ModdableChosen(yes))
    {
      moddable := Some(yes);
      if yes {
        stage := ModdablePreflight;
      } else {
        AdvanceStage();
      }
    }

    method OnPreflight(url: Option<string>)
      modifies this
      ensures Now() == Step(inputs, old(Now()), if url.Some? then PreflightResolved(url.value) else PreflightFailed)
    {
      if url.Some? {
        repositoryUrl, moddable := url, Some(true);
        AdvanceStage();
      } else {
        stage := ModdableError;
      }
    }
  }
}
