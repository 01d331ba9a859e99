# A verified model of the playground command line tool

The playground CLI deploys apps, contracts and static sites to a Polkadot test network. Most of it
drives SDKs. This project models the parts whose correctness rests on state that outlives one call,
on steps that interleave at awaits, or on text and arithmetic, and proves properties of every run or
every input.

Each module follows one component. Code that changes state step by step appears twice: as a class
whose methods write the fields the source writes, and as a function `Step` over a value of those
fields. A method's contract equates the state it leaves with that function, and lemmas over `Run`
then hold for every interleaving of the methods. An await is a point between two steps.

| module | component |
|---|---|
| `TelemetryText`, `TelemetryGraph` | scrubbing home paths from text, and from object graphs with sharing and cycles |
| `ConsoleHandlers` | two interceptors of `console.error` that overlap |
| `PackageInstalls` | workers that share running installs |
| `Terminal`, `QrScan` | the login QR code, printed and erased on a terminal that scrolls |
| `AppBrowser` | a paged, filtered list with metadata landing late |
| `SessionPairing`, `AppStorage` | device identities, sessions, and the statements that outlive them |
| `DeployWizard`, `DecentralizeWizard` | the two interactive wizards |
| `TokenAmounts`, `Drip` | printed token amounts, and top-ups from a shared funder |
| `PipelineStatus`, `ThrottledLog` | what the deploy screens show |
| `ShutdownHooks` | cleanup hooks and the exit deadline |
| `VersionOrder` | the update notice's comparison |
| `Answers`, `Characters`, `Decimal`, `Options`, `Sequences` | shared vocabulary |

Three properties that the source's comments suggest are false, and are proved with their exact
condition. Where code and comments differ, the model follows the code.

- After any interleaving of calls that have all ended, `console.error` is the handler that the last
  call to end had found (`RestoresIffLastBeganUnderIt`). So it is put back exactly when that call
  began under the original handler; for queries started together, exactly when the first to start is
  the last to end (`OverlapRestoresIffFirstEndsLast`). Otherwise the filter of a finished call stays
  installed. A signing call that still runs can meanwhile be cut off from its expired-allowance line,
  exactly when it was not in place as the last call to end started and did not start after that call
  ended (`InPlaceIff`, `RunningCallHearsIff`, `OverlapHearsIff`).
- The login QR block is erased exactly when it fits the screen and no error message spans lines
  (`PhaseErasesIffSingleLines`); each row that does not fit leaves one row behind, and so does each
  line feed in a message, each time the message is rendered. The comment at
  src/commands/login/qrScanPhase.ts:99-104 mentions only wrapping.
- The summary that a deploy wizard's confirmation shows fails exactly when the domain flag normalises
  trimmed and not as typed (`SummaryRendersIff`, `PaddedFlagBreaksSummary`). The confirmation's plan
  is resolved for every command line (`CommandIsResolved`); the screen's properties allow one
  combination, which no command line produces, where it is not (`ConfirmIsResolved`).

Smaller ones, each with its condition:

- A page query of the app browser has no handler for a rejection. The picker is left fetching for good
  exactly when a query is rejected with an error that the guard over unhandled rejections lets pass,
  such as a lost connection; after any other rejection the process exits (`PickerStuckIff`,
  `LostConnectionStrandsPicker`).
- A cleanup hook that throws stops the hooks after it exactly when the catch block cannot describe
  what was thrown (`ThrowsAreHarmlessIff`, `AbandonedIff`, `UndescribedThrowSkipsHook`).
- A crate can be shown as done without an address exactly when a `publish-done` event names an unknown
  crate (`AlwaysCompleteIff`).
- A release can be reported older than its own pre-release, and a user of a pre-release need not be
  told of the release (`PreReleaseOutdatedIff`, `ReleaseNoticedIff`); both hold of every numbered
  release candidate (`CandidateLooksNewer`).

The classes' methods that have no row below are straight-line handlers. Each is proved to do what its
branch of `Step` says, which ties the code to the state machine that the lemmas are about.

`dafny verify dfyconfig.toml` checks the project.

## Model

| member | source | states |
|---|---|---|
| TelemetryText.ScrubCleans | src/telemetry-config.ts:139-144 | after one pass, every non-empty component that follows the root anywhere in the text is the marker |
| TelemetryText.ScrubKeepsClean | src/telemetry-config.ts:139-144 | the second pass does not undo the first: scrubbing one root keeps the text clean for the other |
| TelemetryText.ScrubPathsCleans | src/telemetry-config.ts:139-144 | in the scrubbed text every component below `/Users/` and `/home/` is `<redacted>` |
| TelemetryText.FixedIffClean | src/telemetry-config.ts:139-144 | a pass leaves a text alone if and only if it is already clean for that root |
| TelemetryText.ScrubPathsFixedIffClean | src/telemetry-config.ts:139-144 | both passes leave a text alone if and only if it is clean for both roots |
| TelemetryText.ReadPieces | src/telemetry-config.ts:139-144 | every text is a sequence of plain characters and leftmost, longest paths |
| TelemetryText.ScrubShowsPieces | src/telemetry-config.ts:139-144 | a pass keeps the plain characters of that reading and replaces exactly the components of its paths |
| TelemetryText.SanitizeShowsParts | src/telemetry.ts:62-64 | what sanitising returns, for every text: read as plain characters and leftmost, longest paths of either root, the first 200 characters of that reading with each component replaced by the marker |
| TelemetryText.PassesShowParts | src/telemetry-config.ts:139-144 | the two passes together replace the components of that reading's paths and nothing else; a `/Users/` path that starts at the slash of a `/home/` path's component loses both components |
| TelemetryText.ReadingIsUnique | src/telemetry-config.ts:139-144 | no text has two such readings |
| TelemetryText.CutOfClean | src/telemetry-config.ts:173-175 | any prefix of clean text is clean but for a marker cut short at its end |
| TelemetryText.ScrubOfCut | src/telemetry-config.ts:139-144 | scrubbing a cut text can only append what completes the marker it was cut in |
| TelemetryText.CompletionKeepsCleanOrCut | src/telemetry-config.ts:139-144 | completing a cut marker of one root introduces no path of the other |
| TelemetryText.SanitizeSanitizes | src/telemetry.ts:62-64 | a sanitised text is at most 200 characters long and clean up to a marker cut at position 200 |
| TelemetryText.SanitizedIffFixed | src/telemetry.ts:62-64 | the texts with that shape are exactly those that sanitising leaves alone |
| TelemetryText.SanitizeIdempotent | src/telemetry.ts:62-64 | sanitising twice is sanitising once, for every text |
| TelemetryText.RepeatedSanitizing | src/telemetry.ts:249-253 | however often the error path sanitises a message, the text is that of the first time |
| TelemetryText.SanitizeAttributes | src/telemetry-config.ts:177-186 | the copy has the same keys, sanitised texts, and every other value unchanged |
| TelemetryGraph.SanitizeTelemetryValue | src/telemetry.ts:66-78 | terminates on any graph; afterwards every string held within six hops of the result is exactly the sanitised string that was there, records keep their keys, lists are not written, and apart from strings and copied lists nothing differs |
| TelemetryGraph.CertifiedExactly | src/telemetry.ts:66-78 | within the certified depth, what a walk leaves is what was there with every string replaced by its sanitised form, on graphs with sharing and cycles |
| TelemetryGraph.RewriteEntries | src/telemetry.ts:74-76 | the loop over a record's entries as first read leaves each of them clean to the remaining depth, also when nested walks revisit the record |
| TelemetryGraph.RewriteRecord | src/telemetry.ts:73-77 | rewriting a record in place raises the depth to which it is clean |
| TelemetryGraph.MapList | src/telemetry.ts:69-71 | the copy is clean to the remaining depth and carries over its original's items |
| TelemetryGraph.FieldStep | src/telemetry.ts:74-76 | writing back one field keeps everything certified so far, although nested walks may have written that field |
| TelemetryGraph.CertifiedCleans | src/telemetry.ts:66-78 | a certified level is a bound on hops within which every string is sanitised |
| TelemetryGraph.SanitizeExtra | src/telemetry.ts:51-60 | no extra data stays none; otherwise a fresh record with the same keys, each entry exactly sanitised as its own root |
| ConsoleHandlers.StepKeepsValid | src/utils/sessionSigner.ts:193-236 | after every start, end and line, each installed filter forwards only to an older handler |
| ConsoleHandlers.ChainDescends | src/utils/sessionSigner.ts:193-201 | handler chains get strictly older, so they are acyclic |
| ConsoleHandlers.DestinationIsNearestMatch | src/utils/contractManifest.ts:49-53 | a line stops at the nearest filter that matches it and reaches the original console when none does |
| ConsoleHandlers.UnfilteredLinesArrive | src/utils/contractManifest.ts:48-59 | for every interleaving, the lines no filter is after reach the original console once each and in order |
| ConsoleHandlers.PrintedAreUnheard | src/utils/contractManifest.ts:48-59 | over every run the original console prints, in order, exactly the lines that no filter in place matches as they are written |
| ConsoleHandlers.AlarmedIff | src/utils/sessionSigner.ts:194-201 | over every run a call is told of an expired allowance if and only if it is a signing call whose filter was in place, at a line about an expired allowance, with no newer matching filter in place |
| ConsoleHandlers.OnlySigningIsAlarmed | src/utils/sessionSigner.ts:194-201 | no registry query is ever alarmed |
| ConsoleHandlers.HandlersAreStarts | src/utils/contractManifest.ts:45-55 | every handler a run adds is the filter of one start, of its kind and over what was installed then |
| ConsoleHandlers.NestedRestores | src/utils/sessionSigner.ts:229-236 | well-bracketed calls leave the handler they found |
| ConsoleHandlers.RunStarts | src/commands/contract.ts:330-336 | queries started together chain their filters in order of starting |
| ConsoleHandlers.RunEnds | src/commands/contract.ts:330-348 | ending distinct calls in any order leaves what the last of them captured |
| ConsoleHandlers.EndReinstalls | src/utils/contractManifest.ts:56-58 | in any interleaving the end of a call installs the handler found when that call started |
| ConsoleHandlers.RestoresIffLastBeganUnderIt | src/commands/contract.ts:330-348 | after every interleaving of calls that have all ended, the installed handler is what the last call to end had found, so the first handler is back if and only if that call began under it |
| ConsoleHandlers.OverlapRestoresIffFirstEndsLast | src/commands/contract.ts:330-348 | queries that all start before any ends restore the handler they found if and only if the first to start is the last to end; otherwise the filter of an ended call stays |
| ConsoleHandlers.HearsIff | src/utils/sessionSigner.ts:194-201 | a call hears a line if and only if its filter is on the chain, matches it, and no newer filter on the chain does |
| ConsoleHandlers.InPlaceIff | src/utils/sessionSigner.ts:193-236 | after any interleaving a filter is on the chain if and only if it was there as the last call to end started, or was installed since that call ended |
| ConsoleHandlers.RunningCallHearsIff | src/utils/sessionSigner.ts:193-236 | over every run in which a call has ended, whether a running call hears a line is decided by that condition |
| ConsoleHandlers.OverlapInPlaceIff | src/commands/contract.ts:330-348 | of queries started together, those in place once some have ended are the ones that started before the last to end |
| ConsoleHandlers.OverlapHearsIff | src/commands/contract.ts:330-348 | of calls started together, one hears a line once some have ended if and only if it started before the last to end, matches, and none between them does |
| ConsoleHandlers.NestedCallHearsIff | src/utils/sessionSigner.ts:193-236 | over well-bracketed runs an open call hears a line if and only if it matches and no newer open call does |
| ConsoleHandlers.OverlapCanMissAlarm | src/utils/sessionSigner.ts:194-201 | a run in which a signing call still running is not in place and its expired allowance is printed |
| ConsoleHandlers.Console.Error | src/utils/sessionSigner.ts:194-201 | a call of `console.error` walks the chain to the destination and does what the handler there does |
| PackageInstalls.StepKeepsValid | src/utils/packageManagers.ts:242-250 | the shared map holds exactly the installs that have not settled, each under its own name, after every step of any worker |
| PackageInstalls.SingleFlight | src/utils/packageManagers.ts:242-250 | for any number of interleaved workers, no two unsettled installs have one tool name |
| PackageInstalls.ReturnedSawEveryTool | src/utils/packageManagers.ts:258-292 | a worker returns only after each of its tools checked true in that call, and each awaited install succeeded |
| PackageInstalls.ConfirmationDecides | src/utils/packageManagers.ts:265-273 | over every run a worker declines if and only if its user said no, and has then requested no install; one that asks goes ahead with its missing tools if and only if its user said yes |
| PackageInstalls.ChecksAreRecorded | src/utils/packageManagers.ts:258-283 | over every run a worker's two lists of results are the answers of its checks, in order |
| PackageInstalls.InstallsEndAsReported | src/utils/packageManagers.ts:242-250 | over every run an install has succeeded, failed or settled if and only if that was reported |
| PackageInstalls.FailsWithItsInstall | src/utils/packageManagers.ts:270-273 | a worker fails if and only if it went on from an install that ended badly, all it awaited before having ended well |
| PackageInstalls.InstallsInListOrder | src/utils/packageManagers.ts:258-273 | the installs a worker awaited are those of its missing tools, in list order, without gaps |
| PackageInstalls.NoDeadlock | src/utils/packageManagers.ts:242-273 | an unfinished worker can always proceed or some install it waits for can |
| PackageInstalls.RunsAreBounded | src/utils/packageManagers.ts:253-293 | every step spends from a finite budget, so runs end |
| PackageInstalls.InFlightInstalls.InstallOnce | src/utils/packageManagers.ts:242-250 | hands out the running install of a name, and starts one only if there is none |
| PackageInstalls.InFlightInstalls.CheckAll | src/utils/packageManagers.ts:258-261 | the checking loop collects exactly the positions that failed, in order |
| PackageInstalls.InFlightInstalls.InstallAll | src/utils/packageManagers.ts:270-273 | the installing loop runs the missing tools' installers in order up to the first failure, or all of them |
| PackageInstalls.InFlightInstalls.EnsurePackageManagerForTools | src/utils/packageManagers.ts:253-293 | the outcome of the whole routine without overlap: declined if and only if asked and refused, ready only if every installer and every re-check succeeded, and the tools still missing are reported |
| Terminal.FeedConcat | src/commands/login/qrScanPhase.ts:108-120 | writing two texts is writing their concatenation |
| Terminal.FeedPlain | src/commands/login/qrScanPhase.ts:108-120 | plain text moves the cursor down by its line feeds, scrolls no further than needed and leaves rows above alone |
| Terminal.FeedControl | src/commands/login/qrScanPhase.ts:61-65 | a control sequence with a numeral executes its control function |
| Terminal.FeedVisible | src/commands/login/qrScanPhase.ts:108-120 | colours show nothing |
| Terminal.FeedTypes | src/commands/login/qrScanPhase.ts:108-120 | text without other control functions is shown as it is: its first line continues the cursor's, each other line fills the next row |
| Terminal.Output.Write | src/commands/login/qrScanPhase.ts:108-120 | a write leaves the screen that its characters produce |
| QrScan.EraseRows | src/commands/login/qrScanPhase.ts:61-65 | the erase sequence moves up by the block's rows less one, as far as the screen allows, blanks all from there and touches nothing above |
| QrScan.BlockIsErased | src/commands/login/qrScanPhase.ts:95-155 | block, status renderings and erasure end as many rows below the block's first as there were line feeds in the renderings and rows that did not fit, with all blank from there |
| QrScan.FramesSingleLine | src/commands/login/qrScanPhase.ts:68-83 | the status lines stay in one row if and only if no error message has a line feed |
| QrScan.PhaseErasesIffSingleLines | src/commands/login/qrScanPhase.ts:95-155 | for every QR text and error messages without control functions other than colours, and every sequence of ticks and reports, also with scrolling, all is blank from the cursor down, rows above the block are unchanged, the cursor's row is given exactly, and it is the block's first if and only if the block fits and no error message spans lines |
| QrScan.ErrorStrandsRows | src/commands/login/qrScanPhase.ts:81-82 | an error report leaves one row of the block for each line feed in its message |
| QrScan.BlockIsShown | src/commands/login/qrScanPhase.ts:95-133 | while the phone is awaited, after any ticks and reports with one-line messages, a cleared screen shows the caption, a blank row, the code's rows, a blank row and the status row, and the cursor is at its end |
| QrScan.StatusRowShows | src/commands/login/qrScanPhase.ts:113-120 | after any events the cursor's row is exactly the last frame, whatever longer label was there, if that frame has one line |
| QrScan.RenderShows | src/commands/login/qrScanPhase.ts:113-117 | a rendering leaves the indent, the spinner and the label in the row, nothing of what it held, and every other row alone |
| QrScan.LastFrame | src/commands/login/qrScanPhase.ts:123-139 | the last frame turns the spinner once a tick, if animated, and has the label of the last report |
| QrScan.PipedTranscript | src/commands/login/qrScanPhase.ts:117-155 | without a terminal the output is the caption, the code, a line for the wait and one a report |
| QrScan.RenderStatus | src/commands/login/qrScanPhase.ts:113-120 | one rendering extends what was written by one status line |
| QrScan.RunQrScanPhase | src/commands/login/qrScanPhase.ts:85-159 | the screen is the one the phase's transcript produces, and the result holds the last success's addresses and the thrown or last error |
| AppBrowser.RowsAreShown | src/commands/mod/browserFilter.ts:32-35 | the filtered view holds the shown apps, each once, in list order |
| AppBrowser.StepKeepsValid | src/commands/mod/AppBrowser.tsx:152-225 | the cursor stays in the scroll window and on a row, at most one page query is in flight, and the filtered list never shrinks |
| AppBrowser.CursorOnRow | src/commands/mod/AppBrowser.tsx:214-227 | whenever the filtered list is not empty, the app under the cursor is among the rows drawn |
| AppBrowser.ScrollsOnlyAsNeeded | src/commands/mod/AppBrowser.tsx:214-225 | the window moves only when the cursor leaves it, and then by one row |
| AppBrowser.RowIsReached | src/commands/mod/AppBrowser.tsx:214-225 | as many presses of one arrow as there are rows between put the cursor on any row, and change nothing else but the window |
| AppBrowser.LandingKeepsAppUnderCursor | src/commands/mod/AppBrowser.tsx:132-145 | landing metadata leaves the cursor on the same app if and only if it brings no app above it into view |
| AppBrowser.WaitingIff | src/commands/mod/AppBrowser.tsx:123-146 | over every run a row waits for metadata if and only if its entry names some and it has neither landed nor been lost |
| AppBrowser.QueriesAscend | src/commands/mod/AppBrowser.tsx:103-109 | whatever the registry answers, over any run each page query starts further on than all before it |
| AppBrowser.PickerStuckIff | src/commands/mod/AppBrowser.tsx:76-167 | over every run the picker is left fetching, with no query in flight and no exit begun, if and only if a page query was rejected with an error that the guard lets pass; a query makes the process exit if and only if it was rejected with any other error |
| AppBrowser.RejectionEndsPaging | src/commands/mod/AppBrowser.tsx:160-167 | and that is for good: over any further run no query starts, arrives or is rejected, and no app is added |
| AppBrowser.LostConnectionStrandsPicker | src/utils/process-guard.ts:125-132 | an input: a benign rejection of the second page's query keeps the first page's apps and nothing more, whatever follows |
| AppBrowser.PageLists | src/commands/mod/AppBrowser.tsx:92-121 | a page appends the visible apps of the slots it walked |
| AppBrowser.RunLists | src/commands/mod/AppBrowser.tsx:64-121 | over any run from any such state, pages and the slots still to walk trade off |
| AppBrowser.ListsPrefixOnce | src/commands/mod/AppBrowser.tsx:64-167 | at every moment of every interleaving the list is the visible apps of a prefix of the slots, newest first and once each, and there is at most one page a slot |
| AppBrowser.TotalIsRegistry | src/commands/mod/AppBrowser.tsx:81-103 | the total shown is the registry's from the first page on, and zero once a query failed |
| AppBrowser.FinalListIsOrderIndependent | src/commands/mod/AppBrowser.tsx:123-146 | once paging and metadata are through, the list is the same whatever the order of arrival |
| SessionPairing.PairingSurvivesIff | src/utils/sessionReset.ts:36-51 | a fresh pairing survives and is used if and only if no `Disconnected` is alive on its topic |
| SessionPairing.PoisonedIff | src/utils/sessionReset.ts:30-40 | after every history a topic holds a live `Disconnected` if and only if the phone disconnected or superseded a session there, or a logout reached it, less than seven days ago |
| SessionPairing.PairingSurvivesHistory | src/utils/sessionReset.ts:36-52 | so after every history a fresh pairing is the session then used if and only if that is not so of its topic and the phone supersedes none there now |
| SessionPairing.RotationSurvives | src/utils/sessionReset.ts:47-52 | over every history, a login that rotated the identity, or found none, survives, is the newest session, and has a topic without statements |
| SessionPairing.RepairingNeedsRotation | src/utils/sessionReset.ts:36-51 | on a topic closed before, the same login loses its session without rotation and keeps it with |
| SessionPairing.RepairingHistory | src/utils/sessionReset.ts:36-45 | such logins happen before any statement was posted: the phone supersedes on the re-pairing itself, whether the probe misses the stored session or a logout removed it |
| SessionPairing.SurvivorStays | src/utils/auth.ts:258-274 | a surviving session stays the one every flow uses until the phone disconnects it, the user logs out, or a login's probe misses it and replaces it |
| SessionPairing.StoredIff | src/utils/auth.ts:226-317 | after every history the stored sessions are those that some login paired and nothing has removed since (initialisation on a poisoned topic, rotation, logout), in the order of their pairings |
| SessionPairing.Host.InitSessions | src/utils/sessionReset.ts:38-45 | initialising removes exactly the sessions whose topic holds a live `Disconnected` |
| SessionPairing.Host.Login | src/utils/auth.ts:226-317 | uses the newest stored session or pairs afresh, and reports the session later commands use |
| SessionPairing.Host.StorePairing | src/utils/auth.ts:359-378 | rotates as far as deletions succeed, pairs and stores |
| SessionPairing.Host.WaitForLogout | src/utils/auth.ts:553-600 | tries to clear the local files whether or not the phone was told; a session stays stored only if it was not and its file could not be unlinked |
| AppStorage.RotatesExactly | src/utils/sessionReset.ts:79-113 | rotation is after the identity and session list and nothing else |
| AppStorage.Directory.ResetDeviceIdentity | src/utils/sessionReset.ts:89-113 | exactly those files go, as far as they can be unlinked, and all others stay as they are |
| AppStorage.Directory.ClearLocalAppStorage | src/utils/auth.ts:612-634 | exactly this app's files go, as far as they can be unlinked |
| AppStorage.Directory.UnlinkAll | src/utils/auth.ts:625-633 | unlinks in any order remove the same files |
| DeployWizard.ConfirmIsResolved | src/commands/deploy/DeployScreen.tsx:271-298 | at every reachable confirmation the plan is resolved except for one combination of properties, a moddable publish has a repository, and the domain was accepted or is a flag that normalises when trimmed |
| DeployWizard.CommandIsResolved | src/commands/deploy/index.ts:660-690 | from the properties that the command passes, every reachable confirmation is resolved |
| DeployWizard.RunningIsResolved | src/commands/deploy/DeployScreen.tsx:611-647 | the run and its outcome are shown only with a resolved plan |
| DeployWizard.PlanIsAnswered | src/commands/deploy/DeployScreen.tsx:271-298 | over every run the plan that is confirmed and run is, field by field, what was answered last, or else given as a flag |
| DeployWizard.CheckedIsTyped | src/commands/deploy/DeployScreen.tsx:428-480 | the name whose availability is checked is the one typed last, trimmed |
| DeployWizard.AsksInOrder | src/commands/deploy/DeployScreen.tsx:389-606 | along any run the questions come in one order; only a domain is asked for again |
| DeployWizard.SummaryRendersIff | src/commands/deploy/DeployScreen.tsx:857-859 | the summary's domain normalises unless, and only unless, the domain flag normalises trimmed and not as typed |
| DeployWizard.BlankConfirmation | src/commands/deploy/DeployScreen.tsx:271-298 | the properties under which the confirmation is unresolved |
| DeployWizard.PaddedFlagBreaksSummary | src/commands/deploy/DeployScreen.tsx:202-213 | for every such flag, a command line and answers that end in a resolved confirmation with that domain |
| DeployWizard.SettledStays | src/commands/deploy/DeployScreen.tsx:389-606 | along any run no settled answer is asked for again or overwritten; contracts overrule a build choice and declining takes back an unresolved "yes" to moddable |
| DeployWizard.FlagsAreKept | src/commands/deploy/DeployScreen.tsx:180-220 | every reachable state holds what was given on the command line, but for a phone signer without session, a domain that does not normalise, a build choice under contracts and a declined moddable flag |
| DeployWizard.AnswersDecide | src/commands/deploy/DeployScreen.tsx:664-691 | every answer leaves fewer open decisions, a failed domain check one more |
| DeployWizard.RunsAreShort | src/commands/deploy/DeployScreen.tsx:389-606 | a run takes at most fifteen answers and two per failed check |
| DeployWizard.DeadEndIff | src/commands/deploy/DeployScreen.tsx:322-647 | an unfinished wizard takes no answer at all if and only if its properties left the confirmation unresolved; otherwise it takes some |
| DecentralizeWizard.AssertionsHold | src/commands/decentralize/DecentralizeScreen.tsx:308-523 | in every reachable state, each stage finds the source, path, label, domain, signer mode and signer that it asserts |
| DecentralizeWizard.ConfirmRecordsRepositoryIff | src/commands/decentralize/state.ts:125-139 | a confirmation records a repository if and only if it is a moddable publish of a local directory, and a tag decision whenever it publishes |
| DecentralizeWizard.SourceIsAnswered | src/commands/decentralize/DecentralizeScreen.tsx:478-523 | over every run the source that is confirmed and run is the site or directory answered, or else the flag's site |
| DecentralizeWizard.DecisionsAreAnswered | src/commands/decentralize/DecentralizeScreen.tsx:478-523 | and the name, the full domain, publishing, the repository and the tag are what was resolved or answered last, or else given as a flag |
| DecentralizeWizard.SignerIsAnswered | src/commands/decentralize/DecentralizeScreen.tsx:478-523 | the signer is the explicit one, the session's if the phone was chosen with a session, else the dev signer |
| DecentralizeWizard.CheckedIsTyped | src/commands/decentralize/DecentralizeScreen.tsx:344-385 | the name being checked is what was typed since the last failed check, or else the flag's |
| DecentralizeWizard.AsksInOrder | src/commands/decentralize/state.ts:103-140 | along any run the questions come in the documented order; only a domain is asked for again |
| DecentralizeWizard.SettledStays | src/commands/decentralize/DecentralizeScreen.tsx:242-490 | along any run no settled answer is asked for again or overwritten, but an unresolved "yes" to moddable that is declined |
| DecentralizeWizard.FlagsAreKept | src/commands/decentralize/DecentralizeScreen.tsx:122-165 | every reachable state holds the flags, and an explicit signer signs whatever is answered |
| DecentralizeWizard.AnswersDecide | src/commands/decentralize/state.ts:115-140 | every answer leaves fewer open decisions, a failed domain check one more |
| DecentralizeWizard.RunsAreShort | src/commands/decentralize/state.ts:115-140 | a run takes at most fourteen answers and two per failed check |
| TokenAmounts.AmountReadsBack | src/utils/account/pgas.ts:55-70 | a printed amount, its separators dropped, reads back as the amount rounded down to four decimals |
| TokenAmounts.FourDecimalsRounds | src/utils/account/pgas.ts:55-70 | that is exact with up to four decimals, and otherwise less than a unit of the fourth below |
| TokenAmounts.FractionEndsInNonZero | src/utils/account/pgas.ts:64-70 | a printed fraction has one to four digits and never ends in zero |
| TokenAmounts.GroupedShape | src/utils/account/pgas.ts:73-75 | separators stand exactly at every fourth place from the right, never first |
| TokenAmounts.GroupedAmount | src/utils/account/pgas.ts:55-75 | grouping adds separators and nothing else |
| TokenAmounts.FormatPasAgrees | src/utils/account/drip.ts:192-200 | the drip command prints the same amounts without separators |
| Drip.BalanceStaysUnder | src/utils/account/drip.ts:145-183 | with at most k overlapping calls the balance stays under the cap and k amounts, however calls, spends and other traffic interleave |
| Drip.BoundIsReached | src/utils/account/drip.ts:145-183 | and k calls can end one below that bound, for every k |
| Drip.Conserved | src/utils/account/drip.ts:170-182 | funder, recipient, fees and spending add up over every run, and the recipient is credited whole drips |
| Drip.TransfersWithoutSpending | src/utils/account/drip.ts:84-92 | without spending there are at most nine transfers and one per overlapping call: ten in sequence |
| Drip.AboveTheCap | src/utils/account/drip.ts:150-152 | at or above the cap no call gets past its first read |
| Drip.NoSelfTransfer | src/utils/account/drip.ts:154-159 | the dev account never transfers to itself |
| Drip.Chain.DripToProductAccount | src/utils/account/drip.ts:141-183 | transfers if and only if below the cap, another account, a sufficient funder and a finalized transfer that it can pay for; leaves the funder its buffer less the fee; otherwise says why |
| PipelineStatus.LogIsTail | src/commands/contractPipelineStatus.ts:259-272 | after any events the log is the last five non-empty cleaned lines since it was cleared |
| PipelineStatus.RunErrorIsFirst | src/commands/contractPipelineStatus.ts:82-84 | the run error is the first one reported |
| PipelineStatus.BlamedOnSigningIff | src/commands/contractPipelineStatus.ts:86-100 | a signing error is held if and only if one came after the last signing request and deploy start |
| PipelineStatus.AlwaysCompleteIff | src/commands/contractPipelineStatus.ts:142-168 | all along a run every done crate has an address and nothing in progress if and only if every `publish-done` names only known crates |
| PipelineStatus.InProgressIffStarted | src/commands/contractPipelineStatus.ts:127-179 | for every event sequence a crate shows as deploying, publishing or registering if and only if an event started that (a deploy start registers the crates whose package was detected before it) and no later one reported it done (for a deploy or registration, with an address) or failed |
| PipelineStatus.FieldIsLastSaid | src/commands/contractPipelineStatus.ts:102-193 | for every event sequence each field of each crate (state, error, address, content id, hashes, duration, size, progress, flags) is the last thing an event said about it |
| PipelineStatus.KnownAreNamed | src/commands/contractPipelineStatus.ts:200-256 | the crates with a status are those that some event was about |
| PipelineStatus.RestIsLastSaid | src/commands/contractPipelineStatus.ts:86-126 | the phase, the signing prompt and what was detected are those of the last event about them, the notices those of every detection in order |
| PipelineStatus.NoticesIff | src/commands/contractPipelineStatus.ts:206-212 | a detection notices, for each contract, its package or else a display name of its own, and nothing else |
| PipelineStatus.PackageIsLastDetected | src/commands/contractPipelineStatus.ts:206-212 | each recorded package is the last one detected |
| PipelineStatus.FailuresAreExplained | src/commands/contractPipelineStatus.ts:169-179 | every failed crate has an error text, and entries are kept under their own names |
| PipelineStatus.OthersUntouched | src/commands/contractPipelineStatus.ts:253-256 | an event changes only the crates it names, and detecting again demotes none |
| PipelineStatus.ContractPipelineStatusAdapter.HandleDeployEvent | src/commands/contractPipelineStatus.ts:102-193 | every event leaves exactly the state its changes, in order, produce |
| PipelineStatus.ContractPipelineStatusAdapter.OnDetect | src/commands/contractPipelineStatus.ts:200-218 | records packages, notices and layers, and adds unknown crates as waiting |
| PipelineStatus.ContractPipelineStatusAdapter.OnDeployDone | src/commands/contractPipelineStatus.ts:142-156 | crates with an address are done; those without are skipped |
| PipelineStatus.ContractPipelineStatusAdapter.OnPublishDone | src/commands/contractPipelineStatus.ts:157-168 | a known crate keeps its state, an unknown one becomes done |
| PipelineStatus.ContractPipelineStatusAdapter.OnLog | src/commands/contractPipelineStatus.ts:258-268 | pushing and splicing keeps the last five |
| ThrottledLog.RowCatchesUp | src/commands/deploy/DeployScreen.tsx:1017-1037 | over every timed run at most one timer is armed, and without one the row of a live screen shows the last line queued, cut |
| ThrottledLog.UpdatesAreSpaced | src/commands/decentralize/DecentralizeScreen.tsx:763-779 | updates are at least an interval apart, each shows the line queued last when it fired, and none is shown twice |
| ThrottledLog.SettlesWithinInterval | src/commands/decentralize/DecentralizeScreen.tsx:763-779 | an interval without further lines brings the last line up |
| ThrottledLog.UnmountedStaysStill | src/commands/decentralize/DecentralizeScreen.tsx:858-864 | after an unmount the row never changes, whatever is queued or fires |
| ThrottledLog.HistoryIsRecorded | src/commands/deploy/DeployScreen.tsx:1017-1037 | the screen is live until it is unmounted, and the queue those statements speak of holds every line in order |
| ShutdownHooks.AtMostOnce | src/commands/contract.ts:409-424 | over every interleaving of loops, signals and a command's own `finally`, a guarded body runs at most once |
| ShutdownHooks.FinishedCalledAll | src/utils/process-guard.ts:371-392 | a loop that comes to the end of the list before the fallback has called every registered hook, also late ones, once each in order, and exits with its signal's code |
| ShutdownHooks.ThrowsAreHarmlessIff | src/utils/process-guard.ts:375-387 | the run equals the run in which no hook throws, but for warnings, if and only if no loop was left early |
| ShutdownHooks.AbandonedIff | src/utils/process-guard.ts:379-381 | a loop is left early if and only if a hook it awaits throws a value that the catch block cannot describe |
| ShutdownHooks.AbandonedCalledSome | src/utils/process-guard.ts:373-389 | that loop has called the hooks up to the one that threw, in order and no other, and exits with its signal's code |
| ShutdownHooks.UndescribedThrowSkipsHook | src/utils/process-guard.ts:379-381 | an input: the first of two hooks throws such a value and the second never runs |
| ShutdownHooks.ExitWithinGrace | src/utils/process-guard.ts:367-371 | with timers that fire when due, no run gets past three seconds after the first signal, and at that moment only the fallback's exit with that signal's code can follow a hanging hook |
| ShutdownHooks.HangingHookIsForced | src/utils/process-guard.ts:367-371 | an input: a hook that never settles holds its loop until the fallback, and then the process exits with the signal's code |
| ShutdownHooks.DeadlineOfFirstSignal | src/utils/process-guard.ts:111-118 | that deadline is three seconds after the first signal |
| ShutdownHooks.ProcessGuard.CallHooks | src/utils/process-guard.ts:373-387 | the loop over the live list calls the hooks once each in order and turns throws into warnings, to the end or up to the first throw that cannot be described |
| ShutdownHooks.ProcessGuard.RunAllCleanupAndExit | src/utils/process-guard.ts:367-392 | and exits with its code in both cases; the whole is a run of the state machine |
| VersionOrder.IsOutdated | src/utils/version-check.ts:67-88 | the loop decides the lexicographic order of the components padded with zeros; an unreadable component on either side means no |
| VersionOrder.ParseSigned | src/utils/version-check.ts:67-77 | a component's sign counts, and what follows its digits does not |
| VersionOrder.OutdatedIsStrict | src/utils/version-check.ts:67-88 | on all texts, no version is older than itself, and being older is asymmetric and transitive |
| VersionOrder.WeakOrderIff | src/utils/version-check.ts:76-77 | ties pass through a version if and only if all its components are numbers |
| VersionOrder.AgreesOnReleases | src/utils/version-check.ts:57-88 | on release versions, with or without a leading "v", it is the precedence of section 11 of Semantic Versioning 2.0.0 |
| VersionOrder.PreReleaseOutdatedIff | src/utils/version-check.ts:74-88 | exactly when a release is reported older than its own pre-release |
| VersionOrder.ReleaseNoticedIff | src/utils/version-check.ts:74-88 | exactly when a pre-release is reported older than its own release |
| VersionOrder.CandidateLooksNewer | src/utils/version-check.ts:74-88 | any release is reported older than each of its numbered release candidates, and none of them older than the release |
| Decimal.ValueOfDigits | src/utils/account/pgas.ts:66-66 | a numeral reads back as its number, without leading zero |

## Left out

- Strings are sequences of characters; the source's lengths and cuts count UTF-16 units, so a cut inside a surrogate pair is not modelled.
- `Number.parseInt` loses precision above 2^53 and becomes infinite for very long numerals; the model's numbers are exact.
- React and Ink rendering, colours, copy text, window titles and key routing; only the state the handlers change is modelled.
- Telemetry transport, span status and tags; only the text and object sanitising.
- Object graphs hold records, lists, texts and opaque leaves; getters, frozen objects and property attributes are not modelled.
- The interval that polls the signing call's alarm flag every 200 ms, and the translation of the rejection into a message.
- Shell installers, tool detection and the manual hints; an install is a step that ends well or badly, a check one that answers.
- PackageInstalls.InFlightInstalls.EnsurePackageManagerForTools: states the routine of a worker that no other overlaps; the overlapping routine is the state machine of the same module.
- Microtask order: an await is one step boundary, and a settled promise resumes its waiters at any later step.
- Terminals wrap and have a width; the modelled one has lines as long as they need to be, so the block must not wrap.
- Control characters other than escape, carriage return and line feed print as one character on the modelled terminal; QR texts and error messages with control functions other than colours (SGR) are not covered by the erasure lemmas.
- QR payloads and phone behaviour; a login is a sequence of status reports and a possible failure.
- `getApps` of the registry contract is not part of this model; its documented promise (reverse offset, a page walks at least one slot of those there are, and returns the visible entries walked) is an assumption of the `AppBrowser` lemmas about lists. Dropped queries after an unmount are left out too.
- The availability request and the `verifyAndSelect` step after Enter in the app browser.
- Statement-store rules (topic from session key, phone and host account, seven-day expiry, replay at initialisation) are taken from the header of src/utils/sessionReset.ts; the SDK that implements them is not part of this model. Every live `Disconnected` is replayed at each initialisation; lines 38-39 there speak of an unresponded one, and whether a host's removal of a session counts as a response is not modelled.
- Concurrent `playground` processes sharing one storage directory.
- `normalizeDomain` and trimming are uninterpreted functions in `DeployWizard`; what names they accept is not modelled. Domain syntax checks of the decentralize wizard are answers.
- `--yes`, headless deploys and the choice between them and the wizard, beyond which flags open it.
- README acknowledgement, contract-name notices and tag lists beyond their effect on the stage.
- Existential deposits and account reaping on the drip's chain; a transfer its funder cannot pay for fails without a charge.
- When the dev account is the recipient, `Drip` keeps one balance under two names; no transfer happens in that case.
- Drip amounts are exact integers; signing, submission and finality are one step that lands or fails.
- Optional fields that are absent and fields that are false or undefined are one value in `PipelineStatus`, and `cleanLogLine` is an uninterpreted function.
- The contract build, deploy and publish pipelines that emit the status events.
- Throttled lines: timers fire at their time or later and never early; lines queued after an unmount may arm a timer that shows nothing.
- ShutdownHooks.ProcessGuard.RunAllCleanupAndExit: states the loop that nothing interleaves with and whose hooks all settle; overlapping loops and hanging hooks are runs of the state machine of the same module.
- ShutdownHooks.ExitWithinGrace: assumes punctual timers, that is, time does not pass a due fallback; a hook that blocks the event loop delays it.
- Cleanup hooks that block the event loop, the memory watchdog, and the hard exit after a normal return. Which errors the guard lets pass is an event's parameter (`benign`); the exit it otherwise starts is a `Signal` of `ShutdownHooks` with code 1.
- Version checking's network request, cache and banner.
- Signing gate, parallel deploy runner and signing proxy.
