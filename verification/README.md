# Verification of red-rail's review loop, deployment evidence and metrics

The rail judges pull requests with models and operators, deploys what it released, and records
each step in an append-only ledger. Whatever it decides later it decides from those records. This
project models the parts that keep state over long histories and proves what they promise.

- **The review loop** (`Findings`, `Carry`, `Rounds`, `Admission`, `Service`, `PassShape`,
  `Blockers`, `NewClaims`, `Accounting`, `Runs`, `RoundOrder`, `Promises`, `PassRules`, `Fates`,
  `Descriptions`, `Gate`, `CarriedChain`, `Exceptions`, `LongLists`, `LongPaths`, `ExamplePasses`,
  `Race`, `CarriedRace`, `TwiceListed`).
  One pass rebuilds the loop's state from the verdicts and rulings on record, chooses a step,
  merges the replies of the judges, numbers and re-statuses findings, recomputes the
  description's blockers and appends one verdict. `Runs` puts passes, operator rulings,
  records-only verdicts and carried verdicts in any order, over any number of pull requests;
  judges and descriptions are unconstrained, and a ruling names any id the loop waits for, also
  while a pass is judging. `Promises`, `RoundOrder`, `NewClaims` and `Gate` state what holds of every
  such run; `PassRules`, `Fates` and `Descriptions` say what a pass decides in terms of what it reads:
  the label, who is heard, the fate of each finding, what the description owes.
  `RoundsLoops`, `ServiceLoops` and `ReviewerLoop` write the loops of the source as methods, each
  proved to compute the specification the theorems are about.
- **The ledgers** (`FileStore`, `Spool`). An append-only keyed store, and the write-ahead spool
  in front of a remote ledger: lost answers, crashes at both ends of the call, rows of other
  hosts, key reuse, and paged look-ups that may fail at any page.
- **Deployment** (`Incidents`, `DeployLog`, `DeployFlows`, `Flows`). Forward, rollback and drill
  against a target whose every `apply` may work, break or find the lock held, and a ledger that
  may refuse or only spool any record, under a clock that may read anything. `Counted` says what
  the records of each flow do to delivery metrics.
- **Delivery metrics** (`Metrics`, `Recoveries`), **timelines** (`Flow`), **diff packing and sight** (`Split`,
  `Sighting`), **receipt trimming** (`Receipt`, and `ReceiptText`, the canonical
  JSON it is measured by) and **paged discovery** (`Discovery`).

Where the code and its comments or tests disagree, the model follows the code, and a lemma shows
the difference and its exact condition:

- The carry-forward gate can reject a ledger every pass of which accounted for all it read: a
  ruling recorded while a pass judges opens a carry-forward the pass did not read
  (`Race.GateRejectsARace`; exactly when: `Gate.GatePassesWhen`, `Gate.GateReportsOnlyRaces`).
- A ruling opens a carry-forward of a pull request that was approved at any time, where the
  documentation asks for a later approval (`Race.RulingOpensTooEarly`; exactly when:
  `Rounds.OpensTooEarlyWhen`). All those races come from it (`Gate.RacesOpenTooEarly`).
- The gate can reject a carried approval, which repeats the accounting of its source
  (`CarriedRace.GateRejectsACopy`; exactly when, for any ledger: `Gate.GatePassesOnCarried`).
- A carry-forward can be listed both as addressed and as deferred (`TwiceListed.ARunListsTwice`;
  exactly when: `Exceptions.ListedTwiceWhen`).
- An awaiting verdict requests changes even when the description just resolved the last open
  blocker (`Exceptions.NothingLeftToRule`; exactly when: `Exceptions.AwaitsWithoutBlockerWhen`; the
  decision otherwise: `Promises.ApprovalIsNoOpenBlocker`).
- More than a hundred open findings pass a judged pass's validation, because the merged verdict is
  copied without one (`LongLists.ARunOfLongLists`; exactly when, and exactly when such a list is
  recorded, which also takes a receipt that fits: `LongLists.LongListsPassValidation`).
- Distinct file headers are not enough for a sound sight: two files that swap names
  (`Sighting.SwappedRenames`), and one path can have two patches: a file that becomes a link
  (`Sighting.FileBecomesLink`; exactly when: `Sighting.CompleteIsSoundWhen`).
- A hundred findings in plain text fit a receipt with room for its other fields, and not in every script
  (`Receipt.HundredPlainFit`, `Receipt.WideFindingsNeverFit`; exactly when:
  `Receipt.AttestationData`).
- A finding filed on a path of more than 200 characters is recorded under the end of it, and the
  judges of the next pass may no longer answer it (`LongPaths.LongPathLosesItsJudge`; exactly when:
  `LongPaths.AnswersSurviveWhen`).
- Early-stopping discovery finds the pull requests of a full scan, but counts as unread only what
  is on the pages it read (`Discovery.EarlyStopLosesCoverage`; exactly when the counts agree:
  `Discovery.CoverageAgrees`).

A run is a sequence of moments (`Runs.Moment`): the ledger before and after one event and, for a
pass, the state and the open carry-forwards it read. Instants are integers, and verdicts and
rulings are recorded at growing instants. Passes are serialized, as the host lock does, and each has
a check run of its own on its head. Ids are pairs of a pull request and a number. Digests are
integers the environment draws, distinct where a proof needs it.

## Model

| member | source | states |
|---|---|---|
| Promises.IdsAreForever | src/rail/reviewer/rounds.py:252-316 | In every run, ids are distinct within a verdict and an id never names two findings of a pull request, across both numberings and after a cap dropped its holder |
| Promises.RecordedIdIsCurrent | src/rail/reviewer/rounds.py:264-326 | In every run, an id a pass repeats is in the latest list, and the class behind it changes only through a carry_forward ruling |
| Promises.BlockerStaysUntilSettled | src/rail/reviewer/service.py:1143-1211 | In every run, a judged open blocker closes in the next verdict if and only if a closure applies its carry_forward ruling or the judges settle it |
| Promises.ClosedWasSeenFixed | src/rail/reviewer/service.py:381-418 | In every run, a blocker closed without a ruling was answered "fixed" by a reply that saw its location or was quoted its excerpt, and by no admissible reply kept open or reported again |
| Promises.ClosedStaysUnlessReported | src/rail/reviewer/rounds.py:272-284 | In every run, a closed blocker opens again if and only if an admissible reply reports a fixed one and no closure defers it; a ruled one never does |
| Promises.ReopenedWasSeen | src/rail/reviewer/service.py:381-418 | In every run, what opens a closed blocker again is a reply that saw its location or was quoted its excerpt |
| Promises.ClaimIsAddressedWhen | src/rail/reviewer/rounds.py:134-144 | In every run, a claim counts as addressed if and only if no reply says still open, and one says fixed or an earlier judging verdict recorded it |
| NewClaims.NewClaimsAreRecorded | src/rail/reviewer/service.py:1146-1185 | In every run, a merged finding that repeats none is recorded in the judge's words under an unused number; on code its severity alone decides whether it is owed a blocker, elsewhere its class may also; the record has exactly that class, or the one the limits of the step demote it to |
| RoundOrder.RoundsCountUp | src/rail/reviewer/rounds.py:84-177 | In every run, the n-th judged round of a pull request is labelled min(n, 3), whatever is carried between |
| RoundOrder.ClosureComesAfterThree | src/rail/reviewer/rounds.py:163-177 | In every run, a closure comes only after three judged rounds |
| Promises.GapStaysWhileEarned | src/rail/reviewer/service.py:1186-1206 | In every run, a gap of the description is open in the next code verdict if and only if the description still earns it and no closure defers it |
| Promises.ApprovalIsNoOpenBlocker | src/rail/reviewer/rounds.py:292-294 | In every run, each finding has a class, and a pass approves if and only if it does not wait for a ruling and every finding of class blocker is fixed or ruled |
| Promises.NoLateSurprise | src/rail/reviewer/service.py:1167-1185 | In every run, a verdict not labelled round 1 or 2 raises a blocker only on a line that changed since the last judged head, and only in round 3 or a closure on another head |
| PassRules.OnlySeenBlocks | src/rail/reviewer/service.py:330-378 | In every run, a blocker the judges raise is, in its own words, a claim of a reply that had the place in front of it, unless its piece could not be read |
| PassRules.ApprovedHeadWasHeard | src/rail/reviewer/service.py:1324-1363 | In every run, a pass that approves a head other than the last judged one heard some reply, and recorded every new claim merged from the replies |
| PassRules.EveryVerdictAccounts | src/rail/reviewer/service.py:1207-1211 | In every run, a verdict accounts for the carry-forwards if and only if it is on code and does not wait; deferred are exactly the open ones with a reason in the description or a ruled gap on record |
| Fates.EveryFindingsFate | src/rail/reviewer/rounds.py:252-289 | In every run, the next verdict holds under a judged finding's id that finding with exactly the status and class the replies heard and the rulings give it, and holds it unless it is closed |
| Descriptions.EveryDescriptionBlocksWhen | src/rail/reviewer/carry.py:82-118 | In every run, a code verdict holds an open blocker on the description under a title if and only if the description owes it and no ruling took it out of its hands, as far as one is on record |
| Promises.RoundsNeverExceedThree | src/rail/reviewer/rounds.py:163-177 | In every run, no round label exceeds 3 |
| Promises.NoJudgeUntilRuled | src/rail/reviewer/rounds.py:151-177 | After a round 3 or closure leaves a blocker the description alone cannot resolve, and as long as no later verdict judges, a carried one included, no judge runs until it is ruled after that verdict, or, for a "not addressed" gap, the description resolves it |
| Promises.WaitEndsBy | src/rail/reviewer/rounds.py:151-177 | In every run, what ends that wait is a pass after such a ruling or description, or a copy of an approval older than the waiting verdict, and nothing else |
| Runs.RunKeepsInv | src/rail/reviewer/service.py:1268-1363 | Every run of passes, rulings and carried verdicts keeps ids, classes, provenance, decisions and instants well formed |
| Runs.RecordedIsDecided | src/rail/reviewer/service.py:1302-1314 | A recorded verdict is what the pass decides from the state and the carry-forwards it read, and that state is well formed |
| Runs.KeysAreDistinct | src/rail/ledger/__init__.py:129-130 | In every run, no two verdicts share a head and a check run, so the ledger never meets a verdict under a key it holds |
| PassRules.StateMeans | src/rail/reviewer/rounds.py:84-131 | The state in terms of the history: the latest findings, the last judged verdict, and when the loop is open-ended |
| PassRules.RulingsMean | src/rail/reviewer/rounds.py:107-116 | The rulings a pass goes by are those since the last judged verdict of its own pass, the newest of each finding |
| PassRules.LabelMeans | src/rail/reviewer/rounds.py:151-177 | The label of a recorded verdict: rounds up to three; in the open-ended phase it waits, closes or judges again exactly as the open blockers and their rulings say |
| PassRules.HeardWhen | src/rail/reviewer/service.py:1315-1363 | A judged round, and a closure on another head or after a fix ruling, decides if and only if the replies merge; a waiting pass and any other closure decide the same whatever the replies |
| PassRules.ClosureRecordsClaims | src/rail/reviewer/service.py:1336-1363 | A closure with something new to read records every new claim merged from the replies |
| PassShape.PassIsLawful | src/rail/reviewer/service.py:1143-1206 | Each finding of a recorded list continues one on record or has a number no verdict ever held |
| PassShape.FinishedIsLawful | src/rail/reviewer/service.py:1195-1204 | The judged and the mechanical findings, numbered by two different calls, share no id |
| PassShape.CappedIsLawful | src/rail/reviewer/service.py:732-738 | Capping keeps the list lawful |
| Blockers.BlockerFate | src/rail/reviewer/service.py:1111-1225 | For any well-formed state and any replies, exactly when a judged blocker stays open after one pass, whichever of the three kinds of pass it is |
| Blockers.ClosedFate | src/rail/reviewer/service.py:1111-1225 | For any well-formed state and any replies, exactly when a closed judged blocker opens again |
| NewClaims.NewClaimIsRecorded | src/rail/reviewer/service.py:1146-1185 | The same for any well-formed state |
| Blockers.GapFate | src/rail/reviewer/service.py:1186-1206 | For any well-formed state, exactly when a mechanical gap stays open after one pass on code |
| Fates.FateMeans | src/rail/reviewer/rounds.py:252-289 | For any well-formed state, the exact finding a pass makes of each judged finding on record, whatever its class |
| Descriptions.DescriptionBlocksWhen | src/rail/reviewer/carry.py:82-118 | For any well-formed state, exactly which titles of the description block after a pass on code |
| Descriptions.OwesMeans | src/rail/reviewer/service.py:1186-1206 | The blockers derived from the description are exactly what it owes: an open carry-forward not listed, deferred without a reason, or claimed and not confirmed |
| Fates.AnswerCountsWhen | src/rail/reviewer/service.py:381-418 | An answer to a finding on record counts if and only if the reply holds it and its judge saw the place or was quoted its window: none is lost |
| Fates.RepeatCountsWhen | src/rail/reviewer/service.py:381-418 | A claim under an id of the record counts if and only if its judge may speak of that finding |
| Fates.NewClaimCountsAs | src/rail/reviewer/service.py:330-378 | A new claim counts in its own words when its judge had the place in front of it, and else as an important note that says so |
| Fates.CarryAnswerCounts | src/rail/reviewer/service.py:381-418 | An answer to a carry-forward counts whenever a reply holds it |
| Blockers.MergedAnswerMeans | src/rail/reviewer/service.py:705-716 | The merged answer is "fixed" if and only if some admissible reply said so and none said "still open" |
| Blockers.MergedRepeatIsReported | src/rail/reviewer/service.py:702-704 | A finding the merged list repeats was reported by an admissible reply |
| Blockers.ReportSurvivesMerge | src/rail/reviewer/service.py:732-738 | An open finding an admissible reply reports is never lost to the merge or the cap |
| Blockers.NoJudgeNoSay | src/rail/reviewer/service.py:1315-1363 | While a ruling is awaited, and in a closure that wakes no judge, replies do not influence the verdict; exactly when is `PassRules.HeardWhen` |
| Blockers.LateBlockersAreInsideTheDelta | src/rail/reviewer/rounds.py:216-245 | For any well-formed state, late blockers lie inside the delta |
| Rounds.DemotedMeans | src/rail/reviewer/rounds.py:216-245 | What is demoted: a blocker on no record, off every covered line; a plan hands it on and code notes it |
| Accounting.NothingUnaccounted | src/rail/reviewer/service.py:1186-1206 | With no open blocker left, each open carry-forward is confirmed addressed or deferred |
| Accounting.ApprovalAccountsForAll | src/rail/reviewer/service.py:1186-1211 | An approving code verdict lists each carry-forward its pass read as open, and no other |
| Exceptions.ListedTwiceWhen | src/rail/reviewer/service.py:1347-1353 | A recorded verdict lists a carry-forward both as addressed and as deferred if and only if the description claims it, the claim is confirmed by the answers or an earlier verdict, and its "not addressed" gap on record is ruled, by an earlier closure or this one (the comment in the code says this never happens) |
| Exceptions.ListedTwice | src/rail/reviewer/service.py:1347-1353 | Any state in which it happens at a closure without a judge: confirmed by an earlier verdict, claimed again, its gap deferred by the ruling being applied |
| TwiceListed.ARunListsTwice | src/rail/reviewer/service.py:1347-1353 | A concrete run of six events that ends so: round 2 confirms the claim and raises a blocker, round 3 closes the blocker and says the claim is open, the operator defers the gap, the closure lists it twice |
| Exceptions.NothingLeftToRule | src/rail/reviewer/service.py:1315-1322 | A concrete awaiting verdict that holds no open blocker and still requests changes |
| Exceptions.AwaitsWithoutBlockerWhen | src/rail/reviewer/service.py:1315-1322 | Exactly when an awaiting verdict holds no open blocker and still requests changes: on code, no judged blocker is open and each gap the description earns is one an earlier closure ruled |
| Exceptions.ClosureApprovesWhen | src/rail/reviewer/service.py:1337-1363 | A closure without a judge approves, on code, if and only if each gap the description earns is ruled before or by it; elsewhere if and only if no blocker on record is the description's alone |
| LongLists.LongListsPassValidation | src/rail/reviewer/service.py:1213-1225 | A judged pass never fails on the length of its list, which passes the limit if and only if the earlier findings that stay open, the new claims and the open gaps are more than a hundred; such a list is recorded if and only if its minimal receipt fits too (the comment of `_capped` says such a list fails) |
| LongLists.ARunOfLongLists | src/rail/reviewer/service.py:1213-1225 | A concrete run of two passes whose second records 101 findings in a receipt that fits |
| LongLists.ShortListsOnly | src/rail/reviewer/service.py:1315-1363 | A pass without a judge validates its list: it decides nothing if and only if more than a hundred findings are open in it |
| LongLists.MergeMeans | src/rail/reviewer/service.py:692-738 | There is a merge if and only if a reply may speak and at most a hundred of the findings heard are open; it holds findings heard, each once, every open one, all of them when they are at most a hundred; of the answers to one name, "still open" wins |
| LongLists.DropsOldestFirst | src/rail/reviewer/service.py:732-738 | Capping drops the oldest closed findings and leaves the list behind them untouched |
| LongLists.CappedIsWithinLimit | src/rail/reviewer/service.py:732-738 | A list of at most a hundred is left alone; a longer one is cut to a hundred, or to its open findings when they are more |
| CarriedChain.CarryingChangesNothing | src/rail/reviewer/rounds.py:84-131 | A chain of carried verdicts after their judged, approving source spends no round, expires no ruling and changes neither findings, confirmations, highest id nor next step |
| CarriedChain.OriginIsSource | src/rail/reviewer/rounds.py:95-106 | Following provenance back through any chain of copies reaches the judged source |
| Gate.ApprovalAccounts | src/rail/reviewer/service.py:1186-1211 | In every run, the carry-forwards an approving code verdict lists are exactly those its pass read as open |
| Gate.PassReads | src/rail/reviewer/rounds.py:340-376 | In every run, a pass on code reads as open exactly what the approvals and the rulings recorded before it carried on, what no approval addresses, of other pull requests |
| Gate.OpenMeans | src/rail/reviewer/rounds.py:340-376 | Open, finding by finding: carried on by an approval and not fixed, or by a ruling on an approved pull request, never the description's own, and addressed by no approval |
| Gate.MissingMeans | src/rail/gates/evidence.py:548-569 | What the gate reports against a verdict: on an approval of code, what was owed just before it and it lists neither as addressed nor as deferred |
| Gate.CheckCarryForwards | src/rail/gates/evidence.py:547-569 | The gate reports the first verdict that left something unaccounted, and passes if and only if none did |
| Gate.GateReportsOnlyRaces | src/rail/gates/evidence.py:548-569 | In every run, the gate reports against a verdict of its own pass exactly the carry-forwards a ruling opened while that pass was judging |
| Gate.RacesOpenTooEarly | src/rail/reviewer/rounds.py:347-348 | In every run, what the gate reports against a verdict of its own pass is not open under the documented rule, by which a ruling opens a carry-forward of a pull request approved after it |
| Gate.GatePassesWhen | src/rail/gates/evidence.py:548-569 | With no approval carried, the gate passes if and only if no ruling opened a carry-forward during a pass that approved |
| Gate.GateOnCarried | src/rail/gates/evidence.py:548-569 | In every run, the gate reports against any verdict, carried or not, exactly what was open just before it and the pass it was judged in had not read |
| Gate.GatePassesOnCarried | src/rail/gates/evidence.py:548-569 | In every run, carried approvals included, the gate passes if and only if no approving code verdict was recorded with a carry-forward open that the pass it was judged in had not read |
| Gate.RunHasSources | src/rail/reviewer/service.py:939-965 | In every run, the provenance of each verdict leads back to one of its own pass with the same repository, pull request, kind, findings, accounting and decision |
| Race.GateRejectsARace | src/rail/gates/evidence.py:548-569 | A concrete run of five events, no verdict carried, that the gate rejects |
| Race.RulingOpensTooEarly | src/rail/reviewer/rounds.py:356-372 | In that run the ruling opens the carry-forward though its pull request is approved before it only |
| Rounds.OpensTooEarlyWhen | src/rail/reviewer/rounds.py:347-372 | The code opens what the documented rule does not, and never the reverse: exactly when no approving verdict holds it and a ruling on it has all its pull request's approvals, at least one, behind it |
| CarriedRace.GateRejectsACopy | src/rail/gates/evidence.py:548-569 | A concrete run of three events, no ruling in it, that the gate rejects: an approval carried to a new head after a plan opened a carry-forward |
| Rounds.RuledAfter | src/rail/reviewer/rounds.py:107-116 | The rulings that hold: recorded after the judgment, one per finding, none lost |
| Rounds.LatestRulingHolds | src/rail/reviewer/rounds.py:107-116 | Of the rulings of one finding recorded after the judgment, the last one holds |
| Rounds.HighestOf | src/rail/reviewer/rounds.py:128-130 | The highest number any verdict ever held bounds every id and is one of them |
| Rounds.SortedListUnique | src/rail/reviewer/rounds.py:373-376 | A set of carry-forwards has one sorted list, so the review and the gate read the same one |
| Admission.Resolve | src/rail/reviewer/headers.py:24-35 | A spelling resolves to a path if and only if exactly one judged path matches it; none gives missing, more gives ambiguous |
| Admission.ResolveMeans | src/rail/reviewer/headers.py:24-35 | A place stands for a path if and only if it spells it, bare or behind one of the three prefixes, and spells no other judged path; for none if and only if it spells none |
| Admission.EarlierRepliesComeFirst | src/rail/reviewer/service.py:702-704 | The merged findings of the earlier replies come first |
| Admission.ExtendSnoc | src/rail/reviewer/service.py:702-704 | A finding joins the merged list where it is first told, and only there |
| Admission.Capped | src/rail/reviewer/service.py:732-738 | Capping adds nothing and keeps every open finding |
| Carry.MechanicalBlockers | src/rail/reviewer/carry.py:82-101 | The description earns a blocker for exactly the open carry-forwards it leaves out or defers without a reason |
| Carry.RuledDeferred | src/rail/reviewer/carry.py:120-127 | The ruled gaps name exactly the carry-forwards the operator deferred |
| Service.DeferredIds | src/rail/reviewer/service.py:1228-1232 | Deferred: exactly the reasoned deferrals and the open carry-forwards whose gap was ruled |
| RoundsLoops.RebuildState | src/rail/reviewer/rounds.py:84-131 | The loops over verdicts and rulings compute the specified state |
| RoundsLoops.FindOrigin | src/rail/reviewer/rounds.py:95-106 | The backward walk finds the instant of the judgment |
| RoundsLoops.AssignFindings | src/rail/reviewer/rounds.py:252-289 | The two loops of `assign` answer every earlier finding in place and number the others in order |
| RoundsLoops.AppendFindings | src/rail/reviewer/rounds.py:297-316 | The loop of `append_new` leaves the list and numbers the extra findings above every id |
| RoundsLoops.OpenCarryForwards | src/rail/reviewer/rounds.py:340-376 | The scans and the sort compute the one sorted list of open carry-forwards |
| ServiceLoops.DemoteUnseen | src/rail/reviewer/service.py:330-378 | The loop of `_within_part` demotes exactly the new claims at unseen locations |
| ServiceLoops.Admit | src/rail/reviewer/service.py:381-418 | The loops of `_admissible` keep exactly what a reply may say |
| ServiceLoops.MergeReplies | src/rail/reviewer/service.py:692-729 | The loops of `_merge` compute the specified findings and answers |
| ServiceLoops.FindGaps | src/rail/reviewer/carry.py:82-101 | The loop of `mechanical_blockers` computes the specified blockers |
| ReviewerLoop.DecidePass | src/rail/reviewer/service.py:1302-1363 | A step of `Reviewer.Pass`: the branches of a pass, over those loops, compute the specified verdict |
| ReviewerLoop.FinishPass | src/rail/reviewer/service.py:1143-1211 | A step of `Reviewer.Pass`: `_finish` computes the specified draft |
| ReviewerLoop.Recompute | src/rail/reviewer/service.py:1235-1265 | A step of `Reviewer.Pass`: `_mechanical_recomputed` computes the specified list |
| ReviewerLoop.Reviewer.Pass | src/rail/reviewer/service.py:1268-1363 | A pass appends exactly the verdict decided from the ledger as read, and keeps the invariants of every run |
| ReviewerLoop.Reviewer.CarryOver | src/rail/reviewer/service.py:939-965 | Carrying copies the approving source under a new head and keeps the invariants |
| Spool.BrainLedger.Attest | src/rail/ledger/brain.py:215-267 | Whatever the call and the process do, a written key is in the spool or held by brain; normal return means brain holds the payload; a receipt leaves only when brain holds a row under its key; against an available brain it waits if and only if brain answers with a row of other data |
| Spool.BrainLedger.Replay | src/rail/ledger/brain.py:273-291 | The same for a waiting receipt, which always leaves the spool against an available brain |
| Spool.BrainLedger.ReplayAll | src/rail/ledger/brain.py:269-291 | Against an available brain, replaying the whole spool empties it and brain holds every key ever written |
| Spool.BrainLedger.Settle | src/rail/ledger/brain.py:406-423 | Only the payload decides, exactly; a row that cannot be rebuilt costs no receipt |
| Spool.BrainLedger.ResolveReuse | src/rail/ledger/brain.py:238-259 | A key brain holds already: the exact outcome, by the kind, readability and payload of the row under it |
| Spool.BrainLedger.Send | src/rail/ledger/brain.py:238-267 | Each answer of brain, a row of other data included, and a crash after the call, leaves the receipt waiting or settled on a row under its key |
| Spool.RowByKey | src/rail/ledger/brain.py:381-404 | The paged scan ends, finds the first row under the key, and reports none only after reading every page |
| Spool.ScanStep | src/rail/ledger/brain.py:381-404 | Reading one page and going on from its cursor is reading the whole list |
| FileStore.FileLedger.Append | src/rail/ledger/file.py:186-218 | Same key and content: the record on file; same key, other content: a conflict; a new key: one more record, and the newest is listed last |
| FileStore.FileLedger.Unlink | src/rail/ledger/file.py:161-184 | Exactly one receipt leaves the listing |
| Incidents.MatchingPartitions | src/rail/incidents.py:9-38 | Incidents are closed by one recovery each or open, never both, and a recovery closes at most one |
| Incidents.MatchRecoveries | src/rail/incidents.py:9-38 | The two dictionaries updated recovery by recovery compute that matching, in order |
| Incidents.LaterIncidentStaysOpen | src/rail/incidents.py:9-38 | A later incident no recovery answers joins the open ones and changes no pair |
| Incidents.LaterRestoreKeepsPairs | src/rail/incidents.py:9-38 | A later recovery keeps every pair and closes at most one more incident |
| Incidents.LaterRestoreCloses | src/rail/incidents.py:9-38 | One more recovery closes the first open incident it names, or that is earlier when it names none, and nothing else; a garbled one closes nothing |
| Incidents.RestoredTime | src/rail/incidents.py:41-55 | The event time whenever it lies within the bounds of the incident and its recovery, and the recovery's record otherwise |
| DeployLog.PreviousIsNewest | src/rail/deploy/flow.py:185-190 | The artefact of the newest deployment under another digest, and none if and only if there is no such deployment |
| DeployLog.LiveIsNewest | src/rail/deploy/flow.py:179-182 | What is live is the artefact of the newest deployment, whatever its mode |
| DeployLog.ReleaseIsNewest | src/rail/deploy/flow.py:169-176 | What is released is the artefact of the newest release, of the version asked for, and nothing without one |
| DeployLog.IncidentOpens | src/rail/deploy/flow.py:273-284 | One more real incident joins the open ones, last |
| DeployLog.NamedRestoreCloses | src/rail/deploy/flow.py:273-284 | A recovery that names an open incident closes that one |
| DeployLog.LegacyRestoreCloses | src/rail/deploy/flow.py:273-284 | A recovery that names none closes the oldest open one |
| DeployLog.OthersLeaveOpen | src/rail/deploy/flow.py:273-284 | No other record, drill or not, changes which incidents are open |
| DeployFlows.Attester.EmittedAt | src/rail/deploy/flow.py:113-124 | Whatever the clock reads, an instant a second or more after every record on file and after the previous call; it is the clock whenever that is late enough, and else exactly that bound |
| DeployFlows.Attester.Attest | src/rail/deploy/flow.py:126-147 | An accepted record is the newest of the ledger, at that instant, under the key of its kind, target, subject and second, which nothing has; otherwise the loss is counted and nothing changes |
| DeployFlows.Attester.KeyIsFree | src/rail/ledger/__init__.py:139-148 | Keys of events never collide with each other or with the past |
| DeployFlows.RestoresCloseAll | src/rail/deploy/flow.py:398-409 | Recoveries naming the open incidents in order close them all |
| DeployFlows.LiveMeans | src/rail/deploy/flow.py:391-409 | The evidence of a successful forward leaves no incident open and its artefact live |
| DeployFlows.CameBackMeans | src/rail/deploy/flow.py:316-383 | The evidence of a forward that rolled back leaves the earlier open incidents as they were |
| DeployFlows.RollbackMeans | src/rail/deploy/flow.py:460-484 | The evidence of a rollback closes exactly the oldest open incident and swaps what is live with what was |
| DeployFlows.DrillMeans | src/rail/deploy/flow.py:516-586 | The evidence of a successful drill changes neither open incidents, nor what is live, nor what a rollback would apply |
| Flows.Forward | src/rail/deploy/flow.py:287-414 | Each ending of a forward and exactly when it comes: what it wrote, field by field, what runs, and, with every record accepted, what is live and which incidents are open |
| Flows.RollBack | src/rail/deploy/flow.py:417-491 | Each ending of a rollback, the same way; the record names the artefact rolled back from, which is what was live, and the one gone back to |
| Flows.DrillOnce | src/rail/deploy/flow.py:494-593 | Each ending of a drill and exactly when it comes, and what it wrote, field by field; a failed or locked roll-forward says the previous artefact stayed live |
| Flows.ComeBack | src/rail/deploy/flow.py:311-390 | The incident first; `rolled_back` only after the previous artefact was applied |
| Flows.PutBack | src/rail/deploy/flow.py:316-383 | A step of `Flows.ComeBack`: the previous artefact is applied, and only then the return recorded |
| Flows.CloseOpenIncidents | src/rail/deploy/flow.py:395-409 | One recovery for each incident open before the forward, in order |
| Flows.TwoRollbacksRestore | src/rail/deploy/flow.py:417-491 | The evidence of two successful rollbacks restores the live artefact and the one to go back to |
| Flows.RollBackTwice | src/rail/deploy/flow.py:417-491 | Two rollbacks run on one ledger: when both went back with every record accepted, the target runs what the ledger named before them, the ledger names it again with the same artefact to go back to, and the two oldest incidents are over |
| Counted.RollbackIsBlamed | src/rail/metrics.py:318-336 | A rollback that went back, every record accepted, is one failure more in delivery metrics, blamed on the artefact that was live before it, and no deployment |
| Counted.CameBackIsBlamed | src/rail/metrics.py:318-336 | A change that failed and came back is two failures more, both blamed on it and none on what came back, and no deployment |
| Counted.LiveIsCounted | src/rail/metrics.py:277-284 | A change that goes live is one deployment more of its artefact, and no failure |
| Counted.DrillIsCounted | src/rail/metrics.py:348-361 | A drill that works is one drill with its recovery in delivery metrics, and neither deployment nor failure |
| Split.FilesAreTheDiff | src/rail/reviewer/split.py:77-86 | The pieces concatenate to the diff, none is empty, and they begin exactly at its start and where a line begins with the words of a file header |
| Split.SplitDiff | src/rail/reviewer/split.py:100-135 | The chunks are the greedy packing; a refusal names the first file that does not fit |
| Split.SplitMeans | src/rail/reviewer/split.py:100-135 | The chunks concatenate to the diff, cut only between files, and each fits the budget or is one file that cannot |
| Split.GreedyIsFewest | src/rail/reviewer/split.py:117-135 | No way to cut the diff between files, oversized files alone, uses fewer chunks |
| Split.OversizedAreTheFiles | src/rail/reviewer/split.py:138-141 | The oversized chunks are exactly the files that do not fit, in order |
| Sighting.SightOf | src/rail/reviewer/split.py:33-70 | The loops compute the specified sight, and an unreadable header gives none |
| Sighting.CompleteComesFrom | src/rail/reviewer/split.py:45-56 | A path is complete if and only if a visible piece under its header is that header's whole patch |
| Sighting.CompleteIsSoundWhen | src/rail/reviewer/split.py:45-56 | For every visible text, a path reported complete had its patches shown whole, if and only if each path names one patch |
| Sighting.FileBecomesLink | src/rail/reviewer/split.py:41-56 | A file that becomes a link: two patches under one header, and the judge shown the second alone is taken to have seen the first |
| Sighting.SwappedRenames | src/rail/reviewer/split.py:45-56 | Two files that swap names, with rewrites broken into renames: distinct headers, and the second is reported complete though only the first was shown |
| Sighting.RangesAreShown | src/rail/reviewer/split.py:57-69 | Every reported range is a hunk of that path wholly inside the visible text |
| Sighting.CutMeans | src/rail/reviewer/split.py:57-69 | What is reported of a path shown in part: the first and last new line of exactly the hunks that are wholly inside the last such piece |
| Sighting.SeenIsShown | src/rail/reviewer/service.py:320-327 | A location taken as seen was in front of the judge |
| Flow.UnionTime | src/rail/flow.py:204-223 | The merged total is the measure of the union of the intervals inside the window, for any order and overlaps |
| Flow.ClippedCovers | src/rail/flow.py:208-212 | Clipping and sorting cover exactly the occupied part of the window |
| Flow.RunEnds | src/rail/flow.py:218-222 | A run that ends is disjoint from the next |
| Flow.PushMeans | src/rail/flow.py:155-165 | The push is the earliest suite of the Actions app up to the merge, but no earlier than the pull request, and unknown exactly without one in those bounds |
| Flow.RunIntervalMeans | src/rail/flow.py:226-234 | A run's interval holds exactly the instants between push and merge at which it ran, and there is one if and only if the run began before the merge and did not end before its start or the push |
| Flow.JudgeFactsMean | src/rail/flow.py:168-201 | The verdict is the latest success up to the merge, by instant then id, with its own judge's start unless that is later; nothing without a success |
| Flow.BusyMeans | src/rail/flow.py:253-314 | An instant between push and merge is occupied if and only if a run of the CI app or of the reviewer is on, or the judge of the last success is at work |
| Flow.CiSegments | src/rail/flow.py:271-277 | First start, last end and longest run of the CI app are attained, and bound every run; known if and only if every run of the app has a start and one ran |
| Flow.ReviewSegments | src/rail/flow.py:279-288 | The segments of the first reviewer run under the id the receipt names, inside the flow; none without such a run; a carried review took no time |
| Flow.ComputeTimeline | src/rail/flow.py:242-340 | Each segment has its value and is known exactly when it can be: the CI segments, the review of the named run, the judge's wait and work from the last success after the push, the holder's time; every known segment is a part of the flow; idle plus occupied time is exactly the flow |
| Receipt.AttestationData | src/rail/reviewer/verdict.py:101-140 | Ends; raises if and only if the minimal receipt without unseen files does not fit; else fits 60,000 bytes, holds every finding, and names the longest list of at most fifty files that leaves room |
| Receipt.ReceiptFindings | src/rail/reviewer/verdict.py:162-176 | The first level of trimming that fits the budget, or all of it |
| ReceiptText.EntryIsItsText | src/rail/reviewer/verdict.py:143-159 | What a finding is budgeted at is the UTF-8 length of its canonical JSON |
| ReceiptText.FindingsAreTheirText | src/rail/reviewer/verdict.py:143-145 | So is the list of findings |
| ReceiptText.NamesAreTheirText | src/rail/reviewer/verdict.py:143-145 | And the list of unseen files |
| ReceiptText.TrimmedMeans | src/rail/reviewer/verdict.py:148-176 | A finding at each level of trimming, field by field: the end of a path over 200 characters, 300 characters of evidence until its class loses it, 80 of the title at the last level |
| Receipt.FitsWhenMinimalFits | src/rail/reviewer/verdict.py:162-176 | The receipt fits if and only if its minimal form does |
| Receipt.ReloadedDecidesTheSame | src/rail/reviewer/rounds.py:70-77 | Read back, id, class, severity, status and line are the same, so are open blockers and the decision; evidence that was trimmed away says so; the file is in `LongPaths.AnswersSurviveWhen` |
| Receipt.BlockersLoseEvidenceLast | src/rail/reviewer/verdict.py:165-172 | A blocker loses evidence only once no note and no carry-forward has any |
| Receipt.OwnTitlesSurvive | src/rail/reviewer/carry.py:82-101 | A title the review loop writes itself is never cut, so its gap is found again by its title |
| Receipt.HundredPlainFit | tests/test_reviewer_verdict.py:85-100 | A hundred findings in plain text, filed on a path or on the description, fit beside 13,696 bytes of the rest of the payload |
| Receipt.WideFindingsNeverFit | src/rail/reviewer/verdict.py:162-176 | Any sixty findings with long files and titles in four-byte characters never fit, however trimmed |
| LongPaths.AnswersSurviveWhen | src/rail/reviewer/verdict.py:148-149 | With no judged path beginning with an ellipsis, the place a receipt records admits the same answers as the finding's own if and only if its text is within 200 characters or stands for no judged path |
| LongPaths.CutPathIsUnanswered | src/rail/reviewer/service.py:398-412 | Once its path is cut, no reply keeps an answer to a finding or a repeat of it unless its own window was quoted |
| LongPaths.LongPathLosesItsJudge | src/rail/reviewer/verdict.py:148-149 | A path of 201 characters: a judge that saw the whole file may answer before the receipt and not after |
| Metrics.DeliveryWindow | src/rail/metrics.py:253-368 | The counts over the whole history, of changes, redeployments, failed changes and attempts, and exactly the served drills, in turn; what each counts is in the rows below |
| Metrics.DeploymentsMean | src/rail/metrics.py:277-284 | The deployments that count are the releases on the target that name a digest, up to now |
| Metrics.FailuresMean | src/rail/metrics.py:318-323 | The failures that count are incidents and rollbacks outside a drill, up to now |
| Metrics.DrillsMean | src/rail/metrics.py:348-361 | The drills of the window are its simulated incidents, with the simulated recoveries |
| Metrics.OnlyReleasesCount | src/rail/metrics.py:277-284 | No other record, a rollback's or a drill's deployment included, is a deployment that counts |
| Metrics.OnlyRealFailuresCount | src/rail/metrics.py:318-323 | No other record is a failure that counts |
| Metrics.DrillCountsAsDrill | src/rail/metrics.py:348-361 | The four records of a drill leave deployments and failures as they were, and add one drill and its recovery |
| Metrics.WindowChangesMean | src/rail/metrics.py:285-293 | A change counts in the window if and only if the first deployment of its artefact is in it |
| Metrics.RedeploymentsMean | src/rail/metrics.py:285-293 | Redeployments are the deployments of the window whose artefact was deployed before |
| Metrics.BlameMeans | src/rail/metrics.py:324-333 | A failure is blamed on the artefact it names; one that names none on the deployment in force, within a day, or on nothing |
| Metrics.FailedMean | src/rail/metrics.py:318-336 | An artefact failed at the first failure blamed on it |
| Metrics.FailureWithoutChange | src/rail/metrics.py:318-336 | The first failure of an artefact that never went live is one failed attempt, in the window the failure is in |
| Metrics.NothingFailed | src/rail/metrics.py:334-336 | Without a failure nothing failed, and the changes of the window are the attempts |
| Metrics.DrillRestoreMeans | src/rail/metrics.py:348-361 | What serves a drill is the first recovery after it and before the next one; none when there is none |
| Metrics.ChangesPlusRedeployments | src/rail/metrics.py:285-293 | Each release deployment of the window is a change or a redeployment, never both |
| Metrics.ChangeIsFirst | src/rail/metrics.py:285-291 | A change is the artefact's earliest deployment |
| Metrics.RedeploymentIsNoAttempt | src/rail/metrics.py:262-263 | One more deployment of a known artefact, wherever it comes in the history, leaves the number of attempts as it was, though it may move the blame of unnamed failures |
| Metrics.BlamedIsInForce | src/rail/metrics.py:324-333 | An unnamed failure is blamed on the last deployment before it, and on none once a day has passed |
| Metrics.SortingKeepsAll | src/rail/metrics.py:271-275 | Ordering the history loses no record and repeats none |
| Metrics.LateFailureStaysWithItsChange | src/rail/metrics.py:318-336 | A failure of a deployed artefact, however late, creates no attempt and marks the change in its own window |
| Metrics.FailedWereAttempted | src/rail/metrics.py:334-336 | What failed was attempted, so the rate lies in [0, 1] |
| Metrics.FutureIsUnseen | src/rail/metrics.py:271-275 | A record from after the publication changes no deployment, failure or drill it reads |
| Metrics.FailureIsLast | src/rail/metrics.py:318-323 | A later failure is attributed after every earlier one |
| Metrics.DrillRestoresAreDistinct | src/rail/metrics.py:348-361 | A recovery serves at most one drill, and a failed drill borrows none |
| Metrics.MatchDrills | src/rail/metrics.py:348-368 | The loop computes the specified pairs |
| Metrics.ServedMeans | src/rail/metrics.py:348-361 | The pairs are exactly the drills with a recovery before the next drill |
| Recoveries.RecoveryTimes | src/rail/metrics.py:338-346 | The incidents of the whole history are matched before the window is cut; each real incident of the window has one duration or is counted open |
| Recoveries.FutureRecoveries | src/rail/metrics.py:271-275 | A record from after the publication changes no recovery |
| Recoveries.RealMean | src/rail/metrics.py:338-341 | The incidents matched are those outside drills up to now, and the recoveries too |
| Recoveries.DurationsSnoc | src/rail/metrics.py:338-346 | An incident of the window lasted from its record to the time it was over, and no other is counted |
| Recoveries.RecentMeans | src/rail/metrics.py:344-346 | The incidents counted are those of the window, its beginning included |
| Discovery.DiscoverPulls | src/rail/reviewer/github.py:416-477 | Ends within the page limit whatever the server answers; for a list paged in descending update order, finds what a full scan finds |
| Discovery.ReadPage | src/rail/reviewer/github.py:443-472 | A page is read in full unless it breaks the descending order |
| Discovery.ScanMeans | src/rail/reviewer/github.py:448-472 | A scan keeps exactly the readable pull requests merged in the window, each once |
| Discovery.StaleTailAddsNothing | src/rail/reviewer/github.py:473-475 | What was last updated before the window adds no pull request |
| Discovery.UnreadMeans | src/rail/reviewer/github.py:448-472 | The unread count is the number of first listings on the base that are unreadable, or merged in the window with details that cannot be read |
| Discovery.CoverageAgrees | src/rail/reviewer/github.py:471-475 | Stopping early keeps the unread count of a full scan if and only if the pages never requested hold no such listing |
| Discovery.EarlyStopLosesCoverage | src/rail/reviewer/github.py:473-475 | A concrete list of two pages where the counts differ |

## Left out

- GitHub, git, ssh, docker, the judges' processes and prompts: their answers are inputs.
- Arbitration and escalation between light and deep judges: the replies kept are an input of a pass.
- Parsing of Markdown, diff headers and JSON, and regular expressions: the section, headers and hunks are inputs in structured form; a judge's finding filed on the description is one place, whichever way it is spelled.
- Choosing which windows of unchanged files are quoted to a judge: the set of findings so quoted is an input.
- Verdicts recorded without a list of findings, and other shapes from before the present format.
- Trimmed receipts inside the loop: findings are read back whole in `Runs`. `Receipt.ReloadedDecidesTheSame` says what trimming keeps, and `LongPaths` what it takes from a finding on a long path, whose blocker then closes by a ruling, unless its window is quoted.
- The summary text, providers and modes of a verdict, and the ids of a description's section that are not open.
- Verdicts whose receipt does not fit, inside `Runs`: such a pass records nothing, so its run is the run without it; `LongLists.LongListsPassValidation` says when.
- The decision whether a verdict may be carried to a new head: any approving verdict may be, an older one included, so the theorems do not rest on it; `Promises.WaitEndsBy` says where this ends a wait.
- Promises.ClosedWasSeenFixed: what a judge saw is the sight recorded with its reply; `Sighting.SeenIsShown` relates that sight to the visible text.
- Spool.BrainLedger.Attest: one process uses the spool; other hosts write to brain between the receipt and the call. Brain's refusals are one kind of denial with a cause.
- Spool.RowByKey: the rows brain lists do not change while they are paged.
- FileStore.FileLedger.Append: the directory is a list of receipts; temporary files, permissions and tampering are not modelled, and a digest stands for the hash of the content.
- DeployFlows.Attester.Attest: the ledger holds records of one project, and receipts that only reached the spool are not among the records the next stamp looks at.
- Flows.DrillOnce: the schema check and the building of remote steps are one answer each.
- Redaction, reasons, domains, measured recovery seconds and the outcome shown to the operator.
- Flow.ComputeTimeline: durations are integers of microseconds; dividing by sixty and rounding are left out, and so are percentiles.
- Metrics.DeliveryWindow: lead times, release delays, drill durations and medians; the recovery times of incidents are `Recoveries.RecoveryTimes`.
- Receipt.AttestationData: the part of the payload that trimming does not touch is one number of bytes.
- Split.OversizedAreTheFiles: the oversized files themselves; the name read from a file's first line is not modelled.
- Discovery.DiscoverPulls: a page that cannot be fetched or is out of shape ends the discovery and is not modelled.
- Gates other than carry_forward, scaffolding, releases, remotes, the HTTP server, the CLI, caches and file permissions.
