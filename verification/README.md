# Run-level trust in flowers: a verified model

flowers drives a user's goal through a plan of steps. An executor model calls tools; every world-touching call
goes through a broker that refuses, replays, parks or executes it and reads the effect back; the records form a
ledger that a deterministic gate adjudicates before a step counts as done; an operator parks runs on the owner,
resumes them, escalates, waits on durable timers and stops. This project models those parts and proves what they
promise over whole runs. Models, owners, the backend and the clock are arbitrary inputs, so each theorem holds for
all of their behaviours.

## How it is laid out

| file | models |
|---|---|
| types, text, policy | records, keys, strings, tiers |
| effects, readback_poll | diffing, fingerprints, the polling loop |
| trustgate, gate_theorems | the gate's passes and what its verdict means on growing ledgers |
| mandate, registrable | allow-list, caps, owner grant, registrable domains |
| broker, call_facts | one call: specification, object, and what it can and cannot do |
| run | one run as a state machine over inputs, with the history its theorems speak about |
| run_moves | what each input is for, where it leaves a run, and what no input undoes |
| run_ledger, run_ledger_runs | double sends, evidence, accepted steps |
| run_authority, run_authority_runs | grants, scope, caps |
| owner_replies, confirmations | refusals, denials, the gate's forgiveness by label, what a confirmation settles |
| run_examples | concrete runs behind the differences listed below |
| operator | the operator object and the effect table, proved equal to the run model |
| integrations, action_table | the offline backend with lag and faults, verification against it, and its own action table |
| planner, drive | plan DAG, step validation, ladder, replans, termination |
| timers, lifecycle, waits | durable timers, reapers, the tick, bounded waits |
| executor | transcript, parks and resumes, caps, circuit breaker |
| launcher | launch window and session slots under async interleaving |
| memory | the memory note's round trip and bound |

Objects whose methods update fields are classes: `Broker`, `Operator` and `EffectStore`, `FakeIntegrations`,
`Driver`, `LocalTimers`, `WaitingStep`, `Executor`, `CircuitBreaker`, `Launcher`. Their methods are proved against
specification functions, and the whole-run theorems are lemmas about those functions. A run's history is a sequence
of inputs to `RunModel.Next`; `OperatorModel.Operator.Receive` shows that the object takes exactly those steps.

## Where the code and its comments differ

The model follows the code.

- `flowers/broker.py:341-384`: the polling settles on what the last attempt left, so a surface without the effect
  followed by an empty look is unverifiable; the docstring says only if every attempt is empty.
- `flowers/engine/operator.py:1339-1342`: an owner-confirmed send is said not to escalate again. A browser action
  whose read-back matched but was made by its own actor does: the question is put, names no record of it
  (`flowers/engine/operator.py:1235-1239`), and a confirmation changes nothing. When exactly a confirmation settles the
  question is Confirmations.ConfirmationSettlesIff; Confirmations.OwnWordIsAskedAgain is such a ledger.
- `flowers/engine/operator.py:1337-1346`: unverifiable sends are forgiven by label, so a send that nobody confirmed
  can pass beside a settled one with the same label.
- `flowers/engine/operator.py:1911-1920`: a proven-missing re-check that resolves no record leaves its subject
  empty, and a reply then falls back to every plain-unverifiable send, not to none. That happens when its timer
  carries no key, or when its record was rewritten since.
- `flowers/engine/operator.py:935-963`: a denied send is said to be re-sent. One that went out under the mandate
  alone is not: its parameters stay in the mandate's counter, so it parks for the owner's approval. When exactly is
  OwnerReplies.DeniedMandateSendParks; RunExamples.DeniedCallParks is such a run.
- `flowers/engine/operator.py:1093-1100`: the budget and deadline exit returns before the loop's records are
  appended. A send that stands is recognised later exactly when its loop did not take that exit
  (LedgerRuns.SendIsRecognisedIff); RunExamples.DroppedSendGoesOutTwice is a run that takes it.
- `flowers/mandate.py:268-279`: the registrable domain is not idempotent for a host with white space at the outer end
  of a label it keeps.
- `flowers/engine/executor.py:248-249`: the tool-call cap leaves calls of the current turn unanswered when the
  finish-only prompt is sent.
- `deploy/launcher/launcher.py:246-258`: a slot is kept for ever when the creation request raises or its answer
  holds no JSON or no machine id.
- `flowers/seams/integrations.py:288-300`: a landed send whose lag outlasts the attempts is reported missing, which
  reopens it, and an item of an earlier call that comes out of its lag during the polls counts as added. Together:
  the repeated send is verified by the first one's item (Integrations.RepetitionIsVerifiedByTheFirst). A dropped
  write is never verified that way, because in the backend's table nothing else writes its surface
  (ActionTable.DropsAreProvenMissing).
- `flowers/engine/operator.py:1965-1979`: an escalation whose answer met no headroom stays escalated
  (`flowers/engine/operator.py:974-979`), and its reaper, finding the answer on record, does not close it either. When
  exactly an escalation left alone is closed is Lifecycle.Operator.Serve.
- `flowers/engine/planner.py:220-238`: step parameters are taken from the model, the ladder rung among them, so the
  drive's bound, exact otherwise (DriveModel.DriveWorstCase), assumes that no rung starts below zero. The drive ends
  in any case.

## Model

| member | source | states |
|---|---|---|
| LedgerRuns.NoDoubleSend | flowers/broker.py:239-252 | in every run, a later execution of the same exact side effect whose earlier one stands is preceded by something that reopened it (owner denial, or a budget exit that dropped the record), and no record of the run shows the action as live at that moment |
| LedgerRuns.SendIsRecognisedIff | flowers/engine/operator.py:1091-1111 | from every reachable state: a send of a loop that stands is in the next broker's forwarded set exactly when the loop did not end over budget or past its deadline |
| LedgerRuns.AtMostOneStands | flowers/broker.py:484-488 | with no denial and no dropped loop in between, a side effect goes out again only when its earlier record is no longer live (failed or proven missing) |
| LedgerRuns.AcceptedStepsAreProven | flowers/engine/operator.py:1326-1364 | whenever a step is accepted, every forwarded side effect in the ledger has a real earlier call of that action with a matching read-back, or is one the gate asks the owner about that shares its label with a send whose read-back broke or that the owner confirmed |
| LedgerRuns.ForgivenFailuresLanded | flowers/trustgate.py:292-306 | a failed attempt survives an accepted step only if that very action provably landed earlier in the run |
| LedgerRuns.ProofShowsTheItem | flowers/broker.py:575-611 | what such evidence is: a poll within the attempts returned a surface with an item absent from the baseline that carries the whole fingerprint |
| LedgerRuns.CreateProofIsExact | flowers/broker.py:578-585 | for a create that returned an id, that new item bears exactly this id |
| LedgerRuns.EveryRunKeepsLedger | flowers/engine/operator.py:2023-2031 | every reachable state keeps record numbering, keyed effects, complete broker seeding, single sends, evidence behind every verified record, and sound acceptances |
| LedgerRuns.DriveKeepsLedger | flowers/engine/operator.py:712-744 | one seeded broker, one executor loop and the handling of its result keep all of these, whatever the calls and answers |
| LedgerRuns.LoopKeepsLedger | flowers/engine/executor.py:220-349 | any sequence of broker calls until a park keeps them, and keeps the broker's two key sets equal to those of the records so far |
| LedgerRuns.WritingKeepsLedger | flowers/engine/operator.py:1108-1113 | appending only forwarded, failed and refused records loses no live send and invents no evidence |
| LedgerRuns.KeptMeaning | flowers/engine/operator.py:1108-1111 | the appended records are the forwarded, failed and refused ones and no others, each bound to its step |
| LedgerRuns.AllButTheParkedIsWritten | flowers/engine/operator.py:1102-1111 | every call of a loop is written to the ledger, in order and bound to its step, but the one it parked on |
| LedgerRuns.DroppingKeepsLedger | flowers/engine/operator.py:1091-1100 | the budget and deadline exit loses records, and the loss is visible in the history |
| LedgerRuns.AcceptanceJustifies | flowers/engine/operator.py:1326-1364 | an accepted ledger justifies every one of its records: harmless, proven, superseded by its own verified retry, or excused by label |
| LedgerRuns.AcceptanceNeedsEverything | flowers/trustgate.py:513-566 | a step is accepted exactly when completion is claimed and clean, nothing is stale, breaking or unmet, nothing is contradicted, and every unverifiable label is settled |
| LedgerRuns.ConfirmingKeepsLedger | flowers/engine/operator.py:910-912 | an owner confirmation reopens nothing and forges no evidence |
| LedgerRuns.CorrectingKeepsLedger | flowers/engine/operator.py:953-957 | an owner denial reopens only the sends it names |
| RunLedger.SecondSendNeedsReopening | flowers/broker.py:484-488 | the step from the broker's set to the history: a closed key stays closed until something reopens it |
| RunLedger.CallKeepsSendsOnce | flowers/broker.py:607-610 | one broker call keeps the record of sends complete and the key sets closed |
| RunLedger.CallKeepsEvidence | flowers/broker.py:397-420 | one broker call, an idempotent replay included, says verified only where a real call of the key matched |
| RunLedger.CallKeepsShape | flowers/broker.py:590-593 | a call's record is the next one in number, carries its key when forwarded, and moves the key sets by exactly itself |
| RunExamples.DroppedSendGoesOutTwice | flowers/engine/operator.py:1091-1100 | a concrete run: the budget exit drops the record of a mail, and the same mail goes out again while the first stands |
| RunExamples.KeylessReverifyRewritesAnother | flowers/engine/operator.py:1911-1920 | a concrete run: a proven-missing re-check without a key, and a reply that rewrites a mail it was not about |
| RunExamples.DeniedCallParks | flowers/engine/operator.py:935-963 | a run for any call of an approved class: it goes out under the mandate, cannot be verified, is denied by the owner, and the same call then parks for approval instead of being sent again |
| CallFacts.SetsFollowRecords | flowers/broker.py:607-611 | the forwarded and verified key sets grow by exactly what the call's own record says |
| CallFacts.ExecutesOnlyOpenKeys | flowers/broker.py:484-488 | a side effect reaches the backend only while its key is not in the forwarded set |
| CallFacts.KeysTellActionsApart | flowers/broker.py:297-302 | a call closes, and its grant releases, that very action alone: any other, different in one parameter, stays open and as it was authorised |
| CallFacts.SameActionIsClosed | flowers/broker.py:476-488 | once a side effect stands, the same action with the same parameters is closed |
| CallFacts.VerifiedHasASource | flowers/broker.py:411-415 | a record says verified only if this call's read-back matched or the key was verified before |
| CallFacts.NothingRunsUnauthorised | flowers/broker.py:473-535 | whatever runs is above the floors and has a permission whose own conditions hold; the NEVER tier runs on a grant only |
| CallFacts.ExecutesIff | flowers/broker.py:473-535 | the backend is called exactly for an unfloored, open call that was granted, or that is automatic, covered or learned and need not be shown first |
| CallFacts.AnswersWithoutRunningIff | flowers/broker.py:473-488 | a call is refused exactly by the floors and replayed exactly when its key is closed; whatever else does not run is asked about |
| CallFacts.AsksIff | flowers/broker.py:494-535 | each question is asked exactly when it is due: the draft, the undo window on the field as written, the NEVER tier, and an ASK call that is neither covered nor learned |
| CallFacts.RunsLearnedIff | flowers/broker.py:509-517 | a call runs on what its class has earned exactly when it is an open, ungranted integration side effect of the ASK tier, not listed by the mandate, that reaches nobody and whose class was approved often enough |
| CallFacts.ReplayRepeatsWhatIsKnown | flowers/broker.py:397-420 | a replay is verified exactly when its key was, else unverifiable, and the gate takes an ordinary integration's so; a browser replay always goes to the owner |
| CallFacts.CoveredCallIsShownFirst | flowers/broker.py:494-508 | a covered call nobody released parks on its draft, else in the undo window whenever the mandate sets one, and is sent at once only without either |
| CallFacts.WindowsAreKept | flowers/broker.py:504-508 | the mandate alone sends nothing while it has an undo window |
| CallFacts.AnswerBecomesRecord | flowers/broker.py:537-611 | an error is a failed attempt of that key, a connect request with a link parks an integration, a read touches nothing, and a side effect carries exactly its read-back |
| CallFacts.PhaseTellsTheAnswer | flowers/broker.py:386-611 | a record is deferred exactly when the call still waits for somebody, refused, failed or forwarded exactly when that is the answer |
| CallFacts.LooksAreTakenAsTheyCame | flowers/broker.py:716-725 | read-backs are judged as they came; a browser's failed look is nothing seen, so the tool is never to blame there and the gate excuses no browser action for it |
| CallFacts.RecordNamesItsWitness | flowers/broker.py:714-731 | an integration's record names the run's actor and no observer, a browser side effect the browser's actor and its observer |
| CallFacts.GateReadsTheCall | flowers/trustgate.py:223-303 | from call to verdict: refused and parked calls contradict a completion, a failed side effect does until its key lands, a read never does, and an integration's side effect stands or falls with its read-back |
| CallFacts.BrowserNeedsAnotherPair | flowers/trustgate.py:240-291 | a browser side effect whose read-back matched is verified exactly when its observer is somebody other than its actor, else the owner is asked |
| Policy.OverridesStopAtTheFloors | flowers/policy.py:217-254 | no override reaches a refusal or the NEVER floor, and neither is ever taken for a read |
| Policy.OverridesDecideElsewhere | flowers/policy.py:240-259 | elsewhere the action's own override decides, then its toolkit's, then its nature; and no override changes whether it is read back |
| CallFacts.ParksAsItsTier | flowers/broker.py:514-535 | a call that parks is above the floors, is asked about as NEVER exactly when its tier is NEVER, and gets an undo window only when no preview of it is due |
| CallFacts.DeliveriesNeedAGrant | flowers/broker.py:494-503 | under an automatically committed mandate with previews on, an integration call that delivers to people and is not of the AUTO tier executes on a grant alone |
| CallFacts.CounterFollowsCoveredSends | flowers/broker.py:602-604 | the mandate counter moves exactly with a covered side effect that the backend accepted, by exactly that call, which ran on a grant or on the mandate |
| CallFacts.StoringChangesVerdictIff | flowers/seams/store.py:38-74 | the stored record forgets whether a failed attempt was mutating; that changes a verdict exactly for a failed gated non-mutating attempt |
| CallFacts.StoringKeepsBrokerVerdicts | flowers/seams/store.py:38-74 | no record the broker makes is one of those |
| BrokerModel.Broker.CallIntegration | flowers/broker.py:468-611 | the method's refusal, replay, preview, undo, approval, execution and read-back equal the specified call, state and answer |
| BrokerModel.Broker.CallBrowser | flowers/broker.py:614-740 | the same for browser actions, with their extra floors, no preview and no learned trust |
| BrokerModel.Broker.PerformPending | flowers/broker.py:742-757 | a parked action is routed to its backend with every floor and check of a fresh call |
| BrokerModel.Broker.RunAndRecord | flowers/broker.py:537-611 | execution failure, connect request, read-only success and verified side effect each leave the specified record and state |
| BrokerModel.Broker.ForwardSide | flowers/broker.py:577-610 | after a side effect: polled read-back, charged mandate, key closed unless proven missing, key verified when matched |
| ReadbackPoll.VerifyReadback | flowers/broker.py:341-384 | the polling loop computes the specified outcome of the probes |
| ReadbackPoll.SettlesOnOneAttempt | flowers/broker.py:368-384 | the outcome is what one attempt left: the first that ends the polling, else the very last |
| ReadbackPoll.VerifiedIff | flowers/broker.py:368-384 | verified exactly when some attempt in the budget matches before any unrecoverable error |
| ReadbackPoll.MoreAttemptsStillVerify | flowers/broker.py:360-361 | more attempts never lose a verification |
| ReadbackPoll.ProvenMissingIff | flowers/broker.py:349-351 | proven missing exactly when nothing matched, nothing broke and the last attempt returned a surface |
| ReadbackPoll.UnverifiableIff | flowers/broker.py:351-354 | unverifiable exactly when nothing matched, nothing broke and the last attempt came back empty |
| ReadbackPoll.BrokenIff | flowers/broker.py:355-384 | the tool is reported broken exactly when the baseline or an attempt met an unrecoverable error before anything ended the polling |
| ReadbackPoll.DriftIff | flowers/broker.py:355-384 | without a fingerprint, drift is reported exactly when an attempt before any unrecoverable error saw another surface than the baseline |
| ReadbackPoll.AbsentThenBlipIsUnverifiable | flowers/broker.py:370-384 | a concrete case where a surface was seen, the last attempt was empty, and the outcome is unverifiable: the docstring's every-attempt rule does not hold |
| ReadBack.HasEffectIffDifferent | flowers/effects.py:16-28 | drift is reported exactly when the two surfaces differ |
| ReadBack.VerifiedItemCarriesEveryValue | flowers/effects.py:42-118 | verified means one single added item carries every value: a record id as its own id, an address as a whole field, a text's words inside one field |
| Text.OneWord | flowers/effects.py:38-39 | letters and digits alone are one word, whatever their case |
| Text.WordsEndThere | flowers/effects.py:38-39 | any other character stands between words and is in none |
| ReadBack.CarryingItemVerifies | flowers/effects.py:42-118 | and an added item that carries every value always verifies, as long as there is a value |
| ReadBack.BoundCreateIsExact | flowers/effects.py:92-118 | a create verified through its bound id was seen as an added item whose own id is that id |
| ReadBack.DroppedCreateNeedsSentinel | flowers/broker.py:581-585 | a create that returned no id verifies only against an added item bearing the reserved id itself |
| TrustGate.TerminalRecords | flowers/trustgate.py:215-222 | the last-record-wins map holds exactly the terminal records |
| TrustGate.SortByVerdict | flowers/trustgate.py:223-303 | the first pass files every terminal record under its one verdict and defers the retryable ones |
| TrustGate.ObjectToRetries | flowers/trustgate.py:304-307 | the deferred pass objects to exactly the attempts whose own action did not land |
| TrustGate.ClassifyEffects | flowers/trustgate.py:195-307 | both passes together compute the declarative per-record verdict |
| TrustGate.CollectForwarded | flowers/trustgate.py:310-369 | the strict and the relaxed report hold exactly the labels their definitions name |
| GateTheorems.CleanLedgerMeaning | flowers/trustgate.py:195-307 | both objection lists are empty exactly when every terminal record is harmless, verified, or a failed attempt whose very action verifiably landed |
| GateTheorems.VerifiedMeaning | flowers/trustgate.py:310-357 | a verified verdict is exactly an expected effect seen by an independent read-back, and the strict report lists exactly these records |
| GateTheorems.VerdictOnFields | flowers/trustgate.py:223-303 | each verdict on a side effect, on its fields: what objects, what may be retried, what is harmless, what is verified, and what asks the owner |
| GateTheorems.SilentRecords | flowers/trustgate.py:232-241 | a record that leaves out whether it touched the world is read as one that did when it comes from the browser, else as one that did not |
| GateTheorems.CleanLedgerReportsAgree | flowers/trustgate.py:310-369 | verified labels are among landed labels, and on a clean ledger the two are equal |
| GateTheorems.OrderDoesNotMatter | flowers/trustgate.py:195-307 | the verdict and both reports depend on the last record of each action id alone, whatever the order of the records and whatever was recorded before |
| GateTheorems.ReorderingDoesNotMatter | flowers/trustgate.py:195-307 | so any reordering of records with distinct action ids leaves them unchanged |
| GateTheorems.VerifiedForgivesOnlyItsOwnKey | flowers/trustgate.py:292-306 | a verified record clears the earlier failures of its own key and no other objection, not even a label sibling's |
| GateTheorems.HardRefusalIsPermanent | flowers/trustgate.py:299-303 | no append of fresh records and no correction of correctable ones ever clears a refusal or a proven absence |
| OwnerReplies.RefusalIsForever | flowers/engine/operator.py:869-957 | from any reachable ledger with such a record, no later input of any kind changes it or lets a step be accepted |
| OwnerReplies.NextKeepsGood | flowers/engine/operator.py:1234-1242 | an open send question names only records an attestation may rewrite, across every input |
| OwnerReplies.SubjectsAreCorrectable | flowers/engine/operator.py:869-884 | whoever a reply rewrites, by name or by the fallback, was forwarded and unconfirmed or already failed |
| OwnerReplies.DenialReopensItsSubject | flowers/engine/operator.py:935-963 | a denial changes only its subject, and a key stays closed exactly when a live record of it lies outside the subject |
| OwnerReplies.DeniedSendGoesOutIff | flowers/engine/operator.py:935-963 | a wholly denied action is never replayed, and executes in the next loop exactly when it is above the floors and still granted, or needs no new question |
| OwnerReplies.DeniedMandateSendParks | flowers/engine/operator.py:935-963 | in every run, a denied send that was charged to the mandate executes again exactly when that very action was also granted, and otherwise parks for approval |
| OwnerReplies.VerifiedResendClears | flowers/engine/operator.py:942-952 | a verified resend removes the denied records from the objections, and nothing else |
| OwnerReplies.PhaseFlipIsWhatForgives | flowers/engine/operator.py:944-952 | with the phase flipped a verified resend leaves the denied record without objection; had only the absence been set, no ledger evolving from there would ever be clean |
| OwnerReplies.ReverifyStaysOnItsOwnIff | flowers/engine/operator.py:1911-1920 | after a proven-missing re-check, with or without a key, a denial touches only that action exactly when the re-check named a record or no plain-unverifiable send stands, and a confirmation exactly when it named one or every such send is confirmed already |
| OwnerReplies.OwnSendIsRewritten | flowers/engine/operator.py:1911-1920 | when the re-check finds its record, a denial turns exactly that send into a failed attempt |
| OwnerReplies.BrokenSendsAreSpared | flowers/engine/operator.py:869-884 | a reply to a question that names no record never touches a send whose read-back tool broke |
| OwnerReplies.UnapprovedDraftIsGone | flowers/engine/operator.py:767-817 | a no, an edit or a timer on a draft preview makes no call and no grant, and forgets the old draft in memory and store |
| OwnerReplies.LabelGateMissesIff | flowers/engine/operator.py:1337-1346 | the gate forgives by label: it misses open records exactly when each shares its label with a settled one |
| OwnerReplies.LabelGateMisses | flowers/engine/operator.py:1337-1346 | a concrete ledger of two mails where an unconfirmed send is accepted that way |
| Confirmations.SettledIff | flowers/engine/operator.py:1333-1344 | a label is settled exactly when one of its records was forwarded and confirmed by the owner, or left unverified by a broken tool |
| Confirmations.ConfirmationSettlesIff | flowers/engine/operator.py:896-933 | a confirmation leaves nothing to ask about exactly when every record that only its own actor saw shares its label with one the confirmation or a broken tool settles |
| Confirmations.ConfirmedIsNotAskedAgain | flowers/engine/operator.py:1339-1346 | so where everything seen was seen by somebody else, a confirmed question is never put again on that ledger, whatever a later step claims |
| Confirmations.OwnWordIsAskedAgain | flowers/engine/operator.py:1231-1239 | otherwise it can be: a browser action that its own actor observed is asked about, no question names its record, and a confirmation changes nothing |
| RunMoves.StopEndsTheRun | flowers/engine/operator.py:886-894 | after the owner's stop of any escalation, whatever comes later, the run is stopped and nothing is executed, granted, charged or written again |
| RunMoves.StoppedForEver | flowers/engine/operator.py:886-894 | a stopped run stays exactly as it is under every sequence of inputs |
| RunMoves.NoToADraftEndsTheRun | flowers/engine/operator.py:767-781 | so does a run whose draft was declined |
| RunMoves.OnlyAddressedInputsAct | flowers/engine/operator.py:454-554 | in a state it does not speak to, an input changes nothing at all |
| RunMoves.OthersOnlyMove | flowers/engine/operator.py:454-554 | an input that starts no loop executes, grants, charges and accepts nothing, and only a reply about a send rewrites records |
| RunMoves.WhereOthersLead | flowers/engine/operator.py:819-995 | where each of these leaves the run: stopped, running, finished, escalated or as it was |
| RunMoves.EscalationEndsIff | flowers/engine/operator.py:819-844 | an escalation ends exactly with guidance, a stop, a confirmation or a denial that meets headroom, the last two only on a question about a send |
| RunMoves.FinishedEndsIff | flowers/engine/operator.py:1888-1920 | a finished run is taken up again by a proven-missing re-check alone |
| RunMoves.WhereLoopsLead | flowers/engine/operator.py:1091-1244 | where a loop's end leaves the run: over budget, parked on its very call, failed, asked about, accepted or told to try again |
| RunMoves.LoopMakesItsCalls | flowers/engine/executor.py:242-349 | a loop makes its calls in order, each with its own record, all of them or up to the first that must wait for somebody |
| RunMoves.ConnectResumesAtTheCall | flowers/engine/operator.py:1034-1052 | once the account of a parked call is connected, any number of restarts in between, the next loop starts with that very call |
| RunMoves.RestartLosesNothing | flowers/engine/operator.py:328-369 | in every reachable state a restart keeps everything, and brings back the stored vouched-for addresses where the run had let go of them |
| AuthorityRuns.NothingRanUnauthorised | flowers/broker.py:473-535 | in every run, whatever executed was not refused; a call of the NEVER tier, by nature or by override, had the owner's own release of that exact action, never an elapsed undo window; an ASK call had a release, the mandate or learned trust |
| AuthorityRuns.DraftsAreApproved | flowers/broker.py:494-503 | in every run under an automatically committed mandate with previews on, an integration call that delivers to people and is not of the AUTO tier went out only after the owner's yes to a question that showed this exact action, or after its release as a browser action of the same key |
| AuthorityRuns.UndoWindowIsKept | flowers/broker.py:504-508 | in every run under a mandate with an undo window, nothing executes on the mandate alone, and every counted send was released before on a question that showed this exact action |
| AuthorityRuns.LoopParksFittingly | flowers/broker.py:514-535 | whatever calls a loop makes, the question it parks on is the one the parked action's tier calls for |
| AuthorityRuns.YesReleasesWhatWasShown | flowers/engine/operator.py:496-513 | a yes grants exactly the key of the action shown and resumes at it, in every reachable state, restarts included |
| AuthorityRuns.CapsHold | flowers/engine/operator.py:2059-2066 | over every run the carried counter is the exact tally of the counted sends, each domain's count is the sum over its recipients, and no cap is exceeded |
| AuthorityRuns.CountedSendIsRemembered | flowers/mandate.py:583-585 | in every run the counter keeps the parameters of every send it charged, whatever becomes of the record |
| AuthorityRuns.RecipientsStayInScope | flowers/mandate.py:608-619 | every recipient of a mandate-authorised call is on the owner's list or is an address an earlier page of its own organisation carried |
| AuthorityRuns.OwnerGrantOverARun | flowers/mandate.py:381-428 | under an owner grant over n addresses: at most n counted sends, at most one each, only to named or page-vouched addresses |
| AuthorityRuns.EveryRunIsAuthorised | flowers/engine/operator.py:477-516 | every reachable state keeps both copies of the grants earned, every execution allowed, the counter exact, and the parked question equal to its key |
| AuthorityRuns.NextKeepsRun | flowers/engine/operator.py:454-554 | each input keeps all of these |
| RunAuthority.FittingReleases | flowers/engine/operator.py:477-486 | a release of the NEVER tier was the owner's, never a timer's; a release of a draft was the owner's, or showed it as a browser action of the same key |
| AuthorityRuns.PagesVouch | flowers/mandate.py:295-307 | whatever the fetched pages add to the scope is an address of the page's own registrable domain |
| AuthorityRuns.AdmittedMeaning | flowers/mandate.py:295-307 | the addresses fetched pages add are exactly the full addresses on them whose domain keeps the same registrable labels as their page |
| AuthorityRuns.PagesWidenTheScope | flowers/engine/operator.py:2023-2031 | and every later broker of the live run, after a restart too, admits each of them |
| RunAuthority.CallKeepsAllowed | flowers/broker.py:473-535 | one broker call keeps every execution of the history permitted and every counted one in scope |
| RunAuthority.CallKeepsCaps | flowers/broker.py:602-604 | one broker call keeps the counter an exact tally within the caps |
| RunAuthority.CoveredStaysInScope | flowers/mandate.py:608-619 | under the widened scope a covered recipient is the owner's or the very address a page vouched for |
| Mandate.Dedup | flowers/mandate.py:126-132 | the loop yields the trimmed lower-case values without repeats, in first-occurrence order |
| Mandate.DedupLower | flowers/mandate.py:126-132 | no value twice, and exactly the non-blank normalised inputs |
| Mandate.AddressAdmitsOnlyItself | flowers/mandate.py:160-179 | an exact address on the allow-list admits that address and no other |
| Mandate.AtSignIsDropped | flowers/mandate.py:169-173 | a domain entry written with its at-sign admits the same recipients |
| Registrable.DomainEntryAdmitsLabelwise | flowers/mandate.py:160-179 | a domain entry admits only that domain and names below it, label by label, never a name that merely ends in its letters |
| Registrable.DomainEntryAdmitsBelow | flowers/mandate.py:160-179 | and it admits every address or host whose domain is the entry or lies below it, label by label |
| Mandate.Bump | flowers/mandate.py:569-585 | the counting loop computes the specified counter |
| Mandate.CountRecipientsAdds | flowers/mandate.py:578-582 | per recipient and per domain the counter grows by exactly the recipients of the call |
| Mandate.BumpKeepsTally | flowers/mandate.py:569-585 | recording a call with new parameters keeps the counter an exact tally of the sends |
| Mandate.BumpKeepsBalance | flowers/mandate.py:578-582 | recording a call keeps each domain's count equal to the sum of its recipients' counts |
| Mandate.CoveredSendStaysWithinCaps | flowers/mandate.py:590-636 | a covered call keeps both the tally and every cap |
| Mandate.CoversIff | flowers/mandate.py:590-636 | coverage on the sends made so far instead of the counter: a listed ASK action, every recipient admitted, new parameters, and every cap still kept with it |
| Mandate.UndoWindowClamps | flowers/mandate.py:723-728 | on the field as written: no window below one, itself up to 3600, and 3600 beyond |
| Mandate.CapsClamp | flowers/mandate.py:135-144 | caps as written stand within 200, 100 and 20, and are at least one |
| Mandate.LearnedIff | flowers/mandate.py:644-663 | learned exactly when the class was approved often enough and this very call is ASK, not refused, and reaches nobody |
| Mandate.LabelsMatchIff | flowers/mandate.py:82-90 | two classes are one exactly when toolkit and action agree up to case |
| Mandate.GrantAdmitsOnlyNamed | flowers/mandate.py:415-428 | a recipient admitted by an owner grant is one the owner named |
| Mandate.OwnerGrantIff | flowers/mandate.py:381-428 | a goal authorizes by itself exactly when it asks for a send, only delivering actions are proposed, and the proposed recipients are there and all named |
| Mandate.GrantCoversTheFirstSend | flowers/mandate.py:415-428 | and then the first send to a named recipient is covered |
| Registrable.LabelsOfJoin | flowers/mandate.py:273-279 | splitting a joined name gives back its labels |
| Registrable.CutIsStable | flowers/mandate.py:276-279 | cutting the kept labels again keeps them all, and they are never a listed suffix |
| Registrable.KeepsOneMoreThanShared | flowers/mandate.py:268-279 | kept is one label more than the longest listed suffix, when the host has one more |
| Registrable.HostAdmitsIff | flowers/mandate.py:282-292 | an address is admissible from a page exactly when both keep the same labels, and some |
| Registrable.NeverAListedSuffix | flowers/mandate.py:268-279 | the registrable domain of any host is empty or has two to four labels and is never a listed public suffix |
| Registrable.IdempotentIff | flowers/mandate.py:268-279 | taking the registrable domain twice changes nothing exactly when, in the trimmed host, the first label to be kept does not start with white space and the last does not end with it |
| Registrable.PlainHostIsIdempotent | flowers/mandate.py:268-279 | so a host with no white space at either end of any label is always stable |
| Registrable.SpaceInsideAHostIsNotStable | flowers/mandate.py:268-279 | a concrete host where it does change |
| OperatorModel.Operator.Receive | flowers/engine/operator.py:454-554 | for every input in every state the object's fields and table end exactly where the run model says |
| OperatorModel.Operator.DriveStep | flowers/engine/operator.py:712-744 | a seeded broker, the executor's calls and the handling of their result equal the specified drive |
| OperatorModel.Operator.NewBroker | flowers/engine/operator.py:2006-2042 | the broker is seeded from the ledger, the widened scope and the carried counter |
| OperatorModel.Operator.ExecuteCalls | flowers/engine/executor.py:242-349 | the calls run in order until one parks, each against the sets the earlier ones left |
| OperatorModel.Operator.HandleStepResult | flowers/engine/operator.py:1091-1244 | budget exit, records, discovered addresses, parks, tool failure and gate in the code's order equal the specified result |
| OperatorModel.Operator.AppendKept | flowers/engine/operator.py:1108-1111 | the append loop writes exactly the kept records, bound to their step |
| OperatorModel.Operator.AdmittedFromFetch | flowers/mandate.py:295-307 | the page and address loops admit exactly the addresses of each page's own registrable domain |
| OperatorModel.Operator.GateStep | flowers/engine/operator.py:1326-1364 | acceptance and the owner question equal the specified gate on the stored ledger |
| OperatorModel.Operator.PendingSendEffects | flowers/engine/operator.py:869-884 | the records a reply is about: exactly the named ones, or exactly the plain-unverifiable ones |
| OperatorModel.Operator.AttestSubject | flowers/engine/operator.py:910-957 | overwriting the chosen rows one by one is the attestation on the whole ledger, every other row unchanged |
| OperatorModel.Operator.OnYes | flowers/engine/operator.py:477-513 | a yes, the owner's or an elapsed undo window's, releases the parked action and runs it first |
| OperatorModel.Operator.PopPendingGrant | flowers/engine/operator.py:500-506 | the pending key is popped into the grants and persisted, and the parked action is handed over |
| OperatorModel.Operator.OnNo | flowers/engine/operator.py:493-516 | a no stops the run cleanly at a draft preview and escalates at any other question |
| OperatorModel.Operator.OnTimer | flowers/engine/operator.py:481-516 | a timer that finds no answer releases an undo window, revises a draft, and declines anything else |
| OperatorModel.Operator.OnDenied | flowers/engine/operator.py:935-995 | a denial rewrites its subject and resumes only with headroom |
| OperatorModel.Operator.OnConfirmed | flowers/engine/operator.py:896-933 | a confirmation marks its subject and resumes or closes |
| OperatorModel.EffectStore.UpdateEffect | flowers/seams/store.py:427-446 | the scan overwrites the first row of that action id and reports whether there was one |
| Integrations.FakeIntegrations.ExecuteAction | flowers/seams/integrations.py:247-276 | unconnected, unknown, read, dropped and landing calls leave the specified state and answer |
| Integrations.WhatACallStores | flowers/seams/integrations.py:247-276 | an unconnected toolkit asks to connect and nothing changes; connected, a known write that is not dropped is stored under its key, and nothing else is |
| Integrations.ItemBearsItsId | flowers/seams/integrations.py:262-276 | the item is stored under the record id the caller gives and bears it, else under the next number; a binding action answers with that very key, with a blank one when dropped, and any other with none |
| Integrations.FakeIntegrations.TakeSnapshot | flowers/seams/integrations.py:278-300 | a look shows the items no longer hidden and brings each hidden one a look closer |
| Integrations.FakeIntegrations.SnapshotProbe | flowers/seams/integrations.py:302-315 | broken, flaky after the baseline, or a surface |
| Integrations.PollShows | flowers/seams/integrations.py:288-300 | look number i shows exactly the items hidden for at most i looks |
| Integrations.VerifiedAgainstBackendIff | flowers/seams/integrations.py:278-300 | over any backend state: verified exactly when some item the baseline did not show carries the fingerprint and appears within the attempts, else proven missing |
| Integrations.LandedSendVerifiesIff | flowers/seams/integrations.py:273-300 | a landed send verifies exactly when there are more attempts than lag, and is otherwise reported proven missing |
| Integrations.DroppedSendIsProvenMissing | flowers/seams/integrations.py:258-260 | after any history of calls, looks, inbound mail, repairs and connects from empty surfaces, a dropped write is proven missing when nothing that lands writes its surface |
| ActionTable.DropsAreProvenMissing | flowers/seams/integrations.py:34-42 | with the action table the backend really has, every dropped write is proven missing, after any such history |
| ActionTable.OneWriterEach | flowers/seams/integrations.py:34-42 | in that table no two actions write one surface, and none writes the inbox |
| Integrations.UnwrittenStaysEmpty | flowers/seams/integrations.py:247-276 | a surface that only dropped actions write stays empty through any history |
| Integrations.SettledDropIsProvenMissing | flowers/seams/integrations.py:258-260 | with any table, a dropped write over a settled backend is proven missing |
| Integrations.LateItemVerifiesADroppedSend | flowers/seams/integrations.py:288-300 | in a table where another action writes the surface, an item just coming out of its lag verifies a dropped write |
| Integrations.LateItemVerifiesALandedSend | flowers/seams/integrations.py:288-300 | an earlier item of the same content coming out of its lag verifies a landed write while its own item stays hidden through every attempt |
| Integrations.RepetitionIsVerifiedByTheFirst | flowers/seams/integrations.py:273-300 | an ordinary send whose lag is longer than its attempts, at most twice as long, is reported missing; sent again it is verified by the first item, its own still hidden |
| Integrations.OwnSendVerifiesIff | flowers/seams/integrations.py:129-135 | an ordinary send, fingerprinted by its own fields, verifies over a settled provider exactly when the attempts outlast the lag |
| Integrations.ImpatientRepetitionLandsTwice | flowers/seams/integrations.py:273-300 | when the lag outlasts the attempts, a granted send asked for twice reaches the provider twice and its surface holds two items of the same content |
| Integrations.OwnItemCarries | flowers/seams/integrations.py:129-135 | a fingerprint of the call's own fields is carried by the item the call stores |
| Integrations.RepetitionIsReplayedIff | flowers/broker.py:484-488 | a granted send that lands is closed to a repetition exactly when the attempts outlast the lag; otherwise the same request executes again whatever the world |
| Planner.ReadyIndices | flowers/types.py:169-178 | exactly the pending steps whose dependencies are all done, the first of them in plan order first |
| Planner.SomeStepIsReady | flowers/types.py:169-181 | a well-formed plan of pending and done steps that is not all done has a ready step |
| Planner.ParseSteps | flowers/engine/planner.py:192-239 | the nested loops compute the specified validation of the model's steps |
| Planner.BackwardDepsMeaning | flowers/engine/planner.py:211-219 | the kept dependencies are exactly the written backward ones, each once |
| Planner.ParsedMeaning | flowers/engine/planner.py:203-239 | parsed steps are pending, numbered on from the offset, and depend backward only |
| Planner.ParsedReadsTheEntries | flowers/engine/planner.py:203-239 | one step for each usable entry, in order, with its text, kind and rung and exactly its backward dependencies |
| Planner.FirstPlanFallsBackIff | flowers/engine/planner.py:126-143 | the goal becomes a single step exactly when none of the first twelve entries is usable |
| Planner.ReplanIsWellFormed | flowers/engine/planner.py:145-166 | a replan is well formed, keeps the finished steps as a done prefix and adds at most twelve pending ones |
| Planner.FirstPlanIsWellFormed | flowers/engine/planner.py:126-143 | a first plan is well formed, of one to twelve pending steps, also when the answer was unusable |
| DriveModel.Driver.Drive | flowers/engine/operator.py:688-710 | the drive ends; complete plans only are finalized; runs stay within the potential; and a plan of plain steps is worked off: with every run accepted, each step is run once and done, and with no thirteen runs in a row refused, each is done within its own ladder and without a replan |
| DriveModel.Driver.Turn | flowers/engine/operator.py:688-710 | the first ready step is run if it is plain, until a run decides it, and set waiting if it waits on time; nothing ready ends the drive; nothing else is ever set waiting |
| DriveModel.Driver.RunGenericStep | flowers/engine/operator.py:712-744 | an advance spends a replan or finishes a step, every executor run is paid for, and the first run that is not refused, or the last rung's, decides where the step ends |
| DriveModel.Driver.Conclude | flowers/engine/operator.py:712-744 | a run that is not refused finishes its step and no other, parks and changes nothing, or leaves the step failed or as it is to the owner |
| DriveModel.Driver.ClimbLadder | flowers/engine/operator.py:1246-1271 | one rung at a time up to the cap, then a redirect, within the same accounts and with the same end |
| DriveModel.Driver.Redirect | flowers/engine/operator.py:1246-1271 | at the top of the ladder or without headroom: a new route, paid for by a spent replan, or an escalation |
| DriveModel.Driver.ReplanRemaining | flowers/engine/operator.py:1273-1305 | a replan is counted before it is asked for and happens exactly when headroom, replans and new steps are left; the new plan is the finished steps followed by the validated answer, and costs at most what it frees |
| DriveModel.DriveBudget | flowers/engine/operator.py:1246-1305 | at most 9 * 12 * 13 executor runs, 12 * 13 fewer per replan spent, for a plan with at most twelve open steps and every ladder at its foot |
| DriveModel.DriveWorstCase | flowers/engine/operator.py:1246-1305 | the bound is exact: a concrete drive over twelve plain steps, with concrete answers, takes 9 * 12 * 13 executor runs |
| DriveModel.DriveBuriedStep | flowers/engine/planner.py:220-238 | the bound needs that: a concrete drive over one step whose model-written parameters start its ladder far below zero takes more runs |
| Timers.LocalTimers.Due | flowers/seams/timers.py:114-137 | hands out exactly the live timers that are due, each once and in strict order of time and number, and marks exactly those fired |
| Timers.LocalTimers.CancelForRun | flowers/seams/timers.py:145-149 | cancels every timer of the run and no other |
| Timers.HandedAtMostOnce | flowers/seams/timers.py:114-149 | over any history a timer is handed out at most once, and never after it fired or was cancelled |
| Timers.HandedExactlyOnce | flowers/seams/timers.py:114-149 | a live timer nobody cancels before a poll at or after its time is handed out exactly once |
| Lifecycle.Operator.Escalate | flowers/engine/operator.py:1928-1955 | a fresh question and its armed reaper together, so no escalation is ever unattended |
| Lifecycle.Operator.ReapRun | flowers/engine/operator.py:1965-1987 | closes exactly a run still escalated on that unanswered question; a stale reaper changes nothing |
| Lifecycle.Operator.ReverifySend | flowers/engine/operator.py:1900-1926 | a proven absence escalates any run but a stopped one, on a fresh question, and nothing else does |
| Lifecycle.Operator.Resume | flowers/engine/operator.py:819-844 | an escalated run without an answer, a closed run and one without headroom are left untouched; any other is exactly where its move leads, with the timers that go with it; no other run is touched |
| Lifecycle.Operator.Settle | flowers/engine/operator.py:454-554 | wherever a drive ends up, the run is there with a fresh question, a timer or a reaper as the move says, and no run is left escalated without an answer or a live reaper |
| Lifecycle.Operator.Sort | flowers/controlplane.py:213-230 | re-checks and reapers apart, and one driving timer a run, a deadline before an interim check |
| Lifecycle.Operator.Tick | flowers/controlplane.py:205-256 | each run with a due driving timer is resumed once and, unless it stays or a re-check escalates it, is where its move leads; no run stays escalated on an unanswered question whose reaper was due; a run that nothing due drives or re-checks is closed exactly when a reaper of its own unanswered question is due, else unchanged with its later timers |
| Lifecycle.Operator.Claim | flowers/controlplane.py:213-230 | what is due leaves the table marked fired and sorted into the tick's queues, and a claimed reaper still attends its escalation |
| Lifecycle.Operator.Serve | flowers/engine/operator.py:1965-1987 | over any sequence of ticks and answers that leaves an escalated run alone: it is closed exactly when some tick reaches a reaper of its question before the answer to it is recorded, and otherwise it stays exactly as it was |
| Lifecycle.ReapedByOneMore | flowers/engine/operator.py:1965-1987 | a question is reaped at the first tick to reach one of its reapers, or never by them |
| Waits.WatchIsBounded | flowers/engine/operator.py:1586-1623 | a watch takes fewer timer wakes than its poll budget times its confirmations, plus confirmations - 1 per outside wake |
| Waits.FiresOnConsecutiveMatches | flowers/engine/operator.py:1582-1605 | a watch fires exactly at the first run of consecutive matching reads of the configured length |
| Waits.ConfirmationsClamp | flowers/engine/operator.py:1586-1587 | as many matching reads confirm a watch as asked for, but one at least and ten at most |
| Waits.GivesUpIff | flowers/engine/operator.py:1606-1623 | a watch gives up exactly at a poll of its own that finds nothing and is the last of its budget or meets no headroom |
| Waits.RecurrenceIsBounded | flowers/engine/operator.py:1634-1655 | a recurring step beats once a wake and never beyond its cap |
| Waits.RecursUntil | flowers/engine/operator.py:1634-1655 | a recurring step is still going exactly while every wake came with headroom, below the caps and before the end |
| Waits.ConnectIsBounded | flowers/engine/operator.py:1034-1080 | a connect wait is over by its 240th wake, and is met exactly when the grant landed before any give-up |
| Waits.ChecksAreBounded | flowers/engine/operator.py:1464-1475 | fewer than window / check interim checks are served in a reply window |
| Waits.PunctualChecksFill | flowers/engine/operator.py:1464-1475 | served on time, the checks fill the window, one every interval |
| Waits.RoundsAreBounded | flowers/engine/operator.py:1528-1555 | at most twelve windows are reopened |
| Waits.ReopensIff | flowers/engine/operator.py:1528-1555 | another window is open exactly when each of at most twelve expiries found headroom and new steps |
| Waits.WaitingStep.OnMonitorWake | flowers/engine/operator.py:1582-1623 | a wake updates polls and streak as specified, arms at most one successor, and leaving cancels the run's timers |
| Waits.WaitingStep.OnRecurringWake | flowers/engine/operator.py:1626-1655 | a heartbeat counts itself and arms its successor, or ends the step |
| Waits.WaitingStep.OnConnectWake | flowers/engine/operator.py:1034-1080 | a probe is one step of the bounded wait, and arms its successor or cancels the run's timers |
| Waits.WaitingStep.OpenWindow | flowers/engine/operator.py:1458-1484 | one deadline is armed, and the first link of the bounded chain of interim checks when it fits |
| Waits.WaitingStep.OnReplyWake | flowers/engine/operator.py:1502-1566 | enough replies or the deadline close the window, the deadline taking one step of the bounded rounds; only an interim check arms the chain's next link |
| Executor.EachCallAnsweredOnce | flowers/engine/executor.py:239-349 | in a transcript fit to be sent, every tool call has exactly one tool message |
| Executor.Executor.Run | flowers/engine/executor.py:154-174 | every transcript sent to the model is fully answered; searches and executed calls stay within their caps; a park leaves exactly its own call open, a call of some turn that had to wait; the transcript is only ever added to; how the step ends follows from turns and budget |
| Executor.Executor.ResumeAt | flowers/engine/executor.py:176-208 | a resume answers the parked call behind the whole parked transcript and carries the counters on, to end or park as the turns say; parking again changes nothing |
| Executor.Executor.Loop | flowers/engine/executor.py:211-351 | the nested loops end as turns and budget say; the final prompt is well formed at the iteration cap, and leaves calls open exactly when a call beyond the tool-call cap comes before a finish, a park, a trip or a silent turn |
| Executor.Executor.RunTurn | flowers/engine/executor.py:241-349 | one turn's calls, run in order, end the loop or leave everything answered; a park is on the first call that must wait, every call up to it counted and every other of the turn answered |
| Executor.AnswerLater | flowers/engine/executor.py:323-325 | the placeholders answer every later call of the turn and leave the parked one open |
| Executor.PlainTurnOverrunsIff | flowers/engine/executor.py:242-249 | a turn of plain calls hits the tool-call cap exactly when it holds more calls than are left |
| Executor.TurnParksAt | flowers/engine/executor.py:320-347 | a turn that parks does so on its first call that must wait, with every call up to it counted |
| Executor.TurnParksAfterPlain | flowers/engine/executor.py:320-347 | and a call that must wait, after plain ones and within the cap, parks |
| Executor.LoopParksAt | flowers/engine/executor.py:211-347 | a loop that parks does so on a call that must wait, of a turn it reached |
| Executor.TurnStopsAt | flowers/engine/executor.py:242-275 | a turn stops the step at a finish or a failing search, and hits the cap at a call beyond it, with no park or finish before |
| Executor.LoopRunsOut | flowers/engine/executor.py:211-241 | a loop runs out of turns only if each calls something and none finishes or parks; a silent or failed turn ends it at once |
| Executor.FailingSearchesTripIff | flowers/engine/executor.py:262-275 | within the budgets every search is made, and a turn of failing ones stops the step exactly when they reach the threshold |
| Executor.SpentSearchesAreAnswered | flowers/engine/executor.py:263-265 | beyond the search budget a search is only answered |
| Executor.DefaultBudgetCanOverrun | flowers/engine/scheduler.py:13-20 | a concrete case: one turn of forty-one plain calls under the default budget hits it |
| Executor.ForcedFinishIsAnsweredIff | flowers/engine/executor.py:353-361 | the finish-only prompt is well formed exactly when no call is open |
| Executor.CircuitBreaker.Record | flowers/engine/scheduler.py:32-37 | the counters are the failures since the last success and the failures in all |
| Executor.CircuitBreaker.Tripped | flowers/engine/scheduler.py:42-43 | tripped exactly when the last threshold uses of the tool all failed |
| Launcher.NoWindowHoldsMore | deploy/launcher/launcher.py:132-140 | no half-open hour holds more allowed launches of an address than the limit |
| Launcher.Launcher.LaunchAllowed | deploy/launcher/launcher.py:132-140 | allowed exactly when fewer than the limit of the address's launches are under an hour old |
| Launcher.Launcher.Reserve | deploy/launcher/launcher.py:143-149 | a slot is taken exactly while stored, in-flight and abandoned funded sessions together are below the cap |
| Launcher.Launcher.GiveUp | deploy/launcher/launcher.py:246-292 | a creation that fails gives back exactly the slot it took |
| Launcher.Launcher.Abandon | deploy/launcher/launcher.py:246-258 | a creation whose request raises, or whose answer holds no usable machine, keeps its slot |
| Launcher.Launcher.Store | deploy/launcher/launcher.py:294-299 | a started session moves to the table with its slot |
| Launcher.Launcher.End | deploy/launcher/launcher.py:307-315 | deletion, expiry and reaping pop a session and release its slot once |
| Launcher.Launcher.Sweep | deploy/launcher/launcher.py:386-390 | the reaper's sweep keeps exactly the sessions whose machine is alive |
| Launcher.Launcher.LimitsHold | deploy/launcher/launcher.py:132-160 | at every await: stored plus in-flight funded sessions of an address within the cap, equal to its active count exactly when no creation of it was abandoned, and every hour within the launch limit |
| Memory.RoundTrip | flowers/memory.py:30-46 | reading back what was rendered from clean notes gives the same notes |
| Memory.CleaningCleans | flowers/memory.py:24-27 | cleaning leaves nothing, or one trimmed bounded line |
| Memory.CleaningKeepsTheWords | flowers/memory.py:24-27 | and keeps every word in order, as long as they fit a note |
| Memory.AppendNote | flowers/memory.py:49-61 | the append with its drop loop computes the specified memory |
| Memory.AppendKeepsOrder | flowers/memory.py:49-61 | an append changes nothing, or puts the new note last and drops the fewest oldest; no note twice, within the cap |
| Memory.MemoryStaysInOrder | flowers/memory.py:64-69 | from the empty memory any notes leave a text that reads back as distinct clean notes within the cap |

## Left out

- Refusal, verb tiers, payment-form and connect-error detection: fixed but arbitrary predicates, so every theorem holds for any of them; overrides are a map.
- Hashing and serialisation: an action's key is the action itself, and a digest is the parameters themselves.
- Strings are ASCII, and white space is blank, tab and line breaks; page addresses are taken in the normalised form the extraction yields, and harvested recipient values are arbitrary strings.
- Crashes between a backend call and the append of its record, and exceptions that leave an executor loop: outside the run model's inputs; a restart between inputs is inside.
- Waits, plan steps and timers are not inputs of the run model: a waiting run is a running one there, and their own guarantees are proved in drive, timers, lifecycle and waits.
- Action ids are distinct numbers in order of creation; approval ids likewise.
- The public suffix list is a parameter: what is proved holds for every list of two- and three-label suffixes.
- Spending, budgets and deadlines: whether headroom is left is an input at each check.
- Independent constraint verification, objective checks, staleness and reliability signatures: inputs to the gate's verdict (the critic's veto is part of `objectiveMet`).
- LedgerRuns.AcceptedStepsAreProven: says less for records of one label than the gate's comment suggests, because the gate forgives by label; the exact condition is OwnerReplies.LabelGateMissesIff.
- LedgerRuns.NoDoubleSend: names the budget exit among the ways an action is reopened, because the code drops the records there; the exact condition is LedgerRuns.SendIsRecognisedIff.
- DriveModel.Driver.Drive: bounds the runs only for ladders that start at or above zero, because model-written parameters may hold any rung.
- The launcher's global session limit, checked before the first await, is not modelled.
- Memory: a line-break pair is read as two breaks; the empty line between holds no note.
- Parsing of mandates, goals and fast-path texts, card rendering, prompts, announcements, event streams, tracing, the sandbox, the clarifier, chat and routing: presentation or model calls.
- Vendor adapters, storage engines, the command line and the dashboard: foreign calls without an invariant of their own.
- Store operations besides the effect table, and the shell-run and rewrite detectors of the gate: they would add only easy members.
