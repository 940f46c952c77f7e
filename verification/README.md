# Verified model of the decision hub and the commercial CRM

A Dafny 4.11 model of the parts of the repository that keep promises across calls: the saga that links an insight to a
decision, the engine and router that complete commercial records by questions, the writers of the commercial tables, and
the smaller algorithms beside them. `dafny verify dfyconfig.toml` checks all of it. Paths below are relative to the
root of the modelled repository.

## What is modelled

- **Insight link saga** (`InsightContent`, `InsightTables`, `InsightSaga*`, `DecisionStore`, `InsightRace`,
  `InsightAlone`, `DecisionRace`). The four steps Inbox, Decision, Event, Link as they run against a
  store whose reads may fail and whose adds may be created, refused, or unknown with or without the record written.
  `DecisionStore` is the step-by-step method; `InsightSaga` is the specification it meets; the other saga modules prove
  what all runs keep, `InsightSagaTexts` what the records say. `InsightRace` lets any number of processes interleave at
  single store calls, since the lock is local to a process, and lets lost requests arrive late, and `DecisionRace` does
  so for the decision step; `InsightAlone` ties the race to the saga.
- **Completion engine** (`Vocabulary`, `CompletionEngine`, `CompletionAnswers`, `AnswerRules`,
  `CompletionPayload`, `CommercialContracts`, `ContractLaws`). Contracts, resolution from five sources, the missing fields, validation and
  coercion, and the question loop; then the seven contracts the router supports.
- **Translation to the writers** (`CommercialChecks`, `CommercialTranslation`, `ChargeAnswers`, `PaymentAnswers`,
  `TermAnswers`, `WriterArguments`, `ChargeLosses`, `TermLosses`, `CompletedEntities`). What a completed payload becomes
  as arguments, whether the writer takes it, and what it never sees.
- **Sessions, router, slot** (`CompletionSession`, `CompletionRouter`, `RouterMethods`, `RouterLaws`, `RouterSafety`,
  `RouterReplies`, `CompletionSlot`, `ParkedParent`). Stacks of nested completions, the router's answers, what each reply
  does, approvals that come back, the one slot a conversation is kept in, and what becomes of a parent parked under its
  child.
- **Commercial store** (`CommercialTables`, `CommercialAgreement`, `CommercialRuns`, `CommercialRows`, `CommercialStore`,
  `TermPricing`, `MaterialisedCharges`, `ChargeReference`, `PaymentMath`, `DateAnswers`, `OrganizationDedup`). The writers
  as one multi-table store, what each leaves column by column, and the agreement between its tables over every run.
- **Algorithms** (`ConflictScan`, `ConflictPairs`, `Supersession`, `ContactMerge`, `OwnerLists`, `VCardFolding`, `ContactDedup`).

State-changing code is modelled by classes whose methods are proved equal to a specification function; the laws are
proved of the function, and those that say which value, word or record a step leaves write it out. `StoreOutcomes` says how a store call may end.

## Where the code departs from what it says

Each of these is a lemma in the table. Where the code meets a promise on some inputs only, one lemma says exactly on which,
and another gives an input on which it does not.

- The translation to writer arguments is described as lossless (commercial_completion_routing.py:228-233). A Charge
  loses its reference, which is looked for under a column of another table, and nothing else; a Payment loses nothing; a
  Payment Term loses thirteen columns and keeps the sixteen others whole.
- The engine completes a Payment Term of six calculation types; its writer takes two.
- The engine accepts record ids of any length; the writers accept seventeen characters.
- A record id that is malformed when an approval comes back raises out of the resumption instead of cleaning it up.
- A message that arrives while a nested create waits for approval gives the parked session up (app.py:6251-6254 clears
  the slot on a blocked restore). `ParkedParent` says of every event what becomes of the parent.
- A partial update of a Term is checked against the calculation type it gives, but a code column filled elsewhere goes
  on overruling that type.
- A partial run for a new decision cannot always be resumed. Once the decision is written and the oldest Inbox record
  does not get to know it, every later run for a new decision is refused: because its id did not come back, because the
  suggestion was not written (a failed one is logged and passed over) and no link followed, or because the record held
  was not the oldest.
- Superseding names only the last superseded event, and does not look whether the store took a demotion; the pressure
  down-grade is unreachable through the pipeline. A failed verification counts only against sources of 65 and more.
- The kept name of a merged contact is not always the longest when the first name is padded; both readers strip names
  (contact_merge.py:66-105), so their contacts never are. Phone normalising is not idempotent in general.
- The title of a new decision is looked for but not held: processes that look before either creates open two decisions
  of one title.
- A lost add is made again when the read that would have shown it fails, so two Inbox records can be written.
- A materialised Charge is recognised by the text of its reference, which a Charge written directly may repeat.
- An insight id with a trailing newline passes the id pattern and composes content no search finds.

## Assumptions

- The store performs one add or update at once or not at all, and reads see every write that has landed. A new record
  has an id no record of its table has, and in the saga and race a creation time later than every record's;
  `InsightRace.HoldersAgreeExactly` says what holds when creation times may be any.
- A search of the saga returns all matching records; the race module states its result within the read limit of ten.
- At most one serialised run of the saga, and one commercial writer, is active in a process at a time, as their locks
  ensure; the race module drops this for the saga.
- The nonces minted in one slot are all different. A completion is begun with values that carry none of the router's
  marks.

## Model

| member | source | states |
|---|---|---|
| `InsightContent.ComposedContentIsMarkedExactly` | decision_insight_source.py:175-184 | content composed for an insight ends in its marker and in no other insight's, whatever free text stands above, exactly when the id is a record id; an id with a trailing newline, which the id pattern lets through, composes content no search recognises |
| `InsightContent.NewlineIdIsLost` | decision_insight_source.py:175-184 | an id with a final newline that is let through and whose content no search finds |
| `InsightContent.ComposedContentIsFound` | cmd_decision.py:1041-1044 | what the saga composes, its own searches recognise |
| `InsightContent.MarkerInjective` | decision_insight_source.py:64-67 | different ids have different markers |
| `InsightTables.FoundInboxes` | cmd_decision.py:1123-1131 | the Inbox search returns exactly the records whose last line is the insight's marker |
| `InsightTables.FoundEvents` | cmd_decision.py:1134-1146 | the Event search returns exactly the records of the insight that belong to the decision |
| `InsightTables.OldestInboxIsOldest` | decision_insight_source.py:192-197 | the canonical record is one of the duplicates and none is older, by creation time and then id |
| `InsightTables.OldestEventIsOldest` | decision_insight_source.py:192-197 | the same for Events |
| `InsightTables.UpdateKeepsSearch` | cmd_decision.py:1524-1530 | an update of an Inbox record changes no search, only the record in it |
| `DecisionStores.DecisionStore.AddInboxRecord` | cmd_decision.py:1370-1378 | an add writes the record or not as its outcome says, and reports what the caller can know |
| `DecisionStores.DecisionStore.AddDecisionRecord` | cmd_decision.py:561-577 | a decision is added with status open; an id comes back only when the add says so |
| `DecisionStores.DecisionStore.AddEventRecord` | cmd_decision.py:1370-1378 | the same for Events |
| `DecisionStores.DecisionStore.UpdateInboxRecord` | cmd_decision.py:1530-1531 | an update reaches the store or not, and is reported or not |
| `DecisionStores.DecisionStore.InboxStep` | cmd_decision.py:1398-1440 | the Inbox step: reuse, or add with one re-check after an unknown outcome, then converge on the oldest record |
| `DecisionStores.DecisionStore.DecisionStep` | cmd_decision.py:1442-1482 | the decision step: refuse another target, reuse the suggested one, refuse an open decision of that title, or create and record the suggestion |
| `DecisionStores.DecisionStore.EventStep` | cmd_decision.py:1484-1522 | the Event step, alike |
| `DecisionStores.DecisionStore.LinkStep` | cmd_decision.py:1524-1539 | the link is written and confirmed by reading the record back |
| `DecisionStores.DecisionStore.StopReport` | cmd_decision.py:1390-1394 | the report of a stop: one failure, then every later step skipped |
| `DecisionStores.DecisionStore.ExecuteInsightLink` | cmd_decision.py:1381-1541 | a whole run leaves exactly the store and the report of the specification, early stops included |
| `InsightSagaRuns.ReportsFourStepsInOrder` | cmd_decision.py:1016-1026 | every report has the four steps in order: a prefix that passed, one failure unless all passed, the rest skipped; it names a record for each of the first three steps that passed and for no other |
| `InsightSagaRuns.StepsAreNamed` | cmd_decision.py:1016-1026 | the four by name; a report is complete exactly when each was done or reused, and otherwise one failed |
| `InsightSagaRuns.CompleteMeansLinked` | cmd_decision.py:1024-1026 | complete means: the stored Inbox record carries the marker, is Linked and names decision and Event; the Event stands in the store, is the insight's and belongs to that decision; a new decision stands in the store |
| `InsightSagaTexts.DecisionOpenedExactly` | cmd_decision.py:1450-1473 | a run opens a decision exactly when it was asked for a new one, passed its Inbox step, finds none suggested before, can read that no open decision has the title, and the store takes it; the one opened is open and has the first 120 characters of the insight's title |
| `InsightSagaTexts.OpenDecisionRefuses` | cmd_decision.py:1458-1471 | with an open decision of that title standing and none suggested, a run for a new decision writes no decision and no Event and does not complete |
| `InsightSagaTexts.RecordsTellTheInsight` | decision_insight_source.py:175-184 | whatever the store does, the records a run adds read, line by line, title, description, next action, source note and marker; its Events belong to the decision reported; Inbox records that stood there keep their text, and change status only together with their links |
| `InsightSagaLaws.InboxStepWrites` | cmd_decision.py:1398-1440 | the exact number of Inbox records one run writes, and that the step holds a record of its insight |
| `InsightSagaLaws.EventStepWrites` | cmd_decision.py:1484-1522 | the same for the Event step |
| `InsightSagaRuns.OneRunWrites` | cmd_decision.py:1381-1541 | what one run may add to each table, whatever the store does |
| `InsightSagaRuns.TwoInboxesExactly` | cmd_decision.py:1417-1426 | a run writes two Inbox records exactly when none was there, the first add was written but lost, the re-check failed, and the second add was written too |
| `InsightSagaRuns.TwoInboxesCanBeWritten` | cmd_decision.py:1417-1426 | a run on an empty store that does write two |
| `InsightSagaRuns.RunsWriteOnce` | cmd_decision.py:1381-1541 | over any serialised runs with any outcomes, and the re-checks reading: at most one Inbox record per insight, one Event per decision, one new decision in all |
| `InsightSagaReruns.RefusedUnwritten` | cmd_decision.py:1405-1448 | a rejected insight, and an existing target other than the one recorded before, are refused with nothing written |
| `InsightSagaReruns.RerunsAddNoRecord` | cmd_decision.py:1398-1541 | after a complete report, any number of reruns towards the linked decision add no record to any table, for every store behaviour in all the runs and however many duplicates there are |
| `InsightSagaHolds.InboxStepLeaves` | cmd_decision.py:1398-1440 | which record the search finds after the Inbox step, and exactly when it is the one held: unless a first add was written but lost and both the re-check and the converging read failed |
| `InsightSagaHolds.EventStepLeaves` | cmd_decision.py:1484-1522 | the same for the Event step |
| `InsightSagaReruns.RerunChangesNothing` | cmd_decision.py:1398-1541 | after a complete run that held the oldest records, and whose link was written when it was reported, rerunning changes nothing in the store, for every target and every store behaviour, and a rerun that completes names the same records |
| `InsightSagaReruns.LinkedStaysLinked` | cmd_decision.py:1398-1541 | the same from any state in which the records the searches find are linked to each other |
| `InsightSagaProgress.FairRunCompletesExactly` | cmd_decision.py:1442-1482 | on a well-behaved store a run completes exactly when the insight is not rejected, an existing target does not contradict the suggestion, and for a new one no open decision has the title or the suggested one still stands |
| `InsightSagaProgress.PartialRunsCanBeFinished` | cmd_decision.py:1381-1383 | no run towards an existing decision, however it ends, closes the way to it: an all-success run afterwards completes |
| `InsightSagaOrphans.OrphanedExactly` | cmd_decision.py:1470-1482 | a run for a new decision leaves an open decision the Inbox record found next does not suggest exactly when it wrote the decision and the oldest record was told neither by the suggestion nor by the link |
| `InsightSagaOrphans.NewDecisionCanBeFinishedExactly` | cmd_decision.py:1442-1482 | a partial run for a new decision that could have completed can be finished by an all-success rerun exactly when it did not lose the decision so |
| `InsightSagaOrphans.LostIdIsFinal` | cmd_decision.py:1470-1473 | on an empty store, a run whose only fault is that the decision's id does not come back: no rerun for a new decision completes |
| `InsightSagaOrphans.LostSuggestionIsFinal` | cmd_decision.py:1477-1482 | the same when the suggestion is not written and the run stops before the link |
| `InsightSagaOrphans.BlindHoldIsFinal` | cmd_decision.py:1417-1440 | the same when the record held is the second of two |
| `InsightSagaOrphans.OrphanedNeverCompletes` | cmd_decision.py:1455-1469 | from an orphaned insight no number of runs for a new decision ever completes, however the store behaves; a run towards an existing one completes unless the insight was rejected |
| `InsightSagaProgress.OtherInsightsUntouched` | cmd_decision.py:1381-1541 | a run leaves every other insight's Inbox records and Events exactly as they were |
| `InsightRace.HoldersAgree` | cmd_decision.py:1430-1438 | any number of processes interleaved store call by store call, adds ending in any way, lost requests arriving late: every process that passed a step with a read to rely on holds the oldest record of the step's key, so any two agree, within the read limit; one whose last read failed holds a record of the key |
| `InsightRace.RunKeepsRight` | cmd_decision.py:1398-1522 | the invariant of all such interleavings |
| `InsightRace.HoldersAgreeExactly` | decision_insight_source.py:192-197 | with creation times that may be any, in every interleaving: two processes with reads to rely on agree exactly when every record of the key that came between their reads is created later, or at the same time with a larger id |
| `InsightRace.RaceAgreesExactly` | decision_insight_source.py:192-197 | a race of two in which equal creation times, or a clock that ran back, part them |
| `InsightRace.FewExactly` | cmd_decision.py:1123-1146 | the read limit of these results: at most ten records of the key's insight and kind |
| `InsightAlone.StepIsARun` | cmd_decision.py:1398-1440 | left alone, a process of the race does what the Inbox step of the saga does: for every store behaviour a lawful run of it writes the same rows and ends with the same record held, or stopped |
| `DecisionRace.RunOpensOnceExactly` | cmd_decision.py:1455-1473 | any number of processes interleaved at the look for a title and the create, creates landing late: there is at most one open decision of a title exactly when no create of it was overtaken between look and landing and no command opened it unlooked |
| `DecisionRace.StepOpensOnceExactly` | cmd_decision.py:1455-1473 | the same of one store call |
| `DecisionRace.BothCreateOpensTwo` | cmd_decision.py:1455-1473 | two processes that both looked before either created open two |
| `CompletionEngine.ResolvedValues` | commercial_completion.py:687-710 | each field takes the first source that has a value, in contract order |
| `CompletionEngine.MissingFields` | commercial_completion.py:725-757 | the missing fields are exactly the required ones without a value, pending follow-ups, and the first field of each empty one-of group, in contract order |
| `CompletionEngine.AskedFields` | commercial_completion.py:731-735 | the required fields without a value |
| `CompletionEngine.FollowUps` | commercial_completion.py:737-745 | the follow-ups a chosen word asks for |
| `CompletionEngine.Representatives` | commercial_completion.py:747-752 | the first field of each one-of group without a value |
| `AnswerRules.MissingExactly` | commercial_completion.py:725-757 | a field is missing exactly when its own rule asks for it and it is empty, or a word chosen elsewhere does, or it leads a group none of which is there |
| `AnswerRules.InheritsFirst` | commercial_completion.py:687-710 | a field inherits from the first of its keys the context has a value for; the identity goes before the source |
| `AnswerRules.StatusFollows` | commercial_completion.py:630-636 | a document status follows from the requirement, word by word |
| `AnswerRules.AcceptedExactly` | commercial_completion.py:550-588 | an answer is accepted exactly when a user may give one and it suits the question: offered word, id form, number within bounds, real date, text with something in it, seven digits |
| `CompletionAnswers.KeptSaysTheSame` | commercial_completion.py:591-627 | what is kept of an accepted answer is the number, the text, or the full-date of the day that was answered |
| `CompletionAnswers.AskableResolves` | commercial_completion.py:687-710 | a field that can be asked for resolves to its own, an inherited or its default value, whatever else is derived |
| `CompletionAnswers.NextAnswerClosesOne` | commercial_completion.py:759-768 | an accepted answer to the next field closes exactly one open field whatever it makes required, was not present before, leaves the field with the number, text or day answered, and changes no other field |
| `CompletionAnswers.LoopTerminates` | commercial_completion.py:759-771 | no run of accepted answers is longer than the fields open at its start; none asks for or overwrites a present value; one that used them up is complete |
| `CompletionAnswers.CompletionIsReachable` | commercial_completion.py:759-771 | from any values some run of accepted answers completes, within that many answers |
| `CompletionAnswers.AnswerExists` | commercial_completion.py:550-588 | every field that can be asked for has an acceptable answer |
| `CompletionAnswers.KeptIsPresent` | commercial_completion.py:591-627 | the kept form of an accepted answer counts as present |
| `ContractLaws.EveryContractWellFormed` | commercial_completion.py:251-447 | every supported contract meets what these laws ask: distinct names, one-of groups led by a field that can be asked for, derived fields never asked |
| `CompletionPayload.PayloadAt` | commercial_completion.py:773-784 | a payload column holds what its field resolved to, or is absent when that is |
| `CompletionPayload.AnswersKeepFromAnswers` | commercial_completion.py:763-768 | answers in any order leave only kept forms of accepted values |
| `CompletionPayload.ColumnFromAnswers` | commercial_completion.py:773-784 | what a completed entity's column can hold |
| `CompletionPayload.DerivedStatus` | commercial_completion.py:630-636 | a document status is derived from the requirement resolved before it |
| `CommercialTranslation.DocumentColumnsAgree` | commercial_completion.py:630-636 | the derived document pair passes the writers' check |
| `ChargeAnswers.AnsweredChargeAccepted` | commercial_completion_routing.py:311-330 | a Charge completed by answers translates with no key missing and passes every record-independent check of its writer, exactly when its ids have seventeen characters |
| `ChargeAnswers.OtherIdsAreRefused` | commercial_completion.py:104-104 | for every id the engine's pattern admits that has not seventeen characters, an answered Charge of that Deal that its writer refuses |
| `ChargeAnswers.ShortIdIsRefused` | commercial_crm.py:63-63 | one of them: the id rec0 |
| `ChargeLosses.ReferenceIsDropped` | commercial_completion_routing.py:320-329 | the Charge reference never reaches the writer |
| `ChargeLosses.TranslationLosesOnlyTheReference` | commercial_completion_routing.py:228-233 | two answered Charges reach the writer with the same arguments exactly when their payloads agree on every column but the reference |
| `ChargeLosses.ReferencesCanDiffer` | commercial_completion_routing.py:320-329 | any two references stand in two answered Charges that reach the writer alike |
| `PaymentAnswers.AnsweredPaymentAccepted` | commercial_completion_routing.py:362-384 | the same for a Payment, exactly when its ids have seventeen characters |
| `PaymentAnswers.TranslationLosesNothing` | commercial_completion_routing.py:362-384 | an answered Payment reaches its writer whole |
| `TermAnswers.AnsweredTermAccepted` | commercial_completion_routing.py:284-310 | an answered Payment Term always translates; its writer accepts it exactly when its calculation type is fixed or percentage |
| `TermAnswers.OtherTypesAreRefused` | commercial_completion_routing.py:284-310 | for each of the four other calculation types, an answered Term that translates and is refused |
| `TermAnswers.TieredIsRefused` | commercial_crm.py:1271-1345 | one of them: tiered |
| `CompletedEntities.AnsweredEntityTranslates` | commercial_completion_routing.py:228-384 | every entity completed by answers, a Charge from a Term up to the type read off the Term, translates: no column is missing and every link is one id |
| `CompletedEntities.CompleteHasItsKeys` | commercial_completion_routing.py:236-360 | a complete Deal, Contact, Organization or Charge from a Term has the columns its translation reads, wherever its values came from |
| `CompletedEntities.AnsweredEntityIsQueued` | commercial_completion_routing.py:806-833 | so the router hands it to the queue exactly when the queue does not fail |
| `WriterArguments.ChargeArguments` | commercial_completion_routing.py:311-330 | each argument of the Charge writer is what the field of its name resolved to, wherever that came from |
| `WriterArguments.PaymentArguments` | commercial_completion_routing.py:362-384 | the same for a Payment |
| `WriterArguments.TermArguments` | commercial_completion_routing.py:284-310 | the same for a Payment Term, with the writer's standing words where a field has nothing |
| `TermLosses.ArrivesExactly` | commercial_completion_routing.py:284-309 | two answered Terms reach the writer with the same arguments exactly when they agree on the sixteen columns given to it: those arrive whole and nothing else does |
| `TermLosses.LostAnswerIsLost` | commercial_completion_routing.py:298-309 | an answer to one of the thirteen other fields changes its column of the payload and nothing the writer sees |
| `TermLosses.EveryLostColumnCanDiffer` | commercial_completion_routing.py:298-309 | for each of the thirteen and any two accepted answers, two completed Terms that hold them and reach the writer alike |
| `CompletionPayload.AnswerChangesItsColumn` | commercial_completion.py:763-784 | an accepted answer changes its own column of the payload, to the number, text or day answered, and no other, where nothing is derived |
| `CompletionPayload.AnsweredExists` | commercial_completion.py:763-771 | every supported contract can be completed with every question answered |
| `ChargeAnswers.GoodChargePasses` | commercial_crm.py:725-769 | the writer's checks on a Charge's values, in their order, hold of such a payload |
| `CompletionSession.AbandonUndoesBegin` | commercial_completion.py:948-964 | abandoning a child restores the parent exactly, for stacks of any depth and any answers in between |
| `CompletionSession.ResumeSetsOneField` | commercial_completion.py:935-946 | resuming sets the link field the child was begun for and nothing else, and needs a complete child and a record id |
| `CompletionSession.StoredSessionsComeBackExactly` | commercial_completion_routing.py:131-158 | a session survives storing exactly when its contracts are the standing ones |
| `CompletionSession.ReferencesRoundTripExactly` | commercial_completion.py:857-893 | a continuation pointer is read back as itself exactly when canonical with nothing empty |
| `CompletionSession.AnswersStayOnTop` | commercial_completion.py:910-913 | answers change only the top frame |
| `RouterMethods.DeserializeSession` | commercial_completion_routing.py:145-158 | stored frames are rebuilt in order; an empty state is refused |
| `RouterMethods.Router.InspectSession` | commercial_completion_routing.py:763-833 | inspection asks, queues once, or blocks, marking a complete child with a fresh nonce |
| `RouterMethods.Router.AnswerSessionField` | commercial_completion_routing.py:482-491 | an answer is applied and inspected, or blocks with the session unchanged |
| `RouterMethods.Router.AnswerHumanText` | commercial_completion_routing.py:493-557 | an answer in people's words, through record ids, choices and offers |
| `RouterMethods.Router.AnswerOfferText` | commercial_completion_routing.py:558-663 | a yes or no to an offer to create a Contact or Organization |
| `RouterMethods.Router.AnswerKindText` | commercial_completion_routing.py:664-761 | the kind of counterparty, the lookup of a name, and what it leads to |
| `RouterLaws.CounterpartyIsAskedOfDeals` | commercial_completion.py:324-324 | of all entities only a Deal is asked for a counterparty, and only while it has neither kind |
| `RouterSafety.AnswersKeepSound` | commercial_completion_routing.py:493-761 | every answer keeps the session one entity, or a Deal lacking its counterparty with one Contact or Organization under completion; a parent is never changed while its child is; nothing is raised |
| `RouterSafety.ChildAnswersGoStraight` | commercial_completion_routing.py:517-761 | while a child is completed none of the routes that rebuild a one-frame session is taken |
| `RouterSafety.InspectKeepsSound` | commercial_completion_routing.py:763-803 | inspection keeps that too |
| `RouterSafety.MarksAreNoFields` | commercial_completion_routing.py:525-575 | no contract field is one of the router's own marks |
| `RouterReplies.YesBegins` | commercial_completion_routing.py:558-593 | to an offer to create a counterparty the replies כן, yes, y, אישור and מאשר begin the Organization or Contact offered, under the name looked for, over the Deal without the offer |
| `RouterReplies.NoDrops` | commercial_completion_routing.py:594-599 | the replies לא, no, n, ביטול and בטל drop the offer and ask again |
| `RouterReplies.NeitherAsksAgain` | commercial_completion_routing.py:600-609 | any other reply that is no record id leaves the session as it was |
| `RouterReplies.IdIsPut` | commercial_completion_routing.py:511-517 | a record id in reply to a question for a record is put into that field |
| `RouterReplies.TokenPicks` | commercial_completion_routing.py:525-545 | the token of a record that was shown puts that record into the field, for an Organization the one of its own, and the choice is used up |
| `RouterReplies.OtherReplyDropsTheChoice` | commercial_completion_routing.py:522-549 | any other reply uses it up too and is read as if nothing had been shown |
| `RouterReplies.KindIsNoted` | commercial_completion_routing.py:610-643 | the words for an organization or a person are noted as the counterparty's kind, in capitals or not |
| `RouterReplies.NameIsResolved` | commercial_completion_routing.py:644-761 | a name: one record is put into its field, several are shown to choose from, none leads to an offer to create a counterparty of the kind said, or blocks |
| `RouterReplies.TermIsRead` | commercial_completion_routing.py:178-226 | a Charge from a Term takes over its Term's calculation type, and is blocked exactly when the Term is no record id, cannot be read, or is of other Deals |
| `RouterReplies.QueuedCallNames` | commercial_completion_routing.py:776-833 | the queued call names the entity and its payload, and for a child the return field and the nonce its session is marked with |
| `CompletionSlot.ApprovalExactly` | commercial_completion_routing.py:432-480 | what an approval does, exactly: mismatch unless entity, field and nonce are the parked child's; clean-up without an id or with an incomplete child; fold with a well-formed id; a malformed id raises and leaves it parked |
| `CompletionSlot.FoldSetsOneAbsentField` | commercial_completion.py:935-946 | a fold sets one link field of the parent, absent before, to the approved id, and changes nothing else |
| `CompletionSlot.RejectionRestoresTheParent` | commercial_completion.py:948-964 | a rejection gives the parent back as it was |
| `CompletionSlot.EachNonceFoldsAtMostOnce` | commercial_completion_routing.py:776-798 | in every run of the slot, with approvals late, repeated or for an older nonce, cancellations, and completions begun at any time, the session is sound and no nonce is folded twice |
| `CompletionSlot.BeginKeepsValid` | commercial_completion_routing.py:395-402 | beginning a completion keeps the slot valid, whatever it held |
| `ParkedParent.ParentFateExactly` | commercial_completion_routing.py:404-491 | under every event a parked parent stays as it was exactly unless the event ends the parking, and then exactly this is left: after a clean-up the parent alone, after a fold the parent with its link while it has a question and an empty slot when not, after a message that finds nothing to ask or a cancellation an empty slot |
| `ParkedParent.RootFateExactly` | commercial_completion_routing.py:395-491 | and of an entity with nothing under it: it stays as the router left it, is gone once queued, and no approval is for it |
| `ParkedParent.FoldedExactly` | commercial_completion_routing.py:432-480 | a nonce counts as folded exactly when its approval, with a well-formed id, came to the complete child parked under it |
| `ParkedParent.ParentWaitsThroughRun` | commercial_completion_routing.py:493-761 | through any run none of whose events ends the parking the parent waits unchanged under its child |
| `ParkedParent.MessageDropsParkedParent` | commercial_completion_routing.py:404-423 | a message empties the slot exactly when the parked child has no question left; the approval under way then finds nothing to resume |
| `ParkedParent.MessageEmptiesASlot` | commercial_completion_routing.py:404-423 | a valid slot with a Deal that waits for a named Organization: one message empties it |
| `ParkedParent.MalformedIdLeavesParked` | commercial_completion_routing.py:469-480 | an approval of a complete child with an id of the wrong form raises, and the child stays parked |
| `ParkedParent.MalformedIdRaises` | commercial_completion_routing.py:469-480 | so does the approval of that Organization with such an id |
| `CommercialStores.CommercialStore.LinkLeadToDeal` | commercial_crm.py:519-617 | append a Lead once, domains agreeing, success only after reading back; store and reply are exactly the specification's |
| `CommercialStores.CommercialStore.CreatePaymentTerm` | commercial_crm.py:1244-1351 | create a Term with what its calculation type needs; store and reply are exactly the specification's |
| `CommercialStores.CommercialStore.UpdatePaymentTerm` | commercial_crm.py:1648-1747 | a partial update checked against the record as it would be; store and reply are exactly the specification's |
| `CommercialStores.CommercialStore.CreateDirectCharge` | commercial_crm.py:679-805 | create a Charge whose Term belongs to its Deal; store and reply are exactly the specification's |
| `CommercialStores.CommercialStore.CreateChargeFromTerm` | commercial_crm.py:808-935 | materialise a Charge from its Term, once per reference; store and reply are exactly the specification's |
| `CommercialStores.CommercialStore.CreateChargePayment` | commercial_crm.py:998-1096 | create a Payment that agrees with its Charge; store and reply are exactly the specification's |
| `CommercialStores.CommercialStore.UpdatePaymentRecord` | commercial_crm.py:1781-1872 | change what is not financial, keeping the document pair; store and reply are exactly the specification's |
| `CommercialRows.DirectChargeExactly` | commercial_crm.py:711-805 | a Charge given directly is written column by column as given exactly when its records are there and its values good |
| `CommercialRows.ChargeValuesExactly` | commercial_crm.py:725-770 | which values those are |
| `CommercialRows.ChargePaymentExactly` | commercial_crm.py:1017-1096 | a Payment of a Charge, alike: it is of the Charge's only Deal, its direction and its currency, and its counterparties are there |
| `CommercialRows.PaymentUpdateExactly` | commercial_crm.py:1781-1872 | an update of a Payment changes what it gives and no financial column, and is written exactly when the document pair as it would be is good and its counterparties are there |
| `CommercialRows.NewTermExactly` | commercial_crm.py:1271-1351 | a Term is written column by column as given, its rate as a fraction, exactly when it has what its calculation type needs |
| `CommercialRows.TermUpdateExactly` | commercial_crm.py:1663-1747 | an update of a Term changes what it gives and no more, and is written exactly when the Term as it would be has what its type needs and the dates are dates |
| `CommercialRows.LeadLinkedExactly` | commercial_crm.py:561-617 | a Lead is linked last, once, and only to a Deal of its domain; success is reported exactly when the link was read back |
| `CommercialRows.MaterialisedExactly` | commercial_crm.py:823-913 | a Term is materialised exactly when its records are there and agree, its type is billed and has its basis, its columns give a good Charge, none of the occurrence was found, and the store took it |
| `CommercialRuns.RunKeepsAgreement` | commercial_crm.py:519-1872 | over every run of the writers: Payments agree with their Charges in deal, direction and currency; Charges' Terms belong to their Deals; requirement is none iff status is not_required; every Term, save those whose code columns, filled elsewhere, overrule it in the two ways that can spoil it, has what its type needs even after partial updates; linked Leads have no duplicates |
| `MaterialisedCharges.RunMaterialisesOnceExactly` | commercial_crm.py:886-897 | over every run no two Charges carry the text of one materialisation exactly when no Charge written directly was given such a text already carried |
| `MaterialisedCharges.StepKeepsOnceExactly` | commercial_crm.py:886-913 | the same of one call: the materialising writer never makes two, whatever its outcome |
| `MaterialisedCharges.OneChargePerKey` | commercial_crm.py:863-869 | two Charges that carry the texts of two materialisations are one Charge exactly when Deal, Term, Lead and occurrence are the same |
| `MaterialisedCharges.TakenTextCanBeRepeated` | commercial_crm.py:787-787 | wherever a materialised Charge stands, a direct writer can write a second with its text |
| `CommercialRuns.RunExtends` | commercial_crm.py:1750-1779 | over every run nothing is removed, Charges and a Payment's financial fields never change, a Term keeps its Deal, linked Leads only grow |
| `CommercialRuns.MaterialisedChargeIsTheTerms` | commercial_crm.py:886-935 | a materialised Charge has its Term's deal, direction and currency, and in its columns the base, VAT and total that the Term's own columns ask for, to the nearest cent, the total positive; its reference is that of the Term's occurrence; success is reported exactly when its id came back and it could be read back |
| `TermPricing.TermPricedExactly` | commercial_crm.py:844-861 | a Term comes to given figures exactly when they are the nearest cents of its amount, or of its stored part of the basis, without VAT, with 18% added, or with 18% in it |
| `CommercialRuns.MaterialisingAgainWritesNothing` | commercial_crm.py:886-897 | materialising again writes nothing while the occurrence is the same, whatever happened in between and even if the first call never learned that it wrote |
| `CommercialRuns.UpdatesKeepTermsExactly` | commercial_crm.py:1680-1702 | a sound Term stays sound under every accepted update exactly when its code columns do not overrule the old ones in the two ways named |
| `CommercialRuns.UnprotectedTermCanBeSpoilt` | commercial_crm.py:1680-1702 | for every other Term, an accepted update that spoils it |
| `CommercialRuns.SomeTermIsSpoilt` | commercial_crm.py:1680-1702 | such a Term and such an update |
| `CommercialAgreement.PatchKeepsTerm` | commercial_crm.py:1680-1702 | an accepted update leaves a Term as protected as it was, and a sound protected one sound |
| `CommercialAgreement.CreatePaymentKeeps` | commercial_crm.py:1019-1033 | a new Payment keeps the agreement of the tables |
| `CommercialAgreement.ChargeFromTermKeeps` | commercial_crm.py:863-913 | a materialised Charge does |
| `CommercialAgreement.UpdatePaymentKeeps` | commercial_crm.py:1848-1859 | an updated Payment does |
| `CommercialAgreement.LinkLeadKeeps` | commercial_crm.py:582-593 | a linked Lead does |
| `ChargeReference.ReferenceNamesTheKey` | commercial_crm.py:863-869 | two references are the same text exactly when deal, term, lead and occurrence are the same |
| `ChargeReference.EscapesPrefixFree` | commercial_crm.py:869-869 | no JSON escape of a character begins another's |
| `PaymentMath.CentsNearest` | commercial_crm.py:210-215 | rounding to cents moves a figure by at most half a cent |
| `PaymentMath.CentsExactly` | commercial_crm.py:210-215 | rounding gives the nearest whole cent, the even one of two as near, and nothing else is that |
| `PaymentMath.FixedExactly` | commercial_crm.py:182-208 | a fixed payment comes to given figures exactly when they are the nearest cents of its amount, of no VAT, 18% of it or the 18% in it, and of the total |
| `PaymentMath.PercentageExactly` | commercial_crm.py:185-208 | a percentage payment, alike, for that many hundredths of its basis |
| `PaymentMath.OtherKindsAreRefused` | commercial_crm.py:190-195 | no other kind of payment is calculated |
| `PaymentMath.IncludedInvertsAdd` | commercial_crm.py:197-206 | INCLUDED on an ADD total recovers exactly the added VAT |
| `PaymentMath.AddReconcilesToACent` | commercial_crm.py:210-215 | after independent rounding calculated and VAT miss the total by at most a cent |
| `PaymentMath.AddCanMissByACent` | commercial_crm.py:210-215 | and can miss it by a whole cent |
| `PaymentMath.IncludedRecoversStoredVatToACent` | commercial_crm.py:197-206 | from the stored total INCLUDED recovers the stored VAT to a cent |
| `PaymentMath.VatWithinTotal` | commercial_crm.py:160-215 | for non-negative input VAT lies between zero and the total |
| `PaymentMath.TotalMonotoneInBasis` | commercial_crm.py:160-215 | the total does not fall when the basis rises |
| `PaymentMath.PercentBoundaryExact` | commercial_crm.py:231-247 | percent points written to the store and read back calculate the same payment |
| `DateAnswers.NormalizeExactly` | commercial_completion.py:515-537 | an answer is accepted exactly when it spells a real date, and then normalises to that date |
| `DateAnswers.WrittenFormsAgree` | commercial_completion.py:512-537 | the three written forms of a date normalise to the same full-date |
| `DateAnswers.AcceptedIsStrictAndStable` | commercial_crm.py:107-114 | every normalised answer passes the writer's strict check, and normalising again changes nothing |
| `DateAnswers.StrictIffFixedPoint` | commercial_crm.py:107-114 | the strict check accepts exactly the fixed points of normalising |
| `DateAnswers.CalendarExactly` | commercial_completion.py:515-537 | the real dates: twelve months of their own lengths, and the leap years |
| `ConflictScan.ConflictCache.DetectConflictsLazily` | decision_confidence.py:156-201 | the scan leaves exactly the cache and the results of the specification |
| `ConflictScan.ConflictCache.ScanGroup` | decision_confidence.py:176-200 | one topic's pairs, in order |
| `ConflictScan.ConflictCache.Consider` | decision_confidence.py:180-200 | one pair: cached, over budget, or compared |
| `ConflictScan.GroupByTopic` | decision_confidence.py:172-174 | events grouped by topic in order of first appearance |
| `ConflictPairs.PairsExactly` | decision_confidence.py:166-176 | two events are looked at exactly when they stand in the list in that order, neither is superseded, both are of trust T1 or more, and they have one topic |
| `ConflictPairs.PairsInScanOrder` | decision_confidence.py:172-179 | each two such places once: topic by topic as they first turn up, then by the first event, then by the second |
| `ConflictScan.PairsDistinct` | decision_confidence.py:91-93 | no two pairs of a scan share a key |
| `ConflictScan.RunRefinesEager` | decision_confidence.py:156-201 | a run makes at most five new comparisons and reports a sub-sequence of the eager result, all of it when nothing stays uncached |
| `ConflictScan.EagerReportsConflicts` | decision_confidence.py:180-200 | the eager result is the conflicts among the pairs |
| `ConflictScan.EagerAfterEnoughRuns` | decision_confidence.py:156-201 | on unchanged events with n unknown pairs, run ceil(n/5) and every later one report what the eager scan reports; pairs stay unknown exactly until then |
| `ConflictScan.EagerReportExactly` | decision_confidence.py:156-201 | run k reports what the eager scan reports exactly when every conflicting pair has been compared by then: when none that was unknown has 5k or more unknown pairs before it in scan order |
| `ConflictScan.ScanGoesInOrder` | decision_confidence.py:176-200 | a run compares a pair exactly when fewer unknown ones stand before it than it has comparisons left |
| `ConflictScan.NoPairComparedTwice` | decision_confidence.py:156-201 | over any runs on any events no pair is compared twice |
| `ConflictScan.ConfidenceNeverRises` | decision_confidence.py:204-240 | as the cache fills the confidence score does not rise |
| `ConflictScan.ConfidenceExactly` | decision_confidence.py:204-240 | the score is mean trust less 0.15 a conflict and 0.10 a missing kind of evidence, cut to [0, 1] |
| `Supersession.EventLog.IngestEvent` | decision_pipeline.py:344-365 | an arriving event passes the gates, demotes what it outranks and is stored with its status |
| `Supersession.EventLog.MaybeSupersede` | decision_pipeline.py:233-254 | every active event of the topic with lower trust is demoted where the store takes it; the last one is linked, taken or not |
| `Supersession.StatusExactly` | decision_pipeline.py:179-365 | the status and trust of an event by what arrives: logged, review, draft or active, T0 to T3 |
| `Supersession.ArrivalLeaves` | decision_pipeline.py:233-365 | an arrival changes the status of exactly the events it outranks whose demotion is taken, and stands last with its own columns |
| `Supersession.LinkExactly` | decision_pipeline.py:247-254 | its link is the last event it outranked, or none |
| `Supersession.ActiveListAfter` | decision_pipeline.py:233-254 | what an arrival does to a topic's active list: it cuts a suffix and appends itself |
| `Supersession.StepKeepsTrustOrder` | decision_pipeline.py:233-254 | an arrival keeps a topic's active events non-increasing in trust |
| `Supersession.RunKeepsTrustOrder` | decision_pipeline.py:275-365 | over any run the active events of a topic are non-increasing in trust by arrival, all at least T2 |
| `Supersession.RunKeepsMaxTrust` | decision_pipeline.py:275-365 | and the topic's maximum active trust never decreases |
| `Supersession.LostWriteKeepsMaxExactly` | cmd_decision.py:656-683 | when the new event's own write is lost, when the maximum survives, exactly |
| `Supersession.SkippedSupersessionKeepsOrderExactly` | decision_pipeline.py:235-237 | when the decision could not be read, when the order survives, exactly |
| `Supersession.RefusedDemotionKeepsOrderExactly` | decision_pipeline.py:253-253 | when the store did not take some demotions, trust order survives exactly when no event that was to be demoted kept its status |
| `Supersession.LostWriteCanLowerMax` | cmd_decision.py:656-683 | a letter of trust T2 and a stronger one whose write is lost: the topic's maximum falls |
| `Supersession.SkippedSupersessionCanBreakOrder` | decision_pipeline.py:235-237 | the same letters with the priors unreadable: the stronger stands behind the weaker |
| `Supersession.RefusedDemotionCanBreakOrder` | decision_pipeline.py:253-253 | and with the demotion not taken |
| `Supersession.NamesAllExactly` | decision_pipeline.py:247-254 | a newcomer names every event it outranks exactly when it outranks at most one; it names the last |
| `Supersession.TwoLettersOneLink` | decision_pipeline.py:247-254 | two letters of one trust and a stronger one, which does not name the first |
| `Supersession.PressureCutUnreachable` | decision_pipeline.py:298-301 | the pressure down-grade is never reached through the pipeline |
| `Supersession.ActiveExactly` | decision_pipeline.py:179-193 | an event becomes active exactly when it reaches the trust gate, is no failed claim of a source of 65 or more, and authority and medium weigh enough over a floor under the medium, 40 or with a warning 50; a failed claim of a weaker source is judged as if verified |
| `Supersession.FailedClaimCanBeActive` | decision_pipeline.py:179-193 | a client's claim that failed verification and is active |
| `ContactMerge.MergeContacts` | contact_merge.py:201-248 | the merge equals the fold specification |
| `ContactMerge.MergeResumes` | contact_merge.py:201-248 | merging a merged list with more is merging it all at once |
| `ContactMerge.PhoneRecord` | contact_merge.py:215-232 | the record of a phone: first non-empty columns and exactly the union of owners of its class |
| `ContactMerge.NameRecord` | contact_merge.py:233-247 | the record of a name without phone, alike |
| `ContactMerge.OutputKeysUnique` | contact_merge.py:201-248 | no two output records share a phone or, without one, a name |
| `ContactMerge.LandsExactlyOnce` | contact_merge.py:201-248 | every contact with a phone or a name lands in exactly one output record |
| `ContactMerge.MergedInOrder` | contact_merge.py:210-248 | the records with a phone come first, by the first contact of each phone, then those without, by the first of each name |
| `ContactMerge.LongestNameExactly` | contact_merge.py:216-220 | when the kept name is a longest one, exactly |
| `ContactMerge.PaddedNameWins` | contact_merge.py:212-232 | a first name padded with blanks beats a longer one; the readers of files strip names first |
| `OwnerLists.AddOwnerIsUnion` | contact_merge.py:227-230 | merging owner lists unites the owners |
| `OwnerLists.AddOwnerText` | contact_merge.py:227-230 | the merged text is the distinct pieces in ascending order with a comma and a blank between any two |
| `VCardFolding.UnfoldVcardLines` | contact_merge.py:121-135 | the reader equals the unfolding specification |
| `VCardFolding.UnfoldUndoesFolding` | contact_merge.py:121-135 | unfolding a legally folded file returns its logical lines exactly when no line but the first starts with a blank (section 5.8.1 of RFC 2425) |
| `VCardFolding.LogicalLinesSurvive` | contact_merge.py:121-135 | the same for lines that do not start with a blank, however they are folded |
| `VCardFolding.LineEndsAreRead` | contact_merge.py:121-135 | a line ends at a line feed, at a carriage return, or at both, and is read without its end |
| `ContactDedup.NormalizeIsCanonical` | crm.py:173-196 | a normalised phone is empty or canonical |
| `ContactDedup.NormalizeExactly` | crm.py:173-196 | a phone is read by its digits and by whether a plus stands in front, and to which number; anything else is refused |
| `ContactDedup.SpacingDoesNotMatter` | crm.py:173-196 | phones of the same digits, both with a plus or both without, are one number however they are spaced |
| `ContactDedup.DropKeepsTheRest` | crm.py:182-184 | dropping separators keeps every other character, in order, and nothing else |
| `ContactDedup.NormalizeStableExactly` | crm.py:173-196 | a canonical phone normalises to itself exactly unless it is +972 with eight digits |
| `ContactDedup.NormalizeIdempotentExactly` | crm.py:173-196 | normalising a phone twice is normalising it once exactly unless it comes to +972 with eight digits |
| `ContactDedup.LandlineIsRefused` | crm.py:173-196 | a landline of nine digits normalises to a canonical phone that normalises to nothing |
| `ContactDedup.SomeLandline` | crm.py:173-196 | one such landline |
| `ContactDedup.SpellingsReadBackExactly` | crm.py:199-204 | when all spellings looked up normalise back, exactly |
| `ContactDedup.SpellingClassesDisjoint` | crm.py:199-204 | no stored spelling stands for two numbers |
| `ContactDedup.ContactTable.FindOrCreateContact` | crm.py:207-305 | the call leaves exactly the table and the reply of the specification |
| `ContactDedup.CallExactly` | crm.py:207-305 | a call answers with the one record of its number, is ambiguous with several, and with none writes the name and the number |
| `ContactDedup.RunKeepsOnePerNumber` | crm.py:207-318 | over any run a number keeps at most one record, whatever lookups and creates do |
| `ContactDedup.FoundAgain` | crm.py:207-305 | after a creation and any further calls, a call with any phone that normalises alike finds the created record and writes nothing |
| `OrganizationDedup.CollapseIdempotent` | commercial_crm.py:85-90 | collapsing blanks twice is collapsing them once |
| `OrganizationDedup.CollapseKeepsWords` | commercial_crm.py:85-90 | the display spelling has the same words in the same order with one blank between any two |
| `OrganizationDedup.OrganizationTable.FindOrCreateOrganization` | commercial_crm.py:444-516 | the call leaves exactly the table and the reply of the specification |
| `OrganizationDedup.CallExactly` | commercial_crm.py:444-516 | a call reuses the one record of its key, is ambiguous with several, and with none stores the name with its words one blank apart |
| `OrganizationDedup.RunKeepsOnePerName` | commercial_crm.py:467-516 | over any run a name keeps at most one record, whatever the scan and the create do |
| `OrganizationDedup.SpellingsShareARecord` | commercial_crm.py:467-503 | two spellings with one key share a record |

## Left out

- Chat bots, keyboards, message texts, labels and logging.
- HTTP to the record store, live schema lookup and live-select resolution; the store is abstract and its outcomes are
  parameters.
- Calls to language models: the comparison of two events is a function of the pair. The pair hash is taken as injective.
- Identity, tenancy and permission scoping, except the tenant comparison of the Charge materialisation; one identity in
  scope is assumed.
- Callback tokens and their expiry, the action gateway, and app.py, except for what the slot does with a route.
- The resolver behind a looked-up name: its answer is a parameter.
- Binary floating point: amounts are exact reals and rounded figures whole cents, and a text's numeric reading is given
  with the text.
- Unicode case folding, which is a parameter, and in the router's word lists folds ASCII letters only; the digits counted
  in phones are ASCII digits.
- ISO week dates, which the date parser of newer Python versions also accepts, and the date-with-time input type, which
  no contract uses.
- The contracts of leads, allocation rules, allocation snapshots and deal economics: the router does not support them.
- Links given as numbers or flags in a payload, and list items that are records instead of ids.
- InsightRace.HoldersAgree: covers the Inbox and Event steps; the decision chosen between them is any, and the race for
  its title is `DecisionRace`, in which open decisions are not closed.
- Writes of Deals beyond creation and linked Leads; of a Charge the trigger evidence and the snapshot of terms, of an
  older Payment the columns that no check or agreement reads.
- ChargeReference.ReferenceNamesTheKey: takes the way numbers are written as a parameter that keeps numbers apart, and
  the occurrence columns to hold texts or numbers.
- Supersession: the texts that make an event a fact or pressure, topic extraction and tags are parameters of the arrival.
- Lead intake, contact parsing beyond line unfolding, reports, wizards and schema tables.
