# Verification of the submission pipeline

A worker takes submissions of a KoboToolbox form through transcription, translation and analysis. Each submission is a job
in a queue; each pass over a job reads a document from the server, sends PATCH requests, and reschedules the job. This
project models that pipeline, the server it talks to, the configuration it writes, and the queue, poller, rate limiter and
form walker beside it, and proves what they keep over whole runs.

`dafny verify dfyconfig.toml` checks everything.

## How the modules fit together

| layer | modules |
|---|---|
| values | `Languages`, `Versions` (reading a version list), `Features` (the form's configuration, grouped by recording) |
| the other party | `Protocol` (what the server admits, what a PATCH does, how attempts settle), `Merging` (its append-only rows) |
| one pass | `Handlers` (the decision, as functions), `Decisions` and `Passes` (what those functions come to, read off dates, statuses and fields), `Pipeline` (the handlers, the chain and the driver, as they run, proved to carry out just those decisions), `Plans`, `Safety` |
| whole runs | `Runs` (passes, settling attempts, the clock, operator retries), `Billing`, `Outcomes`, `Completion`, `Termination`, `Chaining`, `BackEdge`, `StuckForm`, `Fairness`, `Listings`, `Limits` |
| configuration | `Questions`, `Sync`, `Configuration`, `Reapplication`, `Applications` (what an application leaves, and when it succeeds), `Recordings`, `Provisioning` |
| queue and worker | `Jobs`, `Queue`, `Owners`, `Worker`, `Poller` |
| small algorithms | `RateLimit`, `FormPaths` |

A pass decides one `Move` for each configured action from the document it read. `Handlers.StagePatches` and
`Handlers.StageVerdict` say what one stage sends and where the job goes, `Handlers.RunStage` follows hand-offs, and
`Handlers.PassRow` and `Handlers.PassPatches` are a whole pass, in trouble or not; `Handlers.RowAfter` is the row part of
it, for any chain. The methods of `Pipeline.Pipeline` loop,
count and send as the code does, and `Pipeline.Pipeline.Process` is proved to leave exactly the row, the document and the
log of those functions. The theorems about runs are about the functions, and what the functions are is pinned down beside
them: `Decisions` says which PATCHes a stage sends and where the job goes by the ends of the version lists alone, `Passes` says
what becomes of a row by its own fields, and `Applications` says what a configuration leaves on a recording.

Three results join the parts. `Reapplication.SyncKeepsTidy` shows that what the configuration code writes is what the
theorems about runs ask of a form. `Fairness` rests on `BackEdge`, which says exactly when a job can move back.
`Pipeline.Pipeline.Process` and `Worker.Drain` tie the functions to the code that changes tables.

## What was found

* Two regional targets of one base language are stored as one code twice (`Reapplication.NewTargetsDistinctIff`) and requested
  as one action twice (`Limits.ApartIffDistinctBases`, `Limits.AsManyRequestsAsListings`); a row with a regional code is never satisfied (`Limits.RegionalTargetAsksForever`,
  `Limits.RegionalRowIsRefused`). The bounds on requests hold for forms with distinct bare codes, which the writers produce.
* A job goes to and fro between transcription and translation exactly when one transcript is usable, nothing is outstanding
  and a recording with targets has no usable transcript (`BackEdge.HandToAndFroIff`): one that was given up, or one without
  a transcription row. Such a job counts nothing (`BackEdge.StuckRow`) and, with no attempt running for that recording, is
  never done (`BackEdge.StuckForGood`, `StuckForm.StuckFormsExist`).
* A recording with a translation row but no audio language gets a second translation row when the worker provisions it
  (`Provisioning.StaysUniqueIff`), and its targets are then requested twice (`Provisioning.DoubledTarget`,
  `Provisioning.FrenchTwice`). The comment at
  `app/pipeline.py:128-132` says only recordings with nothing configured are touched; the code looks at transcription alone.
* Until a poll has found something no cursor is saved, so each poll looks back from its own time
  (`Poller.EmptyPollRemembersNothing`, `Poller.ArrivalIsMissed`); what is older than the first poll's look-back is never
  read (`Poller.BehindForGood`, `Poller.EarlierIsLeft`); and twenty thousand submissions with the cursor's own stamp stop the poller for good
  (`Poller.CrowdedStampIsForGood`).
* An unnamed group inside a named one costs what follows a level of its path: a form is walked right exactly when in no
  named group a recording comes after the end of an unnamed one (`FormPaths.WalkFindsThePathsIff`).
* With a poll interval of five seconds or less a hand-off out of the new stage can send a PATCH (`Chaining.HandOffSends`).

## Assumptions

* Times are whole seconds on one clock; a pass happens at one moment, and so does each claim.
* A request adds one version, and the server later ends that attempt in place; this is the shape the failure count at
  `app/supplement.py:443-456` reads. Results, dates, order of settling and outages are arbitrary.
* Uuid 0 stands for an absent uuid, row uid 0 for an absent row. A minted uuid is a number never used before.
* The server reports a submission as unknown only if it holds no results of it.
* Stage `Parked` is the code's "failed". A form's configuration is fixed during a run.
* The server admits a translation or an analysis only for what its rows list and, for analysis, for a defined question of an
  answerable type. The stub at `tests/mock_kobo.py:364-375` checks less; `app/supplement.py:316-333` and
  `app/supplement.py:527-546` describe the refusals of a live server.

## Model

| member | source | states |
|---|---|---|
| `Languages.SplitRoundTrip` | app/supplement.py:76-81 | splitting a code loses nothing but the spelling of its separator, and the base never holds one |
| `Languages.RegionalCode` | app/supplement.py:527-546 | a code written with either separator is split into exactly its base and its region, and its locale spells both with a dash |
| `Languages.RequestKeepsTheRowBase` | app/supplement.py:217-226 | the regional code of the settings is used exactly when it refines the row's, so the base asked for is always the row's |
| `Languages.LocaleNamesTheRegion` | app/supplement.py:527-546 | a locale is sent exactly when the code has a region, and base and region can be read back from it |
| `Versions.SortIsSorted` | app/supplement.py:364-375 | dated versions are read oldest first |
| `Versions.SortedStays` | app/supplement.py:364-375 | the sort is stable: a list in date order is read as it stands |
| `Versions.SortIsStable` | app/supplement.py:364-375 | versions of one date keep their order |
| `Versions.UndatedIsListed` | app/supplement.py:372-375 | with one undated version the list is read as it stands |
| `Versions.BlankIff` | app/supplement.py:468-476 | a transcript is empty exactly when it is made of the twenty-nine characters that Python strips |
| `Versions.OrderIndependent` | app/supplement.py:364-375 | two listings of the same distinctly dated versions are read in one order |
| `Versions.ReadersAgree` | app/supplement.py:378-495 | state, acceptance, silence, error text, failure streak and stall time agree on any two listings |
| `Versions.StreakIs` | app/supplement.py:443-456 | the streak is the one count of failures at the end that cannot be extended |
| `Versions.FailureStreak` | app/supplement.py:443-456 | the backward loop with its early stop counts exactly that streak |
| `Features.AssetFeatures.constructor` | app/supplement.py:267-304 | filling the dictionaries row by row gives the grouping of all rows |
| `Features.GroupingIsFaithful` | app/supplement.py:267-304 | whatever the grouping names stands on a row for that recording and action, and no recording appears twice |
| `Features.AnswerableQual` | app/supplement.py:316-345 | the loop keeps exactly the uuids with a definition of an answerable type |
| `Features.SameLanguageIff` | app/supplement.py:229-245 | two languages are one exactly when their bases are the same but for case, and there is one |
| `Features.UsableInTwo` | app/supplement.py:229-245 | the usable targets keep their order |
| `Features.AnswerableInTwo` | app/supplement.py:316-345 | the answerable questions keep theirs |
| `Features.UsableTargets` | app/supplement.py:229-245 | the targets are split, none lost or doubled, by whether their base is the source's, ignoring case |
| `Protocol.KoboServer.PatchDataSupplement` | tests/mock_kobo.py:339-379 | a PATCH not admitted changes nothing and raises; one that raises was carried out wholly or not at all |
| `Protocol.KoboServer.GetDataSupplement` | app/kobo.py:174-190 | a document read is the server's own, and empty for a submission the server does not know; that is never an error |
| `Protocol.PatchDoes` | tests/mock_kobo.py:339-379 | a request adds one running attempt dated now to its action, an acceptance marks the latest version, all else stays |
| `Protocol.ApplyInTwo` | tests/mock_kobo.py:339-379 | carrying out a list of PATCHes is carrying out its parts in turn |
| `Protocol.AdmitInTwo` | tests/mock_kobo.py:339-379 | a list is admitted when its first part is, and its second part is admitted on what the first leaves |
| `Protocol.SettlingMatures` | tests/mock_kobo.py:311-315 | ending attempts keeps every action's length and every ended version |
| `Handlers.CountersTell` | app/pipeline.py:326-346 | each test on a handler's counters is a test on which moves occurred |
| `Decisions.ChaseIs` | app/pipeline.py:299-322 | an unfinished action that failed twice is left, one running for no longer than the limit is waited for, any other is asked for |
| `Decisions.TranscribeSends` | app/pipeline.py:277-324 | transcription sends exactly the requests for recordings that are due, and the acceptances of transcripts that are worded and not accepted |
| `Decisions.TranslateSends` | app/pipeline.py:348-392 | translation sends exactly the requests that are due and the acceptances, for targets other than the audio's language over a readable transcript |
| `Decisions.QualSends` | app/pipeline.py:411-441 | analysis sends exactly the requests that are due, for questions listed and defined with a type the model can answer, over a readable transcript |
| `Decisions.TranscribesInOrder` | app/pipeline.py:277-284 | transcription goes through the recordings in their order |
| `Decisions.TranslatesInOrder` | app/pipeline.py:348-352 | so does translation |
| `Decisions.TargetsInOrder` | app/pipeline.py:368-392 | and through the targets of a recording in theirs |
| `Decisions.AnalysesInOrder` | app/pipeline.py:411-419 | so does analysis |
| `Decisions.QuestionsInOrder` | app/pipeline.py:419-441 | and through the questions about a recording in theirs |
| `Decisions.TranscribeVerdictIs` | app/pipeline.py:326-346 | back after the poll interval while anything is pending, else on in two seconds if a transcript is readable, else ended |
| `Decisions.TranslateVerdictIs` | app/pipeline.py:394-409 | back after the poll interval while a target is pending, else back to transcription in two seconds while one is blocked, else on to analysis |
| `Decisions.QualVerdictIs` | app/pipeline.py:411-453 | back after the poll interval while an answer is pending, else failed in the two cases of the code, else done |
| `Decisions.FinishedIsDone` | app/pipeline.py:249-256 | a stage without a handler sends nothing and is done |
| `Decisions.StalledTranscript` | app/pipeline.py:299-316 | a running transcription is asked for again exactly when it began longer ago than the stall limit, and looked at after the poll interval either way |
| `Decisions.StalledTranslation` | app/pipeline.py:378-392 | the same for a translation |
| `Decisions.StalledAnswer` | app/pipeline.py:425-441 | the same for an answer |
| `Passes.PassIs` | app/pipeline.py:160-222 | by the job's own fields: parked before any handler exactly at one of the three limits, else kept ten minutes on a paused form, done without recordings, or given its chain's PATCHes and verdict; and the row after each error |
| `Passes.HasRecordingsIff` | app/pipeline.py:100-102 | a form has recordings exactly when a row names one that the settings do not leave out |
| `Pipeline.Pipeline.Patch` | app/pipeline.py:455-461 | one more PATCH is counted, and the server has carried it out unless it raised |
| `Pipeline.Pipeline.Chasing` | app/pipeline.py:299-322 | a running attempt is waited for exactly as long as it began no longer ago than the stall limit, a twice failed action left, anything else requested |
| `Pipeline.Pipeline.SupTranscribe` | app/pipeline.py:277-346 | the loop carries out a first part of the stage's moves in order; without trouble all of them, each PATCH counted, and gives the stage's verdict |
| `Pipeline.Pipeline.TranslateRecording` | app/pipeline.py:351-392 | one recording: nothing for a silent transcript, each target blocked without an accepted one, else each target chased |
| `Pipeline.Pipeline.SupTranslate` | app/pipeline.py:348-409 | the same for translations over all recordings and targets |
| `Pipeline.Pipeline.SupQual` | app/pipeline.py:411-453 | the same for analysis questions |
| `Pipeline.Pipeline.Handle` | app/pipeline.py:249-256 | each stage is given to its handler; a stage without one reports done |
| `Pipeline.Pipeline.RunStages` | app/pipeline.py:228-247 | the loop with its re-read documents carries out the chain of hand-offs, or a first part of it before an error |
| `Pipeline.Pipeline.Process` | app/pipeline.py:160-222 | a pass leaves the row, document and log that `Passes.PassIs` gives by the job's own fields, with the trouble it met, and no other row changed |
| `Plans.StagePatchesAreJustified` | app/pipeline.py:281-441 | every PATCH of a stage is justified by the document read, and no two are about one action |
| `Plans.TranscriptPatchesSpellTheLanguage` | app/supplement.py:527-549 | every transcript PATCH spells out base and region of a recording's code, the form's own when it refines the row's |
| `Safety.StageOnKey` | app/pipeline.py:281-441 | however far a stage gets, an action changes by at most one PATCH, justified by what it held |
| `Safety.PatchIsAdmitted` | tests/mock_kobo.py:243-257 | each PATCH of a stage is admitted when its turn comes |
| `Safety.ChainIsAdmitted` | app/pipeline.py:228-247 | so is each PATCH of a whole chain of hand-offs |
| `Safety.PassIsAdmitted` | app/pipeline.py:160-222 | so is each PATCH of a pass, up to where trouble stops it, and the document stays in order |
| `Runs.EveryPatchIsAdmitted` | app/supplement.py:217-226 | over any run, in trouble or not, the server admits every PATCH at the moment it is sent |
| `Runs.StartsAsEnqueued` | app/store.py:174-188 | a run starts with the row that enqueueing inserts: new, due at once, without history |
| `Runs.RowIsAccountedFor` | app/pipeline.py:160-222 | a pass adds an attempt only for work, a change of stage or an error, and counts or clears failures |
| `Runs.StepsAreAccountedFor` | app/store.py:213-248 | attempts are at most PATCHes, stage changes and errors; failures are the errors since the last finished pass, never above the limit |
| `Runs.RunIsOrderly` | app/pipeline.py:160-222 | version lists stay dated in order with only finished versions accepted, and a job keeps its creation time |
| `Billing.RetryIsNotRepeated` | app/pipeline.py:317-322 | an action is never asked for again after two failures in a row |
| `Billing.StepExplained` | app/pipeline.py:281-441 | each step keeps every version of an action explained by one recorded request and its reason |
| `Billing.BillingBound` | app/pipeline.py:266-272 | an action starting empty has at most 2s + 2 versions in a run, where s counts stall restarts and s times more than the stall limit fits below the age ceiling |
| `Billing.DefaultBillingBound` | app/config.py:80-85 | with the default settings that is at most 96 requests |
| `Billing.TwoRequestsWithoutStalls` | app/supplement.py:57-61 | without stalls an action is requested at most twice |
| `Outcomes.FinishedStays` | app/supplement.py:364-495 | an action that is complete, accepted or given up stays so whatever attempts end later |
| `Outcomes.TranscriptMovesStay` | app/pipeline.py:281-324 | transcription moves that need nothing stay as they are on any later document |
| `Outcomes.ChainKeepsPast` | app/pipeline.py:228-247 | no PATCH of a chain undoes finished transcription or translation |
| `Outcomes.StageLeadsOn` | app/pipeline.py:277-453 | where a verdict sends a job, all that earlier stages promise holds; a verdict that ends it leaves a document that decides that end |
| `Outcomes.ChainLeadsOn` | app/pipeline.py:228-247 | the same for a chain of hand-offs |
| `Outcomes.ConcludedReplays` | app/pipeline.py:228-247 | over a document that decides the end, a job started at new sends nothing and reaches that end in one chained pass |
| `Outcomes.LaterKeepsConclusion` | app/pipeline.py:277-453 | a document that decides the end still does after any attempts end and any time passes |
| `Outcomes.RunIsTruthful` | app/pipeline.py:277-453 | in every run the stage of a job tells the truth about the document |
| `Completion.DoneRunsAreComplete` | app/pipeline.py:326-453 | a run that ends in done over a form with recordings to transcribe is complete: each recording accepted, empty or failed twice, each target delivered or failed twice, each question answered |
| `Completion.ParkedIffHopeless` | app/pipeline.py:332-453 | a concluded job is parked exactly when nothing was transcribed, an answer failed twice, or recordings were skipped and nothing was answered |
| `Completion.VerdictsAreRight` | app/pipeline.py:277-453 | over any run a verdict parks the job exactly in those cases, and else it is done |
| `Completion.ReplayCostsNothing` | app/store.py:278-279 | after a verdict no PATCH is ever carried out again, however often operators send the job back, and a pass that runs its handlers reaches the same verdict |
| `Termination.PassWaits` | app/pipeline.py:160-222 | a pass that does not end its job puts it off by at least the lesser of two seconds and the poll interval |
| `Termination.BackoffDoubles` | app/pipeline.py:213-217 | errors are retried after 30 s, then twice as long each time, up to ten minutes |
| `Termination.EveryJobEnds` | app/pipeline.py:258-275 | whatever the server, the settings and the network do, a job is processed at most the age ceiling over that wait, rounded up, plus one times, put off for want of credentials in between or not |
| `Chaining.ChainingRefinesStepping` | app/pipeline.py:228-247 | a chained pass sends the same PATCHes and ends the same as that many one-stage passes, all but the last of which hand on, and stops early only where a hand-off ends |
| `Chaining.HandOffSends` | app/pipeline.py:240-242 | a stage that sent something is chained on exactly when it is the new stage and polls are at most five seconds apart |
| `Chaining.HandOffsSendNothing` | app/pipeline.py:240-242 | with longer polls the hand-offs of a chain leave the document alone |
| `Chaining.OnlyTheLastStageSends` | app/pipeline.py:228-247 | so a chained pass sends what its last stage makes of the document first read |
| `BackEdge.HandsBackIff` | app/pipeline.py:365-400 | translation hands back exactly when nothing is outstanding and a recording has targets but no finished transcript |
| `BackEdge.HandsBackIffForsaken` | app/pipeline.py:365-400 | once no transcription is outstanding, that is exactly a recording with targets, no finished transcript, and no transcription row or two failures in a row |
| `BackEdge.HandsBackIffDead` | app/pipeline.py:365-400 | where every recording with targets has a transcription row, that is exactly two failures in a row |
| `BackEdge.HandToAndFroIff` | app/pipeline.py:326-400 | the two stages hand a job to each other over one document exactly when one transcript is usable, nothing is outstanding and a recording with targets has none |
| `BackEdge.StarvedIsHungryOrUnasked` | app/pipeline.py:365-400 | on such a document that recording has no attempt running, unless it has no transcription row and somebody else started one |
| `BackEdge.StuckRow` | app/pipeline.py:344-400 | a pass over such a document sends nothing, counts nothing, and leaves the job in its stage, due in two seconds |
| `BackEdge.StuckForGood` | app/pipeline.py:344-400 | with no attempt running there, such a job is never done or analysed and sends nothing ever again in any run |
| `StuckForm.StuckFormsExist` | app/pipeline.py:365-400 | there are sound forms and documents on which a job is stuck, over a recording given up and over one without a transcription row |
| `StuckForm.StuckRunsExist` | app/pipeline.py:365-400 | runs over such documents are stuck from their start |
| `Fairness.AskingLowers` | app/pipeline.py:317-324 | a request that no stall forced uses up work left on its action |
| `Fairness.MaturingKeepsWork` | app/supplement.py:443-456 | attempts ending never add work |
| `Fairness.RestartingPutsBack` | app/pipeline.py:299-316 | a request over a stalled attempt puts back at most two of the work left |
| `Fairness.PassLowersBalance` | app/pipeline.py:160-222 | each PATCH of a pass, in trouble or not, uses up work or is owed to a stalled attempt |
| `Fairness.PatchesAreBounded` | app/pipeline.py:277-453 | every run carries out at most five PATCHes for each configured action and three for each request over a stalled attempt, however often operators retry |
| `Fairness.SettingsBoundPatches` | app/config.py:80-85 | from an empty document that is at most 5 + 3m for each action, where m stall limits fit below the age ceiling |
| `Fairness.ChainMovesOn` | app/pipeline.py:277-453 | with no forsaken recording a chain never ends before the stage it began in, and there only if that stage is busy |
| `Fairness.PassProgress` | app/pipeline.py:277-453 | with no forsaken recording a pass uses up work or a stall, or moves the stage on, or leaves both alone because a configured attempt is running that began no longer ago than the stall limit |
| `Fairness.FairRunsAreShort` | app/pipeline.py:277-453 | a run over documents without forsaken recordings, attempts stalling or not, changes stage at most four times, and beside those and its bounded PATCHes every counted attempt is an error |
| `Listings.SameDecisions` | app/pipeline.py:277-453 | every stage handler sends the same PATCHes and gives the same verdict on any listing of the same distinctly dated versions |
| `Listings.SamePass` | app/pipeline.py:228-247 | so does a whole chained pass |
| `Limits.ApartIffDistinctBases` | app/supplement.py:552-556 | a recording's translations are kept apart on every document exactly when no two usable targets share a base |
| `Limits.AsManyRequestsAsListings` | app/pipeline.py:368-392 | a target listed k times is requested k times in one pass |
| `Limits.ReadsItsOwnRequestIffBare` | app/supplement.py:415-436 | a translation is read under the key it was requested under exactly when the target is bare |
| `Limits.RegionalTargetAsksForever` | app/pipeline.py:368-392 | carrying out a regional target's request leaves the same request to be made |
| `Limits.TranscriptRequestAdmittedIff` | tests/mock_kobo.py:243-257 | a transcript request is admitted exactly when the row lists the base of its own language |
| `Limits.RegionalRowIsRefused` | app/supplement.py:527-546 | a row holding only a regional code refuses every request made of it |
| `Merging.MergeParams` | tests/mock_kobo.py:187-204 | the loop keeps every existing parameter's place and identity |
| `Merging.MergeTakes` | tests/mock_kobo.py:187-204 | an incoming parameter ends at the last place of its identity, or after all that was there |
| `Merging.MergeAgain` | tests/mock_kobo.py:187-204 | merging the same consistent parameters again changes nothing |
| `Merging.PutKeeps` | app/supplement.py:567-579 | a write keeps every row and every parameter identity in place |
| `Merging.PutStores` | app/supplement.py:567-579 | after a write the recording and action hold what they held merged with what was sent, and all others what they held |
| `Questions.LocaliseQuestions` | app/supplement.py:158-184 | the nested loops resolve each question and choice as specified and mint in order |
| `Questions.LocalisedAt` | app/supplement.py:158-184 | each question is resolved on its own, with uuids set aside for it alone |
| `Questions.MatchIs` | app/supplement.py:140-155 | a question is matched by its uuid, else by type and label, the first such, and else unknown |
| `Questions.LocalChoiceIs` | app/supplement.py:170-182 | a choice keeps a known uuid, else takes that of the last choice with its label, else a new one |
| `Questions.KeptInTwo` | app/supplement.py:619-623 | the questions kept beside a set keep their order |
| `Questions.UuidComesFrom` | app/supplement.py:140-155 | a resolved question keeps its kind and label and has its match's uuid, or else a minted one |
| `Questions.ResolvedAreDistinct` | app/supplement.py:158-184 | matched one to one, the resolved questions have uuids of their own |
| `Questions.MatchedByItself` | app/supplement.py:140-155 | applied once, each question is matched the next time by what was stored for it |
| `Questions.ResolvedAgain` | app/supplement.py:158-184 | resolved a second time it has the same uuid, and the same of it is stored, choices included |
| `Questions.WritesTheSameAgain` | app/supplement.py:606-628 | applying the same set again writes the same definitions, merged or not |
| `Sync.FeatureServer.CreateAdvancedFeature` | tests/mock_kobo.py:169-176 | a valid row is added under a new uid, anything else refused |
| `Sync.FeatureServer.UpdateAdvancedFeature` | tests/mock_kobo.py:207-214 | valid parameters are merged into the row of that uid, anything else refused |
| `Sync.PutFeatureRow` | app/supplement.py:567-579 | the row the rows as read name is updated, or else one is created |
| `Sync.SyncQuestion` | app/supplement.py:582-629 | the writes are made in order up to the first refusal, none undone, and the resolved set is returned |
| `Configuration.NothingIsLost` | app/supplement.py:582-629 | over any sequence of applications, refused or not, no row and no parameter identity is lost or moved |
| `Configuration.GroupedReadsRows` | app/supplement.py:267-304 | with one row a recording and action, the grouping reads off exactly what each row holds |
| `Configuration.SupersededAre` | app/supplement.py:280-292 | of several audio languages all but the newest are kept as superseded |
| `Configuration.TidyIsWellFormed` | app/supplement.py:259-304 | tidy rows are grouped into what the theorems about runs assume |
| `Reapplication.UnsentStays` | app/supplement.py:582-629 | what is not written stays as it was on every recording, whether or not the writes succeed |
| `Reapplication.SuccessHolds` | app/supplement.py:582-629 | after success the server holds every write, merged into what it held |
| `Reapplication.SyncKeepsTidy` | app/supplement.py:598-628 | an application with distinct bases and one-to-one questions keeps rows tidy, and so the form well formed |
| `Reapplication.NewTargetsDistinctIff` | app/supplement.py:608-610 | targets are stored on a new row as sent, so it lists none twice exactly when no two share a base |
| `Reapplication.ReapplyingChangesNothing` | app/supplement.py:582-629 | re-applying is a fixed point: no row changes and every question keeps its uuid, whatever could be minted |
| `Reapplication.AlikeQuestionsCollapse` | app/supplement.py:140-155 | two alike questions without known uuids are both taken for the first of them, so the set must not ask the same twice |
| `Applications.AppliedAudio` | app/supplement.py:598-605 | after an application a recording has the audio languages it had and the base of the one applied |
| `Applications.NewLanguageApplies` | app/supplement.py:280-292 | a language the recording did not have becomes the one its audio is transcribed in |
| `Applications.AppliedTargets` | app/supplement.py:607-609 | and the targets it had and the bases of those applied |
| `Applications.AppliedAnswers` | app/supplement.py:248-256 | with analysis enabled the model is to answer what it was to answer before and exactly the questions written that have a uuid and one of the four types; without it the row stays |
| `Applications.AppliedQuestionsAreAsked` | app/supplement.py:611-628 | each of those is one the pipeline will ask |
| `Applications.AppliedQuestionsAreStored` | app/supplement.py:103-133 | each question of the set is stored with its type, label, hint and, if it is one to choose from, its choices in order |
| `Applications.SyncSucceedsIff` | app/supplement.py:582-629 | an application succeeds exactly when every question written has a known type, a label and, to choose from, labelled choices |
| `Recordings.SyncKeepsApart` | app/supplement.py:158-184 | an application with new uuids defines no question uuid on two recordings |
| `Recordings.RecordingsStayApart` | app/supplement.py:158-184 | nor does any sequence of applications to any recordings |
| `Recordings.SaveQuestions` | app/admin.py:572-588 | the loop applies the set to each recording in turn over re-read rows, and a refusal ends it |
| `Recordings.SavingKeepsApart` | app/admin.py:572-588 | saving on several recordings loses nothing and keeps them apart |
| `Recordings.SavingSucceedsIff` | app/admin.py:572-588 | saving succeeds exactly when each application does |
| `Recordings.SavedAnswers` | app/admin.py:574-583 | on each recording the model is also to answer the questions of the set that it can, and those beside the set except on the one edited |
| `Recordings.Undeletable` | app/supplement.py:201-214 | the loop names, in order, the stored questions whose uuid was not submitted |
| `Recordings.UntouchedIsNamed` | app/supplement.py:201-214 | every stored question an edit leaves untouched is named; one that is named was touched exactly when an unknown question asks the same |
| `Recordings.Enable` | app/admin.py:646-654 | the loop configures the recordings without transcription, in order, re-reading the rows, and reports in order which were transcribed when it came to them and which not |
| `Recordings.EnableSucceeds` | app/admin.py:646-654 | it is never refused |
| `Recordings.EnableReaches` | app/admin.py:646-654 | every recording named that was not transcribed gets the language and the targets |
| `Recordings.ConfiguredIsLeftAlone` | app/admin.py:646-654 | no row of a recording transcribed already changes |
| `Provisioning.ProvisionFeatures` | app/pipeline.py:119-157 | the loop creates rows for the recordings missing when the rows were read, up to the first refusal |
| `Provisioning.UnconfiguredInTwo` | app/pipeline.py:134-136 | recordings are configured in the order in which they are wanted |
| `Provisioning.MissingIsConfigured` | app/pipeline.py:144-154 | every recording that was missing is then transcribed in the base of the form's language and has every target that is not that language |
| `Provisioning.ProvisioningSucceedsIff` | app/pipeline.py:144-154 | it is refused exactly for a recording without a name |
| `Provisioning.OnlyAdds` | app/pipeline.py:119-157 | no existing row changes |
| `Provisioning.StaysUniqueIff` | app/pipeline.py:119-157 | one row a recording and action remains exactly when no recording configured has such a row already |
| `Provisioning.DoubledTarget` | app/pipeline.py:144-154 | a target on both the old and the added row is listed twice |
| `Provisioning.FrenchTwice` | app/pipeline.py:128-154 | a recording with only a translation row into French counts as unconfigured, and ends with French listed twice |
| `Jobs.Store.ForOwner` | app/store.py:144-150 | a view is bound to its owner over the same tables |
| `Jobs.Store.Enqueue` | app/store.py:174-188 | if absent, a row is inserted that is new, due at once, created now and without history; nothing else changes |
| `Jobs.Store.ClaimReady` | app/store.py:191-211 | the earliest due unfinished jobs, up to the limit, are returned and pushed out by two minutes |
| `Jobs.SelectReady` | app/store.py:194-202 | the rows are ready, distinct, ordered by due time and cut at the limit, and none left out is due earlier |
| `Jobs.Store.Advance` | app/store.py:213-248 | the rows in scope get stage, due time and counts, field by field; all others stay |
| `Jobs.Store.Reset` | app/store.py:278-279 | a job goes back to new at once with its failures and its age |
| `Jobs.Store.DeleteJob` | app/store.py:269-276 | the rows in scope are gone, and counted |
| `Jobs.Store.SetCursor` | app/store.py:452-458 | one owner's cursor for one form is set |
| `Jobs.Store.DeleteAssetSettings` | app/store.py:306-309 | the settings in scope are gone, all others stay |
| `Queue.BoundedBypass` | app/store.py:191-211 | a job with k unfinished jobs due no later is claimed by the time of the ceil((k + 1) / limit)-th later claim, whatever else happens |
| `Queue.EnqueuedIsClaimed` | app/store.py:174-211 | so a job just enqueued and left alone is ready at once, and claimed in its turn |
| `Queue.LeaseHolds` | app/store.py:191-211 | two claims of a job nobody advanced between them are at least 120 s apart |
| `Queue.FinishedIsNotClaimed` | app/store.py:191-202 | a done or failed job is not claimed unless somebody sends it back |
| `Owners.Perform` | app/store.py:144-160 | a call on an owner's store does exactly what the specification of that call says to the three tables |
| `Owners.OwnersDoNotInterfere` | app/store.py:144-160 | after any interleaving an owner's jobs, cursors and settings are what the owner's calls alone would have left |
| `Worker.HandleJob` | app/worker.py:149-162 | one claimed job is given to its owner's pipeline, which makes a pass over the document the server has, or is put off for five minutes without one |
| `Worker.Drain` | app/worker.py:146-162 | up to a signal to stop, each claimed job is handled once, in order, by its owner's pipeline or put off without one, and no other row changes |
| `Worker.UnprocessedIsPutOff` | app/worker.py:146-155 | a claimed job that was not reached, or whose owner has no credentials, is as it was and ready again after the lease or five minutes |
| `Poller.IterSubmissions` | app/kobo.py:98-125 | while the server grows, the pages read are a first part of the matches: all of them, or as many as the page limit allows |
| `Poller.PollAsset` | app/worker.py:25-52 | a poll starts at the cursor, or as far back as it looks without one; it adds a new job, ready at once, for each submission read that has none, and moves the cursor to the newest stamp unless it failed |
| `Poller.FirstCursorCovers` | app/worker.py:27-49 | the first poll to save a cursor has queued everything from where it started |
| `Poller.PollingLosesNothing` | app/worker.py:25-52 | over any polls, failed or cut short, everything stamped from there up to before the cursor is queued, and the cursor never moves back |
| `Poller.EmptyPollRemembersNothing` | app/worker.py:27-49 | without a saved cursor a poll reads exactly what its own look-back covers |
| `Poller.ArrivalIsMissed` | app/worker.py:27-49 | with a look-back of ten minutes, what arrives at 1100, after an empty poll at 1000, is missed by a poll after 1700 |
| `Poller.BehindTheCursor` | app/worker.py:32-41 | a poll reads nothing stamped before its saved cursor, which stays after it |
| `Poller.BehindForGood` | app/worker.py:32-41 | over any number of later polls nothing stamped before a saved cursor is read |
| `Poller.EarlierIsLeft` | app/worker.py:27-49 | what is stamped 50 on the server at a first poll at 1500 is never read |
| `Poller.CursorMovesIff` | app/kobo.py:106-125 | the cursor moves exactly when a later stamp is among the first twenty thousand matches |
| `Poller.CrowdedStampIsForGood` | app/kobo.py:106-125 | if not, no later poll reads anything else |
| `RateLimit.Limiter.Check` | app/ratelimit.py:47-69 | popping, refusing, recording and purging leave exactly the specified table, answer and waiting time; beyond ten thousand keys only those of the last hour stay, below none is dropped |
| `RateLimit.Limiter.Purge` | app/ratelimit.py:67-69 | the loop deletes the stale keys and no others |
| `RateLimit.Limiter.Forget` | app/ratelimit.py:72-76 | one key's record is dropped |
| `RateLimit.CheckAgrees` | app/ratelimit.py:47-69 | a check answers as the unbounded log does, and the table stays the end of the log |
| `RateLimit.AnswersLikeTheLog` | app/ratelimit.py:47-69 | after any calls a check is admitted exactly when fewer than the count were admitted within the window since the key was forgotten |
| `RateLimit.RetryIsEnough` | app/ratelimit.py:57-63 | who waits as long as told is admitted |
| `FormPaths.MediaQuestionXpaths` | app/payloads.py:56-74 | the loop with its group stack finds what the walk finds |
| `FormPaths.RowsAreRead` | app/payloads.py:61-72 | which rows open and close groups, which are recordings, and what they are called |
| `FormPaths.JoinedInTwo` | app/payloads.py:73 | a path of two parts is the first, a slash and the second |
| `FormPaths.JoinedParts` | app/payloads.py:73 | a joined path cut at its slashes gives its names back, outermost first |
| `FormPaths.PathsTellTheGroups` | app/payloads.py:56-74 | cut at their slashes, the paths found are the groups around each recording, outermost first, and its own name, if and only if the form is clean |
| `FormPaths.WalkFindsThePaths` | app/payloads.py:56-74 | for a well-nested form with named groups, exactly the slash-joined paths of the named media questions in document order |
| `FormPaths.WalkFindsThePathsIff` | app/payloads.py:56-74 | for any well-nested form the walk finds exactly those paths if and only if in no named group a named media question comes after the end of an unnamed group |
| `FormPaths.UnnamedGroupPopsItsParent` | app/payloads.py:64-71 | the end of an unnamed group pops the group around it |
| `FormPaths.FoundAfterIff` | app/payloads.py:64-71 | what follows an item has its own path exactly when it is in no named group or no unnamed group ended in the item |

## Left out

- Billing.BillingBound: counts the requests of one action that the server carried out, for forms with distinct bare languages; `Limits.AsManyRequestsAsListings` shows that it needs them.
- Fairness.FairRunsAreShort: leaves out operators and passes over documents with forsaken recordings, which are the subject of `BackEdge`; `Fairness.PatchesAreBounded` has both.
- Listings.SamePass: is about polls more than five seconds apart, since a shorter interval lets a PATCH change the document within a chain.
- Reapplication.ReapplyingChangesNothing: starts from rows without duplicate rows or parameters, as the writers leave them.
- Poller.PollingLosesNothing: starts from the first cursor that was saved; before that `Poller.EmptyPollRemembersNothing` says what is lost.
- Worker.Drain: leaves out the building of a pipeline from credentials; the signal to stop may come after any number of jobs.
- Protocol.SettlingMatures: leaves out the stub server's own way of settling, which appends a second version (`tests/mock_kobo.py:311-315`); a failure streak would be broken by every running version under it.
- Versions deleted on the server: their status is one of the others and asks again, but runs have no step that deletes.
- Texts: notes, error wording, log lines. `last_error` and `note` are not columns of the model.
- A form's saved settings, which in the tables are reduced to its enabled flag.
- Labels other than the default one, and the normalising of hints; a label and a hint are plain texts.
- The `xpaths` setting of a form decides only whether a job has recordings at all, as in the code; the handlers go over every configured recording.
- The newest audio language is the last in its row; asking again for one that is already earlier in the row does not move it there (`tests/mock_kobo.py:196-204`).
- Cached form settings and settings changed during a run, dry runs, and the two older dialects (`app/pipeline.py:464-535`), whose retries are unbounded by design.
- Dates as texts, fractions of seconds and time zones; stamps of submissions are numbers.
- HTTP, JSON, SQL, schema migration, locks, accounts, passwords, tokens, hooks, the web interface and the command line.
- The question set is checked before any write when it is saved from the editor (`app/admin.py:548-551`); the model starts after that check.
