# br-drive: a model and its proofs

`br-drive` is the file library a host service embeds: it stores the files of a
drive, runs each file through a chain of jobs held by another service, Jobs, and
hands the host a fact for every event of its aggregates. This project models that
library in Dafny and proves what its documentation promises of it.

## What is modelled

**One file's chain against Jobs** (`Protocol`, `ProtocolInvariant`,
`ProtocolSteps`, `ProtocolTheorems`, `WholeChain`). A transition system over the file's
processing row, the outbox, the jobs Jobs holds, the facts in flight and the state
of the file's source. Its assumptions:

- a gesture or a reaction is one step, because it locks the file first; a chain's
  start is three (lock, read of the source's state, commit), so that the engine's
  promotion, which takes no lock on the file, may fall anywhere between them;
- a minted id is any id never minted before;
- Jobs reads the `job.create`s in the order they were staged, each once; a finish,
  a failure, a cancel and a fact may be read in any order, again, or never, and
  Jobs may be dropping cancels;
- a runner reports only on the running job, once Jobs accepted it; a job once
  terminal stays so; nobody but the library asks for a job on the file;
- a person's erase (the Passport gone or unreadable) and the file's deletion happen
  at any time the lock allows;
- the file's id was never another file's: a client chooses it, and the library only
  refuses an id still stored, so nothing there keeps a deleted file's id from coming
  back while Jobs holds a job of it.

`ProtocolInvariant.Inv` ties the four sides together; every step keeps it, and the
theorems are read off it for every world a run reaches. `CommandsTold` adds that what
the library asks of Jobs and what it tells the host are one; `WholeChain` that a chain
of any length can run to its end.

**The processing and its gestures.** `ProcessingState` gives the state machine as
functions on values; `FileProcessing` is the object that updates its fields and is
proved to be that machine. `Chain` gives each gesture as a function, and says the
turn it takes; `GestureLaws` says of each, without them, the columns, events and
commands it leaves, by case; `Pipeline` is the gestures as they run, on tables, facts, an outbox
and a loaded file, each proved to leave exactly what `Chain` says. `JobsLedger`
does the same for Jobs' verdicts. `Protocol` is built on those functions.
`Refinement` says when tables, facts and outbox show a world of the protocol, and
runs each gesture of `Pipeline`, `RunnerReports` and `Freeze` from what shows a
reached world to what shows the next one: a start, a report, a declared failure, a
cancel, a freeze, a fact and a promotion. The engine's state of the source is part of
what shows a world; a promotion that falls between a start's read and its commit is one
that falls right after (`Refinement.PromotionCommutes`). What Jobs, the
engine, an erase and a deletion do shows the protocol's next world too, so that the
tables show every run (`Refinement.RunShows`).

Where the library changes an object step by step, the class does too, and each of its
methods is proved equal to a function on values: `FileProcessing` to
`ProcessingState`, `Pipeline` and `Freeze` to `Chain` on tables, `Ledger` to the
verdicts of `JobsLedger`, `Tables` to `FactLog.Written`, `Record` and `Store` to the
steps of `BlobSlots`, `Copy` to the drained bucket. The table below has the rows of
those that carry a gesture; the helpers they call are proved the same way.

Beside a function that answers for a gesture stands a lemma, its name ending in `Says`,
that gives the answer in terms of the inputs alone: the texts, codes and columns
themselves. The table has those that carry a decision of the library or of Jobs.

**What the host and the readers see.** `Replay` folds the handed facts and gives
the row back; `LateFacts` says that order and repeats do not matter; `FileStatus`
says the reads and the state machine agree; `FactLog` numbers the facts of files,
pages and processings over every kind of write.

**Around the chain.** `Freeze` (a drive's freeze), `BlobSlots` (the objects of
images and renditions), `ImageReferences` and `CleanUp` (the end of a chain),
`RunnerReports` (what a runner reports), `Paths` and `FolderMove`, `Catalogue` (the
copy of Jobs' runner types), `Rulesets` (the processing rules), `ImageNames`.

## What came out otherwise than documented

- A default rule can be shadowed. A create excludes the nil id from its overlap
  check, so a default stored under the nil id lets an overlapping default in
  (`Rulesets.NilIdLetsAClashIn`, from an empty table by two sound creates);
  `Rulesets.CreateKeepsDefaults` gives the exact condition for one create, and
  `Rulesets.DisjointUnlessNilIsMet` for a whole sequence of saves.
- A page trimmed and reported again starts over at 1 (`FactLog.PageStartsOver`: 1, 2,
  1), where the documentation speaks of one numbering per key; so does all of a
  deleted file whose id is requested again (`FactLog.ProcessingStartsOver`: 1, 1).
  `FactLog.OneNumberingUnlessResumed` says exactly when a key has one numbering, and
  `FactLog.FilesAreNumberedOnce` that a file has one exactly when its id is requested
  once. The documented fact table is unique by key and number: it refuses exactly the
  writes that start over (`FactLog.UniqueFactsRefuse`), and with them the report that
  writes a trimmed page again.
- The label of a running step can follow the order of arrival
  (`LateFacts.FirstLabelStays`); it does not exactly when the steps equal to the
  greatest carry one label (`LateFacts.LabelIsOrderFree`). Its instant and index
  never do.
- First steps, unlike next steps, can be refused as duplicates
  (`ProtocolTheorems.AnEarlyRestartIsRefused`, from any reached world with a live
  job; `ProtocolTheorems.ARestartIsRefused`, a whole run that ends so).

## Model

| member | source | states |
|---|---|---|
| `ProtocolTheorems.HandOffIsSafe` | crates/br-drive/src/processing/chain.rs:300-399 | In every run a step after the first is asked right after the step before it of the same chain, whose job Jobs accepted and made terminal, and Jobs never refuses it as a duplicate |
| `ProtocolTheorems.NextStepIsStagedOnAFreeFile` | crates/br-drive/src/processing/chain.rs:351-399 | When a step after the first is staged, Jobs has read everything staged before and holds no live job of the file |
| `ProtocolTheorems.OneLiveJob` | crates/br-drive-example/tests/harness/jobs.rs:168-182 | Jobs never holds two live jobs of the file |
| `ProtocolTheorems.WhyJobsRefuses` | crates/br-drive-example/tests/harness/jobs.rs:136-199 | In every run from a file whose id was never used before, Jobs refuses the library only for a retired runner type, or a first step while an earlier job of the very file lives; it then names that job, which the library finds and recognises |
| `ProtocolTheorems.AnEarlyRestartIsRefused` | crates/br-drive/src/processing/reactions.rs:240-246 | A first step can be refused: from any reached state with a live job, a freeze and a new start read by Jobs before that job ends give a duplicate |
| `ProtocolTheorems.ARestartIsRefused` | crates/br-drive/src/processing/reactions.rs:240-246 | A run from a file just requested that ends so: started, asked, accepted, frozen, started again, and the new first step refused as a duplicate, whatever the service, the file and the two starts |
| `ProtocolTheorems.EachIdIsAskedOnce` | crates/br-drive/src/processing/chain.rs:150-222 | In every run an id is in one staged `job.create` at most, whatever is redelivered |
| `ProtocolTheorems.ChainStartsAtZero` | crates/br-drive/src/processing/chain.rs:315-399 | The staged step k of a chain has the steps 0 to k-1 of the same chain right before it |
| `ProtocolTheorems.ChainNeverRepeats` | crates/br-drive/src/processing/chain.rs:150-165 | The steps of a chain are asked in increasing order, none twice, none past the plan |
| `ProtocolTheorems.NothingIsAskedAfterAStop` | crates/br-drive/src/processing/chain.rs:332-377 | From a user's cancel, a freeze or a lost Passport on, no run asks anything of Jobs before a new chain starts |
| `ProtocolTheorems.NoLostWakeUp` | crates/br-drive/src/blob.rs:61-84 | In every run, whatever the interleaving of start and promotion, an awaiting step whose source is promoted has its promotion under way, and nothing is asked while the source is pending |
| `ProtocolTheorems.PromotionWakes` | crates/br-drive/src/processing/source.rs:100-118 | Delivering the promotion asks Jobs for the awaited step under its id, or drops it when the Passport no longer reads |
| `ProtocolTheorems.EveryFactFindsItsFile` | crates/br-drive/src/processing/state.rs:1177-1191 | In every run the stored row is sound, recognises every job ever asked of Jobs, and so finds the file of every fact in flight |
| `ProtocolTheorems.LateFactsAreOnlyRecorded` | crates/br-drive/src/processing/state.rs:1006-1011 | In every run a fact about an earlier job, or about the last one once the processing ended, moves nothing but the log |
| `ProtocolTheorems.NoGestureFaults` | crates/br-drive/src/processing/chain.rs:365-388 | In every run no release finds its step missing or past the plan |
| `WholeChain.AWholeChainRuns` | crates/br-drive/src/processing/chain.rs:236-399 | Whatever the plan and the ids minted, a run takes a file just requested through every step, each asked once under its id, accepted, reported done and ended before the next, to READY; so does one in which the promotion falls between the start's read of the source and its commit |
| `CommandsTold.FailureIsSent` | crates/br-drive/src/processing/chain.rs:547-576 | In every run a declared failure leaves the file FAILED with the runner's own reason and message, and tells Jobs both |
| `CommandsTold.FreezeIsSent` | crates/br-drive/src/drive.rs:271-312 | In every run a freeze stages the `job.cancel` of a running job only, and the file is FAILED `cancelled` |
| `CommandsTold.CancelIsSent` | crates/br-drive/src/file/gestures.rs:398-443 | In every run a user's cancel stages the `job.cancel` of the file's job, unless its step awaits the source; a held or awaiting file is FAILED `cancelled` at once, a running one runs on with its first cancel shown |
| `CommandsTold.CommandsAreTold` | crates/br-drive/src/processing/chain.rs:150-234 | In every run the outbox and the facts are one: a `job.create` for each job told, in their order and under the same step and runner type; a `job.finish` for exactly the jobs reported done, a `job.fail` for exactly the failures declared in their words, a `job.cancel` for each cancel told |
| `CommandsTold.HeldWasFinished` | crates/br-drive/src/processing/chain.rs:315-349 | In every run a held step waits for a job Jobs was told is finished |
| `CommandsTold.FinishIsSent` | crates/br-drive/src/processing/chain.rs:315-350 | In every run the runner's final report stages exactly one command, the `job.finish` of the job it is about, whatever the chain does next |
| `ProtocolInvariant.InitialHolds` | crates/br-drive/src/upload.rs:110-187 | A file just requested satisfies the protocol's invariant |
| `ProtocolSteps.StepKeeps` | crates/br-drive/src/processing/chain.rs:224-499 | Every gesture, reaction, engine step and step of Jobs keeps the invariant that ties the row, the outbox, Jobs and the facts in flight |
| `ProtocolSteps.NextVerdict` | crates/br-drive-example/tests/harness/jobs.rs:136-199 | The next `job.create` to be read can be refused as a duplicate only when it is a first step, and accepted only when Jobs holds no live job of the file |
| `Refinement.Start` | crates/br-drive/src/processing/chain.rs:236-298 | From tables showing a locked file's world, the start as it runs, its read of the source included, leaves tables showing the world after the protocol's read and start, and the file in hand the world's |
| `Refinement.PromotionCommutes` | crates/br-drive/src/processing/source.rs:90-99 | A promotion that falls between a start's read and its commit leaves the world it leaves right after the commit |
| `Refinement.Report` | crates/br-drive/src/runner.rs:759-879 | The whole report gesture, pages, images and clean-up included, is the protocol's final report when it lets a final report through, and moves nothing of the world otherwise |
| `Refinement.ReportFailure` | crates/br-drive/src/processing/chain.rs:547-576 | A declared failure as it runs is the protocol's |
| `Refinement.Cancel` | crates/br-drive/src/file/gestures.rs:398-442 | A user's cancel as it runs is the protocol's |
| `Refinement.EndOnFreeze` | crates/br-drive/src/drive.rs:270-312 | The freeze of a processing file as it runs is the protocol's |
| `Refinement.Deliver` | crates/br-drive/src/processing/reactions.rs:30-68 | The reaction to a fact as it runs is the protocol's |
| `Refinement.Promote` | crates/br-drive/src/processing/source.rs:100-118 | The reaction to the promotion as it runs is the protocol's |
| `Refinement.RunShows` | crates/br-drive/src/processing/chain.rs:62-85 | Over every run, tables that show its first world, written over action by action, show the world it reaches, whatever the gestures write of files and pages beside their moves |
| `Refinement.RequestedShows` | crates/br-drive/src/upload.rs:150-187 | Tables that know nothing of a file, the engine's state of its source apart, show it just requested |
| `Refinement.SourceIsRead` | crates/br-drive/src/processing/source.rs:36-46 | A start decides that its source is pending exactly when the protocol's source is, both read off the engine's own state |
| `Refinement.MovesShow` | crates/br-drive/src/processing/chain.rs:62-85 | In every run, tables, facts and outbox that show the protocol's world still show it once the gesture's move is stored |
| `Refinement.LoadsTheSame` | crates/br-drive/src/processing/chain.rs:64-72 | A gesture loads the processing the protocol gives it |
| `Refinement.CommitShows` | crates/br-drive/src/processing/state.rs:1232-1241 | Storing a move shows its row, appends its facts and stages its commands, and nothing else |
| `Refinement.OtherWritesShow` | crates/br-drive/src/processing/chain.rs:246-248 | What a gesture writes beside the processing changes nothing of the world shown |
| `Refinement.DeletionShows` | crates/br-drive/src/file/gestures.rs:224-243 | A deleted file takes its processing along and cancels the running job: the tables show the protocol's world without the file |
| `Refinement.JobsShows` | crates/br-drive-example/tests/harness/jobs.rs:330-487 | What Jobs does of its own changes nothing the tables show |
| `Refinement.SourceShows` | crates/br-drive/src/processing/source.rs:30-46 | What the engine writes of the source, or that it forgets it, shows the source promoted or failed |
| `Refinement.LossShows` | crates/br-drive/src/erase.rs:72-79 | A Passport gone or unreadable, nothing handed, shows the world in which it is |
| `Refinement.DeliveryToNobodyShows` | crates/br-drive/src/processing/source.rs:105-110 | Once the file is gone only facts and promotions still arrive, and they move nothing |
| `ReplayTheorems.FactsRebuildTheRow` | crates/br-drive/src/processing/state.rs:84-226 | In every run the facts handed, folded from nothing, give back the stored row, all but its Passport and initiator |
| `ReplayTheorems.VersionCountsTheFacts` | crates/br-drive/src/facts.rs:115-119 | In every run the version a gesture stores is the number of facts handed |
| `ReplayTheorems.MovedIsTold` | crates/br-drive/src/processing/chain.rs:236-433 | The events of each gesture tell exactly what it did to the row |
| `LateFacts.FirstEndWins` | crates/br-drive/src/processing/state.rs:1006-1121 | Any sequence of facts about jobs ended or replaced changes the version and the log only, one fact each |
| `LateFacts.AnEndSettles` | crates/br-drive/src/processing/state.rs:1071-1100 | An end of the running job fails the file on the spot, and nothing Jobs says of it later moves the row |
| `LateFacts.HeldStepIsReleasedOnce` | crates/br-drive/src/processing/reactions.rs:44-52 | Facts about a reported job, in any order and number, release its held step exactly once, at their first end whichever it is |
| `LateFacts.ProgressIsTheLatestStep` | crates/br-drive/src/processing/state.rs:1049-1070 | The running job shows, of all the steps received, the first received of the greatest ones, by instant at the store's precision then index: its instant, its index and its label |
| `LateFacts.ProgressIsOrderFree` | crates/br-drive/src/processing/state.rs:1049-1070 | The same steps in two orders, with any repeats, leave the same instant and index, and the same label when the greatest steps carry one |
| `LateFacts.LabelIsOrderFree` | crates/br-drive/src/processing/state.rs:1049-1070 | Every order and repetition of a set of steps leaves the same label exactly when the steps equal to the greatest instant and index carry one label |
| `LateFacts.FirstLabelStays` | crates/br-drive/src/processing/state.rs:1058-1064 | Of two steps of one index within one microsecond the first received keeps its label: the label does depend on the order |
| `LateFacts.ProgressIsTheReadsOwn` | crates/br-drive/src/processing/state.rs:337-365 | The instant and index stored are those the reads would have picked among the steps received, though they keep the last of equals |
| `LateFacts.LatestIsOrderFree` | crates/br-drive/src/processing/state.rs:343-356 | The reads' own maximum is order-free, and its label too when equal steps carry equal labels |
| `FactLog.FactsAreGapFree` | crates/br-drive/src/facts.rs:164-240 | Over every run of saves, bulk statements and deletions, ids of deleted files requested again included, the facts of a row are numbered 1, 2, 3, ... since it was created, its version is their count, and none was ever handed out of place |
| `FactLog.OneNumberingUnlessResumed` | crates/br-drive/src/facts.rs:115-119 | In every run the facts under a key are numbered 1, 2, 3, ... over the whole log exactly when no write names the key after it was taken away, itself or with its file; and exactly then no number of it is handed twice |
| `FactLog.FilesAreNumberedOnce` | crates/br-drive/src/upload.rs:118-122 | A file has that one numbering exactly when its id is not requested again once it is deleted; its processing has it then too |
| `FactLog.PageStartsOver` | crates/br-drive/src/file/store.rs:651-729 | A page reported, trimmed and reported again is a run of allowed writes whose facts are numbered 1, 2, 1: number 1 is handed twice |
| `FactLog.ProcessingStartsOver` | crates/br-drive/src/file/store.rs:281-312 | A file deleted and requested again under its id is a run of allowed writes in which its processing's facts are numbered 1 and 1 |
| `FactLog.UniqueFactsRefuse` | crates/br-drive/src/host.rs:153-161 | A host that keeps its facts unique by key and number refuses, of the next write of a run, exactly one that names a key taken away before |
| `FactLog.SavingTwiceIsSavingOnce` | crates/br-drive/src/runner.rs:865-876 | Saving an aggregate twice in a gesture hands what one save of all its events would have |
| `FactLog.ReadIsNumbered` | crates/br-drive/src/facts.rs:115-119 | A reader that expects each next number sees a row's facts numbered from 1 up to its version |
| `FactLog.SavesKeep` | crates/br-drive/src/facts.rs:187-204 | A save keeps the log free of gaps |
| `FactLog.BulksKeep` | crates/br-drive/src/file/store.rs:418-443 | A bulk statement keeps the log free of gaps |
| `FactLog.GoesKeep` | crates/br-drive/src/file/store.rs:392-413 | A deletion hands the last number and keeps the log free of gaps |
| `BlobSlots.ReferencesAreConserved` | crates/br-drive/src/file/images.rs:106-132 | Over every run each issued reference is current, pending, or released once, and only one of these; a replacement is pending only over a landed object; every image's record has an image's name |
| `BlobSlots.LandedStaysCurrent` | crates/br-drive/src/file/images.rs:120-132 | A landed object stops being current only when its own replacement lands or its record is removed, and is released then |
| `BlobSlots.ARunLandsAndSwaps` | crates/br-drive/src/file/images.rs:455-480 | A run from an empty shelf in which an object lands, then its replacement, the first one released |
| `BlobSlots.RequestSays` | crates/br-drive/src/file/images.rs:106-118 | A request, by case, and what it releases; it is refused exactly inside the window of an upload not landed |
| `BlobSlots.LandingSays` | crates/br-drive/src/file/images.rs:120-132 | A landing, by case: the awaited replacement takes the current one's place, which is released; a first object is landed; any other changes nothing |
| `BlobSlots.RemovedAllLeaves` | crates/br-drive/src/file/images.rs:345-371 | Removing records releases what they were at and were awaiting, and leaves the others |
| `BlobSlots.RemovedAllReleases` | crates/br-drive/src/file/images.rs:345-371 | Removing records releases nothing else |
| `Freeze.FreezeSettles` | crates/br-drive/src/drive.rs:261-313 | One pass leaves every file of the list out of flight (FAILED `cancelled`, or its upload gone and its object released) and the settled ones as they were |
| `Freeze.FreezeCounts` | crates/br-drive/src/drive.rs:260-314 | A `job.cancel` is staged exactly for each running job, in order, and the counts are the processings ended and the uploads abandoned |
| `Freeze.FrozenDriveIsAtRest` | crates/br-drive/src/drive.rs:245-256 | After a freeze nothing of the drive is in flight and freezing its files again ends nothing |
| `Freeze.FreezeDrive` | crates/br-drive/src/drive.rs:248-315 | The loop does what the one pass says |
| `Freeze.FreezeStaysNumbered` | crates/br-drive/src/drive.rs:260-314 | A whole freeze hands no fact out of its place; the uploads it abandons end their numbering |
| `CleanUp.Conclude` | crates/br-drive/src/processing/chain.rs:502-542 | After a chain's end no page is above the count, an image is left exactly when a page left mentions its name, and exactly the others' records are gone |
| `CleanUp.DropTakesExactly` | crates/br-drive/src/file/images.rs:345-371 | Dropping names takes exactly their records and releases every reference they held |
| `RunnerReports.RunnerReport` | crates/br-drive/src/runner.rs:759-879 | A report goes through exactly when it is valid and about the running job; its pages are written and no other, the stale images of regenerated pages go, and a final one ends the job in the same transaction and, at the last step, takes the pages above the count and the images no page left mentions; row, facts and commands are exactly those, the facts without a gap; a refusal changes nothing |
| `RunnerReports.KeptIsNotWritten` | crates/br-drive/src/runner.rs:777-789 | A page a person edited is not written by a run that does not regenerate |
| `RunnerReports.StaleSays` | crates/br-drive/src/runner.rs:789-804 | An image is stale exactly when it is a written page's and the new text holds its name nowhere on its own |
| `RunnerReports.WritesSay` | crates/br-drive/src/runner.rs:774-787 | A reported page is written exactly when no page a person edited stands for it, or the run regenerates |
| `RunnerReports.InvalidSays` | crates/br-drive/src/runner.rs:742-757 | What a report is refused for, code by code, in the order it is looked for |
| `RunnerReports.StoredKeeps` | crates/br-drive/src/runner.rs:818-865 | The facts of a report continue every row's numbering |
| `RunnerReports.EndedKeeps` | crates/br-drive/src/runner.rs:865-876 | So do those of the end of its job, whose clean-up saves the file again |
| `RunnerReports.GateIsTheRow` | crates/br-drive/src/runner.rs:766-774 | The gate on the loaded file is the state of its stored row |
| `Rulesets.ValidateMediaTypes` | crates/br-drive/src/ruleset/gestures.rs:35-55 | The patterns in lower case, each once, or the first unsound one's code |
| `Rulesets.PatternsAreEachOnce` | crates/br-drive/src/ruleset/gestures.rs:49-52 | Each pattern is kept once, and no other |
| `Rulesets.RankTellsPattern` | crates/br-drive/src/ruleset/mod.rs:128-139 | For a media type a rank is one pattern |
| `Rulesets.ThreePatternsMatch` | crates/br-drive/src/ruleset/mod.rs:121-139 | A media type is matched by itself, then by its type's wildcard, then by any, in that order, and by no other pattern |
| `Rulesets.BestMatch` | crates/br-drive/src/ruleset/mod.rs:142-148 | The best rank of a rule is a pattern's, and no pattern has a better one |
| `Rulesets.BeforeSays` | crates/br-drive/src/ruleset/store.rs:326-334 | The order of names is that of their first difference |
| `Rulesets.LowerSays` | crates/br-drive/src/ruleset/gestures.rs:49-52 | Lower case makes one of texts that differ by the case of ASCII letters, and of no others |
| `Rulesets.StepsSay` | crates/br-drive/src/ruleset/gestures.rs:57-73 | A plan is 1 to 32 steps, each with a sound runner type of 1 to 128 bytes |
| `Rulesets.PatternSays` | crates/br-drive/src/ruleset/gestures.rs:40-48 | A pattern is any, a type's wildcard or a media type |
| `Rulesets.MediaTypeSays` | crates/br-drive/src/media.rs:13-31 | A media type is two tokens around the first slash, 255 bytes at most |
| `Rulesets.ClashesSays` | crates/br-drive/src/ruleset/gestures.rs:93-112 | A default clashes exactly with a default of its trigger that has one of its patterns, under another id than the one excepted (the nil id on a create) |
| `Rulesets.NameTakenSays` | crates/br-drive/src/ruleset/gestures.rs:75-91 | A name is taken exactly by a rule that has it in any case, under another id than the one excepted (the nil id on a create) |
| `Rulesets.UpdateSays` | crates/br-drive/src/ruleset/gestures.rs:198-254 | What an update is refused for, code by code, in the order it is looked for |
| `Rulesets.CreateSays` | crates/br-drive/src/ruleset/gestures.rs:137-181 | What a create is refused for, code by code, in the order it is looked for |
| `Rulesets.CreateKeepsDefaults` | crates/br-drive/src/ruleset/gestures.rs:93-112 | An accepted create keeps one trigger's defaults disjoint exactly when no default under the nil id shares a pattern with it |
| `Rulesets.NilIdLetsAClashIn` | crates/br-drive/src/ruleset/gestures.rs:93-112 | From an empty table two sound creates are accepted, the first under the nil id, and leave two defaults of one trigger on the same pattern |
| `Rulesets.UpdateKeepsDefaults` | crates/br-drive/src/ruleset/gestures.rs:198-237 | An accepted update keeps the defaults disjoint |
| `Rulesets.DefaultsStayDisjoint` | crates/br-drive/src/ruleset/gestures.rs:137-237 | Every sequence of saves and deletes keeps the defaults disjoint, no rule being created under the nil id |
| `Rulesets.DisjointUnlessNilIsMet` | crates/br-drive/src/ruleset/gestures.rs:93-112 | Over every sequence of saves and deletes the defaults stay disjoint all along exactly when no create of it finds an overlapping default under the nil id |
| `Rulesets.BestIsUnique` | crates/br-drive/src/ruleset/store.rs:326-335 | With disjoint defaults the best default for a media type is the only one, whatever the rows' order and the names |
| `Paths.WithinIsPrefix` | crates/br-drive/src/path.rs:65-72 | Being within a prefix, on strings, is being a prefix on lists of segments |
| `Paths.RebasedMovesSegments` | crates/br-drive/src/path.rs:74-89 | A rebased path is a path whose segments are those of the target, then those below the origin; it is refused only outside the origin or when it grows too long |
| `Paths.RebasedIsInjective` | crates/br-drive/src/path.rs:74-89 | Two paths never land on the same place |
| `Paths.RebasedBack` | crates/br-drive/src/path.rs:74-89 | Moving back brings a path back |
| `Paths.StorePrefixIsWithin` | crates/br-drive/src/file/store.rs:562-577 | The store selects by `left` what the library tests by `is_within` |
| `Paths.StoreMovesAsRebased` | crates/br-drive/src/file/store.rs:607-616 | The bulk statement's `trim` and `substr` write the path the library checked |
| `Paths.Parse` | crates/br-drive/src/path.rs:42-51 | A text parses exactly when it is, without its outer slashes, empty or sound segments within the length; the path is that text |
| `Paths.TrimSlashesSays` | crates/br-drive/src/path.rs:42-51 | What is trimmed off a path is its outer slashes, all of them |
| `FolderMove.AcceptedMoveIsSound` | crates/br-drive/src/folders.rs:164-188 | An accepted move keeps every path well-formed and every place unique, even when old and new positions overlap |
| `FolderMove.RefusedMoveWouldClash` | crates/br-drive/src/folders.rs:176-184 | A file that stops the move would have grown too long a path or shared a place |
| `FolderMove.MoveSays` | crates/br-drive/src/folders.rs:164-188 | Every file of the folder stands at its own rest below the new one, and every other file where it stood |
| `FolderMove.GuardSays` | crates/br-drive/src/folders.rs:138-163 | What a move is refused for before its files are looked at, code by code, in order |
| `Catalogue.DrainedCopyMirrors` | crates/br-drive/src/catalogue/watch.rs:129-188 | With the watch opened before the scan, each key scanned at any later moment and the changes drained in order, the copy is exactly the bucket's parseable entries, whatever it held |
| `Catalogue.DrainedReads` | crates/br-drive/src/catalogue/watch.rs:177-186 | Draining leaves under a name what its last change says |
| `Catalogue.TrustedSays` | crates/br-drive/src/catalogue/watch.rs:72-108 | A bucket's value is copied exactly when it is the entry of that very type at the version the library speaks, its name of 1 to 128 bytes |
| `ImageReferences.ScanIsExact` | crates/br-drive/src/file/images.rs:389-403 | The scan that skips past each match finds a reference exactly when the name occurs somewhere on its own |
| `ImageReferences.ImageNamesQualify` | crates/br-drive/src/image.rs:42-66 | Every image's name is made of the characters that bound a reference |
| `ImageNames.NamesAreCanonical` | crates/br-drive/src/image.rs:42-66 | A text is an image's name exactly when it is the printed form of a page, an index and an extension within the length, and it says that page |
| `ImageNames.NamesAreDistinct` | crates/br-drive/src/image.rs:42-45 | Two triples never share a name |
| `ImageNames.PrintReads` | crates/br-drive/src/image.rs:36-40 | A padded number reads back, spelled the one way |
| `ImageNames.ReadPrints` | crates/br-drive/src/image.rs:36-40 | Digits spelled the one way are their number printed |
| `FileStatus.GateOpensForTheRunningJob` | crates/br-drive/src/file/aggregate.rs:628-634 | The runner's gate, read through the status entries, opens for a job exactly when the state machine has it running |
| `FileStatus.EntriesSay` | crates/br-drive/src/processing/state.rs:383-409 | The entries say a held step, a wait for the source and a cancel exactly when the row does |
| `FileStatus.ProgressReadsBack` | crates/br-drive/src/processing/state.rs:337-365 | The progress read through the entries is the row's plan and latest step while the job runs, and nothing otherwise |
| `FileStatus.Latest` | crates/br-drive/src/processing/state.rs:343-356 | The latest step is one of the list, not before any other |
| `JobsLedger.LibraryCreatesAreRefusedOnlyForTheirPlace` | crates/br-drive-example/tests/harness/jobs.rs:136-199 | A `job.create` in the shape the library gives it is accepted exactly when its runner type is not retired and either its id is known for this very declaration or no live job holds its source; any refusal is for one of these, and a duplicate names a live job of the same source |
| `JobsLedger.NamedAsJobsAccepts` | crates/br-drive/src/processing/commands.rs:69-95 | Whatever the display name, what the library says of an initiator passes the input checks Jobs makes of it |
| `Contract.TriggeredBySays` | crates/br-drive/src/processing/chain.rs:120-131 | Jobs is told of the Passport's own human only, by the initiator's name when they are one, trimmed and cut to 512 characters |
| `JobsLedger.ActiveOn` | crates/br-drive-example/tests/harness/jobs.rs:168-182 | The live job of a source: absent exactly when every job of the source is terminal, else the last live one by id |
| `JobsLedger.Judge` | crates/br-drive-example/tests/harness/jobs.rs:69-199 | The verdict, in the order input, runner type, id reuse, source, parent, passport; a rejection names the job it refuses and what is to blame |
| `JobsLedger.ConsumedSays` | crates/br-drive-example/tests/harness/jobs.rs:330-487 | A create accepted is held live; a finish, a failure and a cancel end the job they name; nothing else moves |
| `JobsLedger.MalformedSays` | crates/br-drive-example/tests/harness/jobs.rs:69-116 | The code and the field of each malformed declaration, in order |
| `JobsLedger.JudgeSays` | crates/br-drive-example/tests/harness/jobs.rs:136-199 | What Jobs accepts, and the reason each other declaration is refused for, in order |
| `Chain.StartTurns` | crates/br-drive/src/processing/chain.rs:236-298 | On a settled file a chain starts with step 0, awaiting the source when it is pending and asked of Jobs otherwise; the row stays sound |
| `Chain.StartRemembers` | crates/br-drive/src/processing/state.rs:836-847 | A start forgets no job of the file and knows one new one |
| `Chain.ReportDoneTurns` | crates/br-drive/src/processing/chain.rs:315-349 | A final report either ends the chain or holds exactly the next step, and stages no `job.create` |
| `Chain.StopTurns` | crates/br-drive/src/file/gestures.rs:411-441 | A cancel leaves a running job running with its cancel asked, and settles a held or awaiting file at once; a freeze or a declared failure always settles |
| `Chain.ReleaseTurns` | crates/br-drive/src/processing/chain.rs:359-399 | A held step is asked of Jobs under the id minted for it, or the chain ends because its Passport no longer reads |
| `Chain.PromotedTurns` | crates/br-drive/src/processing/chain.rs:407-433 | A promotion asks Jobs for an awaited step, or drops it, and changes nothing else |
| `Chain.ReactTurns` | crates/br-drive/src/processing/reactions.rs:30-68 | A fact releases a held step exactly when it ends the job the step waits for; otherwise it leaves the chain where it stood, or ends the running job |
| `Chain.CreateIsMadeFor` | crates/br-drive/src/processing/chain.rs:186-220 | The `job.create` carries the step of the snapshot, the file as its source, no parent, the chain's Passport and nobody but its user |
| `GestureLaws.ReactionAsks` | crates/br-drive/src/processing/reactions.rs:245-282 | A reaction that releases nothing stages nothing, but for a duplicate of the running job the cancel of the live job named, when it is this file's of this host |
| `GestureLaws.EndSays` | crates/br-drive/src/processing/state.rs:1071-1101 | Jobs' failure, cancel or rejection of the running job leaves it FAILED with Jobs' reason and note, `cancelled`, or the rejection's reason |
| `GestureLaws.StepSays` | crates/br-drive/src/processing/state.rs:1049-1070 | The running job's step is replaced exactly by one after it, by instant cut to the microsecond, then index |
| `GestureLaws.PlanSays` | crates/br-drive/src/processing/state.rs:1038-1048 | The running job's plan is the last declared; the same one again is `already_known` |
| `GestureLaws.LateSays` | crates/br-drive/src/processing/state.rs:1038-1101 | Anything else of a job that runs no more is recorded as ignored, `job_already_ended` |
| `GestureLaws.HeldEndSays` | crates/br-drive/src/processing/state.rs:1012-1031 | Any end of the reported job releases its held step; a completion is recorded, any other end is late |
| `GestureLaws.OtherJobSays` | crates/br-drive/src/processing/state.rs:1006-1011 | A fact about another job than the current one is recorded as ignored, `not_the_current_job` |
| `GestureLaws.PromotionSays` | crates/br-drive/src/processing/chain.rs:407-455 | A promotion: the awaited step launched under its id, dropped for the Passport's reason, or nothing |
| `GestureLaws.ReleaseSays` | crates/br-drive/src/processing/chain.rs:359-399 | A release: the held step launched under its own id with the chain's Passport, priority and initiator, skipped on a cancel, or abandoned for the Passport's reason |
| `GestureLaws.StartSays` | crates/br-drive/src/processing/state.rs:718-810 | A start: the job minted is the current one, nothing shown of the one before, its Passport and priority held, and the events and command of a wait or of a launch |
| `GestureLaws.FreezeSays` | crates/br-drive/src/drive.rs:271-312 | A freeze, by what the file waits for: columns, events and commands |
| `GestureLaws.CancelSays` | crates/br-drive/src/file/gestures.rs:411-441 | A cancel, by what the file waits for: columns, events and commands |
| `GestureLaws.FailureSays` | crates/br-drive/src/processing/chain.rs:547-576 | A declared failure's reason and message are the file's, the event's and Jobs' note's |
| `GestureLaws.DoneSays` | crates/br-drive/src/processing/chain.rs:315-349 | A final report, by case: the columns it leaves (READY, FAILED `cancelled`, FAILED for its Passport, or the next step held) and exactly the events it pushes |
| `Replay.HoldTold` | crates/br-drive/src/processing/state.rs:886-906 | A reported job followed by its held step reads back as the job still current, with the chain's priority |
| `Replay.ReportDoneMoveTold` | crates/br-drive/src/processing/chain.rs:315-349 | The four continuations of a report (alone, skipped, abandoned, held) each read back as the row they left |
| `Replay.ReceiveTold` | crates/br-drive/src/processing/state.rs:1006-1121 | The one event pushed for a received fact says what it did, or that it did nothing |
| `JobsLedger.Ledger.Verdict` | crates/br-drive-example/tests/harness/jobs.rs:136-199 | The ledger answers the verdict of the specification on its present jobs |
| `JobsLedger.Ledger.Consume` | crates/br-drive-example/tests/harness/jobs.rs:330-487 | What one command makes of the jobs held and what Jobs publishes of it |
| `FileProcessings.FileProcessing.Receive` | crates/br-drive/src/processing/state.rs:1006-1102 | What each Jobs fact does to the processing and what it answers, in every state |
| `FactLog.Tables.Save` | crates/br-drive/src/facts.rs:220-240 | A save stores the version and hands the pending events numbered after the stored ones |
| `FactLog.Tables.RecordOnFiles` | crates/br-drive/src/file/store.rs:418-443 | One fact per stored file of the list, at its bumped version |
| `FactLog.Tables.UpsertPages` | crates/br-drive/src/file/store.rs:651-693 | New pages at 1, others bumped, one fact per page in order of number |
| `FactLog.Tables.TrimPages` | crates/br-drive/src/file/store.rs:697-729 | The pages above the count go, in order, each with its last fact; nothing else moves |
| `FactLog.Tables.HandGone` | crates/br-drive/src/file/store.rs:379-387 | The file's last fact is its next version, and its row and what hangs on it go |
| `BlobSlots.Record.RequestReplacement` | crates/br-drive/src/file/images.rs:106-118 | A landed object stays current and the request waits; a never-landed or superseded one is dropped |
| `BlobSlots.Record.Land` | crates/br-drive/src/file/renditions.rs:127-141 | The awaited object swaps in, a first one lands, any other landing is ignored |
| `BlobSlots.Store.Stage` | crates/br-drive/src/runner.rs:552-582 | A request is refused exactly while an upload of the name is in flight; else it makes or replaces the record and releases what it drops |
| `BlobSlots.Store.OnLanding` | crates/br-drive/src/file/renditions.rs:435-460 | A swap releases the replaced object; a landing not awaited changes nothing |
| `BlobSlots.Store.Drop` | crates/br-drive/src/file/images.rs:345-371 | The named records go with every reference they held |
| `BlobSlots.Store.DeleteFile` | crates/br-drive/src/folders.rs:85-105 | Every source, image and rendition of the file goes |
| `CleanUp.UnreferencedImages` | crates/br-drive/src/file/processed.rs:69-93 | Exactly the file's images no page references |
| `Transaction.SaveProcessing` | crates/br-drive/src/processing/chain.rs:76-85 | The row, its version and its pending facts are stored together, and the file in hand then reads as a reload would |
| `Transaction.SaveFile` | crates/br-drive/src/file/store.rs:254-281 | The plan, the version and the pending facts of the file are stored together |
| `Pipeline.StartChain` | crates/br-drive/src/processing/chain.rs:236-298 | The plan becomes the snapshot and the first step a job, or waits for the source when the engine has it pending; without a step it is refused, nothing of the processing stored or staged |
| `Pipeline.ReportDone` | crates/br-drive/src/processing/chain.rs:315-349 | Jobs is told, and the chain ends (cleaned up), stops or holds |
| `Pipeline.ReleaseNextStep` | crates/br-drive/src/processing/chain.rs:359-399 | The held step is launched, skipped or abandoned, and stored; a fault stores and stages nothing |
| `Pipeline.ReleaseAwaitedStep` | crates/br-drive/src/processing/chain.rs:407-433 | The awaited step is launched or dropped, and stored |
| `Pipeline.ReportFailed` | crates/br-drive/src/processing/chain.rs:547-576 | The file is stored FAILED with the runner's reason, and Jobs is told |
| `Pipeline.CancelProcessing` | crates/br-drive/src/file/gestures.rs:398-442 | A cancel drops an awaited step, skips a held one or asks Jobs, and stores it; refused on a file that does not process |
| `Pipeline.OnSourcePromoted` | crates/br-drive/src/processing/source.rs:100-118 | Only an awaiting file moves; its step is launched or dropped, and the file reads as a reload would |
| `Pipeline.OnFact` | crates/br-drive/src/processing/reactions.rs:30-68 | A fact about a job the file knows is recorded with what it moves; on a duplicate the live job it names is cancelled; any other job is passed over |
| `RunnerReports.Store` | crates/br-drive/src/runner.rs:777-868 | The pages reported are written less those kept, the stale images of regenerated pages are dropped and released, the three indexing fields are one indexing, and the file's facts say so |
| `Freeze.AbandonUpload` | crates/br-drive/src/drive.rs:262-268 | An unconfirmed upload goes with its last fact, and its object is released |
| `FolderMove.Drives.MoveFolder` | crates/br-drive/src/folders.rs:138-191 | The folder moves exactly when its guards pass and no file of it fails; a refusal changes nothing and says a failure that is there |
| `Catalogue.Copy.SyncOnce` | crates/br-drive/src/catalogue/watch.rs:137-188 | One attempt ends with the copy mirroring the bucket |
| `Rulesets.Catalogue.Create` | crates/br-drive/src/ruleset/gestures.rs:137-181 | A create answers the first refusal of its checks, and stores the rule exactly when there is none; the defaults then stay disjoint unless the nil id stands in the way |
| `Rulesets.Catalogue.Update` | crates/br-drive/src/ruleset/gestures.rs:198-254 | An update answers the first refusal of its checks and then changes nothing, or stores exactly what it names in the rule |
| `Rulesets.Catalogue.Delete` | crates/br-drive/src/ruleset/gestures.rs:268-283 | The rule goes, and no other |
| `Rulesets.Catalogue.Best` | crates/br-drive/src/ruleset/store.rs:326-335 | Among the rows, one of the least rank and, among these, no later than any by name |
| `Rulesets.Catalogue.Select` | crates/br-drive/src/ruleset/store.rs:311-336 | The rule given, checked, or a best default; none exactly when no default matches |

## Left out

- Pipeline.StartChain: the impacts on the live views (`file_changed`, `file_progressed`) are not modelled, in this gesture nor in any other.
- CleanUp.UnreferencedImages: the names come in some order; the order by name of the dropped images is not modelled.
- FactLog.OneNumberingUnlessResumed: labels and rulesets are not keys of the log; a rule created again under an id already stored starts over at version 1.
- FactLog.Tables.RecordOnFiles: the rows come in whatever order the database answers them.
- Transaction.SaveFile: of a file's columns the plan and the version are stored; its name, folder, labels, indexing and the rest are not columns of the model's tables.
- ProtocolTheorems.WhyJobsRefuses: of a file requested again under a deleted file's id, Jobs may name a job the new row does not know; the protocol starts from an id never used.
- FolderMove.Drives.MoveFolder: when several files stop a move, the refusal is one of theirs, not the first in path order; the host's per-file gates are not modelled, nor the fact each file it moves hands.
- Rulesets.Catalogue.Create: names are compared by ASCII case folding, where the database folds every letter; that a step's options are a JSON object is not modelled.
- Rulesets.Catalogue.Update: names and options as in `Rulesets.Catalogue.Create`.
- Chain.ReactTurns: a blank reason code is replaced before a fact is received; the model starts from the fact received.
- Catalogue.Copy.SyncOnce: the pauses and the retries around an attempt; the wire version is Jobs' own constant, whose value is not part of this model.
- The columns of a processing row are one record the object updates field by field; its `file_id` is fixed.
- Widths of integers: a step index is a natural number (a plan has at most 32 steps), versions are unbounded.
- The commit of an upload, its deadline and the choice of its rule: only the chain they start, and the abandonment a freeze does.
- RunnerReports.RunnerReport: its runner-only gate and an unknown file are refused before it.
- Freeze.FreezeDrive: an unknown drive is refused before the loop, and the list of files in flight is read before it too.
- Erasure beyond the Passport (redacted initiators and authors), and the deletions it makes without a fact.
- Other files in Jobs: the ledger of the protocol holds this file's jobs only; a `job.create` delivered again after a refusal.
- Liveness: a running file stays PROCESSING when Jobs never answers; only safety is proved.
- The engine: SQL execution and locking, NATS, object storage, presigned URLs, the reaper that drops objects never uploaded.
- JSON encodings of events, Passports and options; who is behind a fact (actor, correlation, cause).
- GraphQL, views, subscriptions, visibility and the hosts' gates; labels, titles, rendition names, free file names.
