# A model of the crossfire loop

Crossfire finds, fixes and re-checks bugs in a target repository, round by round. Detectors report
findings, agents confirm and fix them, and a broker decides everything else: what is believed, what is
carried over, when to stop. Each round becomes one entry of a hash-chained ledger. This project models
the broker loop, the ledger, the scanner that finds an agent's answer, and five smaller algorithms those
rest on, and proves what each of them keeps over every run and every input.

`dafny verify dfyconfig.toml` checks everything.

## How it is arranged

- `Basics`: options, the insertion-ordered map behind a JavaScript `Map` or object, sequence steps.
- `JsonText`, `JsonParse`, `JsonRoundTrip`, `JsonFacts`, `JsonCanonical`: the two JSON printers, a reader for
  them, and the theorem that canonical text is unambiguous. `JsonOrder`: the order of its keys. `JsonGrammar`:
  the grammar of any JSON text.
- `TextLines`: `split` and `trim`, shared by the ledger reader and the line splitter.
- `BraceRegions`, `AnswerScan`: what a balanced region is, and the scanner of an agent's turn, as the loop it is and
  as an automaton that finds exactly those.
- `Ledger`, `LedgerAppend`, `LedgerTamper`: writer and verifier over the text of the file, what an append keeps,
  and what a change to the file does.
- `Contracts`, `ContractFacts`, `Gates`: the records that cross boundaries and what an exit code is taken to mean.
- `BrokerModel`: the loop as functions over its five pieces of state, the ledger file and a journal of what
  the broker did and saw. Detectors, agents, repros, builds, tests, git and the abort signal are oracles,
  one arbitrary `World` per round. `Broker` is the same loop as a class whose methods update those fields,
  each method proved equal to its function on the whole state, so every theorem about the functions is one
  about the class.
- `BrokerLists`, `BrokerFrames`: what the list operations keep, and what each phase leaves alone.
- `BrokerMemory` and `BrokerVerdicts`, `BrokerAnalyses`, `BrokerEvidence`, `BrokerBatches` and `BrokerConservation`,
  `BrokerAdmission`, `BrokerRuns`, `BrokerAborts` and `BrokerStops`, `BrokerCommits`, `BrokerLedger`: the invariants
  of a run, one family each.
- `BrokerDecisions`, `BrokerProgress`, `BrokerResults`, `BrokerJournal`: what a round decides, when it goes on, and
  that everything it records is true, said of the answers it got without naming the functions that use them.
- `BrokerLosses`: concrete runs, one in which a finding is lost and two that leave a commit without an entry.
- `FuzzModel`, `FuzzFacts`, `FuzzLog`, `FuzzPasses`, `FuzzDriver`: the fuzz restart loop and the
  pass over harnesses.
- `LineSplitter`, `Shell`, `ReproCommands`, `Semgrep`, `PathScope`: the tap's line splitter, shell quoting and the
  commands composed with it, the outermost-match filter, and the path gate.

## Where the code does other than it says

- `src/broker/state-machine.ts:147-158` says a resumed run inherits the verdicts of the ledger. The loop there
  runs over the list of entries the run has just created, which is empty, so nothing is inherited
  (`BrokerAdmission.NoVerdictIsInherited`).
- `src/broker/state-machine.ts:287-289` says a model's reading of severity cannot pull a finding out of the loop.
  The severity an agent gives (lines 259 and 290) is carried in the open list, and the next round filters it
  against the bar (line 398): an unresolved finding is worked on again exactly when its severity meets the bar
  (`BrokerBatches.OpenReachesBatchIff`), and otherwise it is lost (`BrokerLosses.SurvivorIsLost`).
- A candidate that an earlier round closed, and whose repro can no longer be judged, is dropped for the round
  (`BrokerAdmission.InconclusiveRecheckDrops`), although inconclusive keeps a batch finding open.
- The passes after a fix ignore how old a dismissal is (`BrokerAdmission.ReopenedIff`).
- The writer appends to whatever the last line holds. Unless that is white space to `JSON.parse`, the append
  ruins a ledger that verified (`LedgerAppend.AppendKeepsIntactIff`; files:
  `LedgerAppend.CutNewlineThenAppendRuins`).
- An edited entry whose `entry_hash` was recomputed is noticed one entry later, and not at all when it is the
  last (`LedgerTamper.EditIsLocalised`; edits: `LedgerTamper.ResealedLastEntryGoesUnnoticed`).
- Quotes and braces in an agent's prose count towards the scan, so an object is found in its place exactly when
  the prose before it left none open (`AnswerScan.RecoveredIffNothingOpen`).
- A commit is made before its entry is written, so a commit can be left without one: exactly when its sha cannot
  be read back or the ledger refuses the entry (`BrokerCommits.CommitsMatchEntries`). On a sound ledger a refusal
  is the entry schema's (`BrokerLedger.CommitWithoutEntryIff`; a run: `BrokerLosses.UnreadCommitHasNoEntry`). On a
  ledger that has rounds, a run without `resume` is always refused (`BrokerLedger.FreshRunNeedsFreshLedger`; a run:
  `BrokerLosses.SecondRunHasNoEntry`).
- Finding ids keep twelve hexadecimal digits of a digest. Two crash signatures that share one share a file, so
  every finding ships its own crash exactly when no two do (`FuzzFacts.OwnArtifactsIffInjective`), and among all
  signatures some two do (`FuzzFacts.ShortIdsSwapSomewhere`).
- A file directly under the target whose name merely starts with two dots is refused as outside it
  (`PathScope.AllowedIff`; files: `PathScope.TwoDotsAreRefused`).
- `src/policy/exclusions.ts:54-60` says links are resolved first. One that leads to nothing yet does not count as
  existing and is put back as an ordinary name, so an allowed path can land outside
  (`PathScope.AllowedLandsOutsideIff`; a disk: `PathScope.LinkToNowhereLandsOutside`).

## Model

| member | source | states |
|---|---|---|
| `JsonRoundTrip.ParseOfStringify` | src/ledger/writer.ts:35-52 | for every plain JSON value, with nested values, escaped strings and integers, parsing what `JSON.stringify` printed gives the value back |
| `JsonRoundTrip.PrintsAs` | src/ledger/writer.ts:84-84 | a list and an object written out: nothing but the tokens, in the order given |
| `JsonCanonical.CanonicalIffSame` | src/ledger/hash.ts:7-22 | two values get the same canonical text exactly when they are the same data: equal up to key order, with undefined fields dropped and undefined items as null (keys by UTF-16 code unit, section 3.2.3 of RFC 8785) |
| `JsonOrder.CanonicalIsOrdered` | src/ledger/hash.ts:7-22 | canonical text, read back, is the same data with the keys of every object, however deep, in ascending order of their UTF-16 code units (section 3.2.3 of RFC 8785), and is what `JSON.stringify` prints of it |
| `JsonFacts.ParsedIsPlain` | src/ledger/writer.ts:36-40 | whatever `JSON.parse` returns, of any text, has no duplicate key and nothing undefined |
| `JsonFacts.OneMoreZero` | src/ledger/writer.ts:36-40 | however a whole number is spelt, as 100, 1e2 or 100.0, it is read as the same number |
| `JsonFacts.ValueExtends` | src/ledger/writer.ts:84-84 | text after a value that has ended is left over untouched by the reader, which is why two objects on one line cannot be read as an entry |
| `JsonGrammar.ReaderFollowsGrammar` | src/broker/parse.ts:87-93 | wherever the reader of this model stops after a value, the full grammar of RFC 8259, with every number and escape, stops too |
| `AnswerScan.JsonObjectsIn` | src/broker/parse.ts:48-85 | the index loop over depth, start, quote and escape collects exactly the outermost balanced regions of the text, as the nesting of quotes and braces has them, each as the slice it spans |
| `AnswerScan.ObjectsAreRegions` | src/broker/parse.ts:48-85 | the automaton takes the regions of the text, and ends outside braces and quotes exactly when the text closes all it opens |
| `BraceRegions.PlainProseIsClosed` | src/broker/parse.ts:69-81 | prose without a double quote and an opening brace leaves nothing open and holds no region, whatever else is in it |
| `AnswerScan.EmbeddedObjectRecovered` | src/broker/parse.ts:43-85 | if the text before an object closes all the quotes and braces it opens, scanning text + object + more gives the regions of the text, then exactly the object, then the regions of the rest, for every object text of the full JSON grammar |
| `AnswerScan.StringifiedIsObjectText` | src/broker/parse.ts:43-85 | every object `JSON.stringify` prints is such an object text |
| `AnswerScan.ObjectsAreSpans` | src/broker/parse.ts:64-81 | each region taken is the slice between two places, and each begins where the scanner was outside braces and quotes |
| `AnswerScan.RecoveredIffNothingOpen` | src/broker/parse.ts:55-82 | for any prose before, any object text and any text after: the object's own place is one of the regions taken exactly when the prose before it closes every quote and brace it opens |
| `AnswerScan.CoincidenceRecovers` | src/broker/parse.ts:55-82 | places matter: after a prose that ends in a string inside a brace, a region that began in the prose can spell the same text as the object |
| `AnswerScan.QuoteHides` | src/broker/parse.ts:58-70 | after an unmatched quote in the prose no region equal to the object is taken |
| `AnswerScan.BraceHides` | src/broker/parse.ts:71-81 | after an unmatched brace in the prose nothing inside the object is found |
| `AnswerScan.LastObjectIsJudged` | src/broker/parse.ts:16-41 | for any reader and any schema: if the object can be read and no region after it can, the schema judges that object, accepting or rejecting it, and an earlier object is never substituted |
| `AnswerScan.FinalJsonIsJudged` | src/broker/parse.ts:16-41 | for a reader that reads exactly the JSON texts, as `JSON.parse` does: so whenever the prose before the object left nothing open and no region after it is JSON |
| `Ledger.LedgerWriter.LastEntryOf` | src/ledger/writer.ts:35-64 | the loop over the lines fails exactly when some non-blank line does not parse to an entry; otherwise it gives the last line's entry, and none exactly when there is no line |
| `Ledger.LedgerWriter.AppendBody` | src/ledger/writer.ts:66-86 | appends exactly one line with the next round, the previous entry's hash and the hash over both, or changes nothing |
| `Ledger.VerifyLedger` | src/ledger/verify.ts:10-71 | accepts exactly the ledgers whose every entry parses, links to the one before, is sealed by its own hash and has the next round; otherwise `failedAtIndex` is the least index that does not, and the fault is the first of the four checks it fails |
| `TextLines.SplitIs` | src/ledger/writer.ts:30-30 | the pieces with a newline between each two are the text, and no piece holds one |
| `TextLines.TrimIs` | src/transport/tap.ts:20-20 | trimming takes white space off both ends and nothing else, and leaves none there |
| `LedgerAppend.AppendKeepsIntactIff` | src/ledger/writer.ts:66-86 | appending to a ledger that verifies keeps it verifying exactly when what already stands on the last line is JSON white space: the writer assumes a final newline and nothing checks it |
| `LedgerAppend.CutNewlineThenAppendRuins` | src/ledger/writer.ts:82-86 | the files that fail: cut the last newline off any file an append has just written, and it still verifies, but the next append ruins it |
| `LedgerAppend.AppendExtends` | src/ledger/writer.ts:82-86 | on a file that is empty or ends in a newline, an append is one more line, and the parsed ledger is the old one plus exactly the entry that was returned |
| `LedgerAppend.LastOfIntact` | src/ledger/writer.ts:74-75 | on a ledger that verifies, the expected next round is the number of entries plus one |
| `LedgerAppend.VerdictsDefault` | src/contracts/ledger.ts:68-68 | a body without verdicts is read as one with none, and any other as it stands |
| `ContractFacts.BatchTells` | src/broker/state-machine.ts:566-566 | what is hashed of a batch is all of it: no other round or batch gives the same data |
| `ContractFacts.FixReportTells` | src/broker/state-machine.ts:567-567 | what is hashed of a fix report is all of it |
| `ContractFacts.VerifyResultsTell` | src/contracts/ledger.ts:23-30 | what is written of the results is all of them |
| `ContractFacts.VerdictsTell` | src/contracts/ledger.ts:50-57 | what is written of the verdicts is all of them |
| `ContractFacts.TestResultTells` | src/contracts/ledger.ts:32-39 | what is written of the tests is all of it |
| `LedgerAppend.NonBlankOne` | src/ledger/writer.ts:30-30 | a line counts unless it is white space |
| `LedgerTamper.SameHeadSameLedger` | src/ledger/verify.ts:46-67 | two ledgers that verify and end in the same `entry_hash` have the same length and the same entries at every position, up to canonical form, if the digest separates the texts they hash |
| `LedgerTamper.RearrangedIffPrefix` | src/ledger/verify.ts:15-67 | lines taken from a ledger that verifies, rearranged, repeated or cut, verify exactly when they are a prefix of it; no assumption about the hash |
| `LedgerTamper.EditKeepingHashFailsThere` | src/ledger/verify.ts:46-55 | an edit to the content of entry i that keeps its `entry_hash` fails at exactly i |
| `LedgerTamper.EditIsLocalised` | src/ledger/verify.ts:15-67 | the whole story of replacing entry i: same content verifies; otherwise it fails at i, or, if the edit recomputed `entry_hash`, at i + 1, or verifies when i was the last entry |
| `LedgerTamper.EditedLineVerifiesIff` | src/ledger/verify.ts:15-67 | replacing one line of a ledger that verifies leaves it verifying exactly when the content is unchanged, or it was the last line and the new one is a sealed continuation |
| `LedgerTamper.ResealedLastEntryGoesUnnoticed` | src/ledger/verify.ts:46-67 | edits that go unnoticed: the last entry written anew with any other body that can be appended there and its `entry_hash` computed afresh; both files verify and differ in that entry alone |
| `Gates.VerifyFindings` | src/gates/verify.ts:25-87 | one result per finding, in order, each judged by that finding's own run: closed by a completed non-zero exit and nothing else, survived on a completed zero exit and nothing else, inconclusive, with a note, exactly when the repro did not run to its end |
| `BrokerLists.MergeFindings` | src/broker/state-machine.ts:640-648 | the loop over the map computes the merge |
| `BrokerLists.MergeKeeps` | src/broker/state-machine.ts:640-648 | merging keeps exactly the ids that went in, each once, invents no record, and keeps a preferred list with distinct ids whole and in front |
| `BrokerLists.MergeIsFirsts` | src/broker/state-machine.ts:640-648 | merging is exact: the first finding with each id, the preferred before the others, where it stands |
| `BrokerLists.WithinBarConcat` | src/broker/state-machine.ts:650-652 | the severity filter goes finding by finding and keeps the order |
| `BrokerLists.WithinBarMember` | src/broker/state-machine.ts:650-652 | the severity filter keeps exactly the findings that meet the bar |
| `BrokerLists.UnresolvedMember` | src/broker/state-machine.ts:494-496 | a batch finding is unresolved exactly when its own verify result is anything but closed, so inconclusive keeps it open |
| `BrokerLists.WithoutDismissedMember` | src/broker/state-machine.ts:518-520 | the post-fix filter drops exactly the findings whose remembered verdict is a dismissal |
| `Broker.Run.constructor` | src/broker/state-machine.ts:143-161 | a run starts with nothing open, nothing remembered and no entries |
| `Broker.Run.SeedRemembered` | src/broker/state-machine.ts:153-158 | the seeding loop folds the verdicts of the entries the run holds into the memory |
| `Broker.Run.TakeTurn` | src/broker/state-machine.ts:187-223 | one agent turn is noted and answers, aborts the run or fails it |
| `Broker.Run.Reproduces` | src/broker/state-machine.ts:229-232 | the broker runs the command itself, notes what it saw and believes the exit code |
| `Broker.Run.ConfirmCandidate` | src/broker/state-machine.ts:234-274 | a candidate is promoted exactly when the turn is about it, says confirmed, and the repro it proposed survives |
| `Broker.Run.ConfirmFinding` | src/broker/state-machine.ts:401-455 | one pass of the confirmation loop, with memory, recheck and dismissal, leaves the whole state the model gives |
| `Broker.Run.ConfirmWorking` | src/broker/state-machine.ts:400-456 | the confirmation loop over the working list equals the recursive model, state and result |
| `Broker.Run.AnalyzeCrash` | src/broker/state-machine.ts:276-305 | the analysed crash takes the proposed repro exactly when it survives, and keeps its own otherwise |
| `Broker.Run.AnalyzeConfirmed` | src/broker/state-machine.ts:459-467 | the analysis loop with its set of analysed crashes equals the recursive model |
| `Broker.Run.ColdHunt` | src/broker/state-machine.ts:313-317 | raises become candidates, and one that is not a finding fails the run |
| `Broker.Run.DetectWorking` | src/broker/state-machine.ts:379-398 | open findings, detections and raises are merged in that order and filtered by the bar |
| `Broker.Run.PlanFix` | src/broker/state-machine.ts:324-334 | a plan for another round fails the run, and a plan for this one changes nothing the loop decides |
| `Broker.Run.FixFindings` | src/broker/state-machine.ts:336-368 | no fix turn for an empty batch; otherwise a report that is accepted is for this round, signed by the fixing agent, and claims only batch findings |
| `Broker.Run.VerifyFixed` | src/broker/state-machine.ts:481-493 | a failed build makes every result inconclusive, and anything else runs each repro |
| `Broker.Run.CrossCheck` | src/broker/state-machine.ts:505-529 | the fuzzers and then the scanners are run again only when wanted, and their findings merged |
| `Broker.Run.CommitRound` | src/broker/state-machine.ts:542-549 | one commit is counted when git made one, whether or not its sha could be read back; none in a dry run |
| `Broker.Run.RememberClosures` | src/broker/state-machine.ts:550-559 | the loop after the commit remembers each closed batch finding with its repro and round |
| `Broker.Run.ConcludeRound` | src/broker/state-machine.ts:500-587 | tests, cross-check, commit, memory, entry, open list and stop decision, in that order, equal the model |
| `Broker.Run.PlayRound` | src/broker/state-machine.ts:378-587 | a whole round, with every early exit, leaves exactly the state and signal of the model |
| `Broker.RunLoop` | src/broker/state-machine.ts:123-597 | the for loop over rounds ends as the model of the run ends, and the ledger file is the model's |
| `BrokerVerdicts.VerdictsAreBackedAndFinal` | src/broker/state-machine.ts:409-455 | in every run: one verdict per id and entry; a closed verdict names a round of this run whose verify results close that id with that repro; a dismissed one names a round that ruled against it; ids only accumulate and a closed id stays closed; no confirmation turn about an id after an entry has it closed |
| `BrokerVerdicts.DismissalsAreRare` | src/broker/state-machine.ts:116-121 | a run that plays n rounds spends at most ceil(n / 5) dismissing confirmation turns on any one id |
| `BrokerVerdicts.DismissalsPerRun` | src/broker/state-machine.ts:409-455 | the same bound with n the recorded rounds and one more, for every run |
| `BrokerAnalyses.EachCrashIsAnalyzedOnce` | src/broker/state-machine.ts:459-467 | however a run ends, it has taken at most one analysis turn about each crash id |
| `BrokerEvidence.PreparedIsEvidenced` | src/broker/state-machine.ts:400-468 | the batch handed to the fix agent holds confirmed findings only, each with its evidence already on the record |
| `BrokerEvidence.EveryReachedBatchHasEvidence` | src/broker/state-machine.ts:370-468 | the same in every round any run gets to, recorded or not |
| `BrokerEvidence.EveryFixHasEvidence` | src/broker/state-machine.ts:229-232 | in every recorded batch of every run, each finding's id and command were reported confirmed by a detector pass of the run, or run by the broker and seen to survive |
| `BrokerEvidence.OtherFindingsWereRun` | src/broker/state-machine.ts:256-273 | when detectors have called only crashes confirmed so far, as the shipped ones do, a scanner's or a cold hunt's finding is in the batch of any round a run gets to, recorded or not, only if the broker had run its repro by then and seen it survive |
| `BrokerEvidence.OtherRecordedFindingsWereRun` | src/broker/state-machine.ts:256-273 | the same of every recorded batch, from the record of the finished run |
| `BrokerStops.PlayedIsOnRecord` | src/broker/state-machine.ts:370-468 | what had been noted when a recorded round had its batch ready is the beginning of the record of the run |
| `BrokerDecisions.DetectIsExact` | src/broker/state-machine.ts:379-398 | the working list, exactly: of what is open, then detected, then raised, the first finding with each id, if it meets the bar, in order; and a raise is a candidate with the raise's own words and a command that reproduces nothing |
| `BrokerDecisions.BatchIsExact` | src/broker/state-machine.ts:400-468 | the batch, exactly: each admitted working finding, in order, with the command, severity and text of the answer that confirmed it or the command that once closed it, and with what its analysis gives; and what is remembered of every id |
| `BrokerDecisions.BatchIsJudged` | src/broker/state-machine.ts:229-305 | the commands behind it: by the time the batch is ready the very command the answer gave, or the remembered one, has been run for each candidate, and the one its analysis proposed for each crash, and each answer was about its own finding |
| `BrokerJournal.JournalIsTrue` | src/broker/state-machine.ts:229-273 | nothing is noted that did not happen: in every run each scan, ruling and repro on record is one the world of its round answered with, and each command run is one an answer proposed or one run before |
| `BrokerProgress.PrepareGoesIff` | src/broker/state-machine.ts:374-470 | a round gets its batch ready exactly when the detectors come back, every candidate that needs it is answered for and run, every crash that enters is analysed, and no look on the way sees the signal |
| `BrokerProgress.GetsToCommitIff` | src/broker/state-machine.ts:374-541 | a round gets to its commit exactly when nothing it asks for on the way fails: its batch as above, a fix report about this round and batch signed by the fixing agent, a scope to run repros in unless the build failed, the passes over the patched source when they are wanted, and no look that sees the signal |
| `BrokerBatches.DetectWorks` | src/broker/state-machine.ts:390-398 | the working list has one record for each id that was open, detected or raised and meets the bar, carried records first and unchanged |
| `BrokerBatches.BatchIsSettled` | src/broker/state-machine.ts:400-468 | a batch has distinct ids and confirmed findings only, every crash in it has been analysed, and each is a working finding with at most its state, severity, command and texts changed: agents add, rename and move nothing |
| `BrokerBatches.OpenReachesBatchIff` | src/broker/state-machine.ts:392-408 | a confirmed finding left open, even a crash the fuzzers only just brought back, reaches the next batch exactly when its severity meets the bar, and otherwise nothing with its id does; one that needs no analysis is the same record |
| `BrokerConservation.NothingAboveTheBarIsLost` | src/broker/state-machine.ts:494-496 | over whole runs: a batch finding that meets the bar is closed on the record by its own or a later round, or is in the returned open findings; from each recorded round to the next, every confirmed finding left open, unresolved or brought back, is carried over exactly by the bar |
| `BrokerConservation.NothingIsLost` | src/broker/state-machine.ts:580-580 | if every severity an agent gives meets the bar, no finding of any recorded batch is ever lost |
| `BrokerLosses.SurvivorIsLost` | src/broker/state-machine.ts:259-259 | without that hypothesis: a two-round run in which a promoted finding's repro survives the fix, no round closes it, and the run ends clean with nothing open |
| `BrokerAdmission.AdmissionIff` | src/broker/state-machine.ts:401-467 | exactly when a working finding is in the batch the round prepares, judged against the memory the round began with: no other finding of the round has a say |
| `BrokerAdmission.OpenIsTakenUpIff` | src/broker/state-machine.ts:392-467 | any finding left open, confirmed or candidate, is in the next batch exactly when its severity meets the bar and it is admitted |
| `BrokerAdmission.InconclusiveRecheckDrops` | src/broker/state-machine.ts:424-443 | a candidate with a carried closure whose repro can no longer be judged is not in the batch of the round |
| `BrokerResults.EveryRecordIsTrue` | src/broker/state-machine.ts:470-580 | every recorded round of every run, against what it met: with a failed build every result is inconclusive and the batch stays open, otherwise each result is the judgment on that finding's own run; what stays open; what the tests did; when the passes after the fix were made and what came back; the report, the commit and the times; every closure remembered with its command and round, and nothing else changed |
| `BrokerResults.CleanNeedsABuild` | src/broker/state-machine.ts:481-493 | a run never ends clean on a fix that did not build |
| `BrokerAdmission.ReopenedIff` | src/broker/state-machine.ts:505-529 | what comes back after a fix: all the fuzzers found, and what the scanners found at the bar unless memory has it dismissed, however old that dismissal is |
| `BrokerAdmission.NoVerdictIsInherited` | src/broker/state-machine.ts:147-158 | the first round of any run, resumed or not, buys a confirmation turn for every candidate it works on: no verdict of the ledger is inherited |
| `BrokerStops.RecordedRoundsAreReached` | src/broker/state-machine.ts:370-587 | every recorded round of a run is one it got to, from the state with exactly the entries before it, with the batch it prepared there; and the run stops in the round after the last, or by decision |
| `BrokerAborts.RoundAbortsIff` | src/broker/state-machine.ts:176-223 | a round ends on an abort exactly when a look the broker got to saw the signal or a turn on its record ended on it |
| `BrokerStops.StopReasonIsTrue` | src/broker/state-machine.ts:370-596 | each reason is given exactly when it is true: `clean` when the last entry's results are all closed, nothing came back and no test regressed; `test-regression` when the last tests fail and the baseline's passed; the cap when the next round is past it; an abort when the next round was begun and met the signal; no earlier entry was clean or regressed, and a run that cannot start throws |
| `BrokerRuns.EmptyOpenMeansClosed` | src/broker/state-machine.ts:580-587 | a round leaves nothing open exactly when every verify result is a closure and nothing was reopened |
| `BrokerCommits.RoundCommitsIff` | src/broker/state-machine.ts:535-573 | a round that is not dry commits exactly when it gets through verification and the passes after it and git makes the commit, and goes through exactly when the sha is read and the ledger takes the entry too |
| `BrokerCommits.CommitsMatchEntries` | src/broker/state-machine.ts:535-573 | a dry run makes no commit; any other makes one per entry, and one more exactly when the round it stopped in made its commit and then the sha could not be read or the ledger refused the entry, in which case it throws |
| `BrokerRuns.RoundsAreConsecutive` | src/broker/state-machine.ts:138-139 | entries are consecutive rounds from the first, and nothing is noted in a round beyond the one after the last entry |
| `BrokerLedger.RunOnLedger` | src/broker/state-machine.ts:561-573 | a run only adds to the end of the file; a ledger that verifies goes on verifying within the cap, and what was added, read back from the file, is the recorded rounds one for one, in all ten fields |
| `BrokerLedger.LedgerOverRuns` | src/broker/state-machine.ts:83-89 | over any sequence of runs under one cap, resumed or not, whatever happens in them, a ledger that verifies keeps verifying, only grows at its end, and never exceeds the cap |
| `BrokerLedger.FromNothing` | src/broker/state-machine.ts:83-89 | so every ledger that starts empty always verifies and never exceeds the cap |
| `BrokerLedger.ResumeContinues` | src/broker/state-machine.ts:138-139 | a resumed run starts at the round after the ledger's last |
| `BrokerLedger.CommitWithoutEntryIff` | src/broker/state-machine.ts:535-573 | on a sound ledger whose next round is the run's first, a commit without an entry is there exactly when the round it stopped in was committed and its sha could not be read or the entry schema refused its body |
| `BrokerLedger.FreshRunNeedsFreshLedger` | src/broker/state-machine.ts:535-573 | a run that does not resume records nothing on a ledger that already has rounds, and leaves a commit behind exactly when its first round gets that far and git makes one |
| `BrokerLosses.UnreadCommitHasNoEntry` | src/broker/git.ts:46-69 | such a run: the commit is made, its sha cannot be read, the run throws with one commit and no entry |
| `BrokerLosses.SecondRunHasNoEntry` | src/broker/state-machine.ts:138-139 | such a run: started again on the ledger of a finished run without resuming, it makes one commit, the ledger refuses the round, and nothing is recorded |
| `FuzzDriver.Machine.ReplaysWithSignature` | src/detection/libfuzzer-driver.ts:282-297 | a replay counts only when it ended in time, not with exit 0, and reported the same signature; the replay is noted either way |
| `FuzzDriver.Machine.EmitCrash` | src/detection/libfuzzer-driver.ts:224-280 | replay, minimize, replay and copy equal the model: clock, files, finding and note |
| `FuzzDriver.Machine.Drive` | src/detection/libfuzzer-driver.ts:75-211 | the restart loop with all its exits equals the recursive model: outcome, clock, shipped files |
| `FuzzDriver.Machine.RunFuzzers` | src/detection/fuzz.ts:30-75 | the loop over harnesses equals the recursive model: runs, collected findings, clock |
| `FuzzLog.HarnessTells` | src/detection/libfuzzer-driver.ts:118-211 | one harness, told from its log: every start had more than a second left and 15 seconds' grace; it goes on after every crash of which it or the one before was new, and stops only on no crash, a second stale one, the 32nd start or the end of its time; it reports each new crash that replays, confirmed, with the command that replays it, or nothing at all if it broke |
| `FuzzFacts.HarnessStaysInBounds` | src/detection/libfuzzer-driver.ts:127-193 | a harness starts at most 32 times and at most 2 * (signatures seen) + 1 times; each signature is emitted at most once and each finding has its own |
| `FuzzFacts.EmitReportsIff` | src/detection/libfuzzer-driver.ts:233-256 | a crash becomes a finding exactly when its own artifact shows it again, and the minimized input ships exactly when it was made in time and shows it too |
| `FuzzFacts.ShippedIsReplayed` | src/detection/libfuzzer-driver.ts:233-259 | every shipped artifact, and the raw input beside it, was itself replayed in that pass and showed a signature with the finding's id |
| `FuzzFacts.ShippedIsItsOwn` | src/detection/libfuzzer-driver.ts:253-259 | in one pass, findings with pairwise distinct ids all ship an input that was seen to show their own signature; and where no input showed two signatures, only then do they |
| `FuzzFacts.ClashingIdsSwapArtifacts` | src/detection/libfuzzer-driver.ts:253-259 | for any two signatures that share an id, a target on which the first finding points at an input never seen to show it |
| `FuzzFacts.OwnArtifactsIffInjective` | src/detection/libfuzzer-driver.ts:233-259 | every pass over every target ships each finding its own crash exactly when no two signatures share an id |
| `FuzzFacts.ShortIdsSwapSomewhere` | src/detection/libfuzzer-driver.ts:253-259 | ids of a prefix and twelve hexadecimal digits are never injective, so there is a target on which some finding points at an input never seen to show it |
| `FuzzPasses.PassCollectsAll` | src/detection/fuzz.ts:53-74 | a pass runs harness after harness, each with an even share of the budget from the clock and files the one before left, reports each one's own run, and collects all they found in their order, as many as they said |
| `FuzzPasses.CollectedIsStillShipped` | src/detection/fuzz.ts:57-74 | after a pass over harnesses with distinct slugs for ids: the artifact of every collected finding, and its raw input, are still the ones its own harness replayed and saw crash with the finding's id, and with its own signature if the ids of that harness differ |
| `FuzzFacts.DriveIsTimely` | src/detection/libfuzzer-driver.ts:118-147 | if every process is back by its timeout, the loop is over by its deadline + 15 s + 180 s, or never started |
| `FuzzFacts.PassIsTimely` | src/detection/fuzz.ts:53-74 | a pass over n harnesses is over within the total budget + 195 s * n |
| `FuzzFacts.OneRunPerHarness` | src/detection/fuzz.ts:57-74 | a pass reports exactly one run per configured harness, in order |
| `LineSplitter.Splitter.DecodeChunk` | src/transport/tap.ts:18-18 | streaming decode carries its state from chunk to chunk |
| `LineSplitter.Splitter.Push` | src/transport/tap.ts:17-26 | after any chunk the listener has heard exactly the finished lines of all the text so far, and the buffer holds the unfinished one |
| `LineSplitter.Splitter.Flush` | src/transport/tap.ts:27-33 | flushing emits the last line if it is not blank and empties the buffer |
| `LineSplitter.SplitStream` | src/transport/tap.ts:9-35 | for every cutting of a stream into chunks, pushing each and flushing emits the lines of the whole decoded text, split, trimmed, without blanks |
| `LineSplitter.HeardOne` | src/transport/tap.ts:19-24 | of one piece the listener hears nothing if it is white space, and otherwise what trimming leaves of it |
| `Shell.QuoteIsOneWord` | src/detection/exec.ts:88-91 | `shellQuote(v)` lexes to the single word v for every v without NUL, and to nothing for a v with one |
| `Shell.QuoteReads` | src/detection/exec.ts:88-91 | quoting is read back in the middle of a word as well as at the start of one |
| `Shell.CommandReads` | src/detection/semgrep.ts:70-82 | any command joined from plain words, quoted values and pipes lexes back to its intended arguments |
| `ReproCommands.SemgrepReproReads` | src/detection/semgrep.ts:70-82 | the Semgrep repro lexes to its two argument lists, for every ruleset, path and rule without NUL |
| `ReproCommands.OsvReproReads` | src/detection/osv-scanner.ts:65-74 | the OSV repro lexes to its two argument lists, the lockfile in one word with its option |
| `ReproCommands.LibFuzzerReproReads` | src/detection/libfuzzer.ts:52-55 | the libFuzzer repro lexes to `!`, the harness, the timeout and the artifact |
| `ReproCommands.JazzerReproReads` | src/detection/jazzer-js.ts:83-92 | the Jazzer.js repro lexes to `!` and its five arguments |
| `Semgrep.KeepsTheOutermost` | src/detection/semgrep.ts:108-135 | no kept match strictly contains another of the same rule and file; every dropped one is strictly contained in a kept one; matches without offsets stay; order is preserved |
| `Semgrep.KeptIff` | src/detection/semgrep.ts:108-135 | offset by offset: a match is dropped exactly when another of the same rule and file starts no later, ends no earlier, and spans more |
| `Semgrep.KeptAsOften` | src/detection/semgrep.ts:126-134 | a kept match is kept as many times as it was reported |
| `Semgrep.FilterIsIdempotent` | src/detection/semgrep.ts:108-135 | filtering again changes nothing |
| `PathScope.RealPathOfNearestExisting` | src/policy/exclusions.ts:33-48 | the walk terminates and yields the resolved nearest existing ancestor with the missing tail put back in its original order, or the path itself when nothing exists |
| `PathScope.NearestIsNearest` | src/policy/exclusions.ts:37-47 | the ancestor it stops at exists, and no longer prefix does |
| `PathScope.TestExcluded` | src/policy/exclusions.ts:68-78 | excluded exactly when some leading part of the path, in whole segments, matches |
| `PathScope.CheckPath` | src/policy/exclusions.ts:84-107 | the gate decides as the model does |
| `PathScope.WalkIsStepwise` | src/policy/exclusions.ts:33-48 | joining goes segment by segment: a name goes down, two dots go up, one dot stays |
| `PathScope.AllowedIff` | src/policy/exclusions.ts:84-107 | allowed exactly when the path is not blank and lands on the root plus segments with no `..`, the first not starting with two dots, and no excluded leading part; excluded exactly when all but the last of that holds; empty exactly when it is blank |
| `PathScope.TwoDotsAreRefused` | src/policy/exclusions.ts:94-96 | a file at the top of the target whose name starts with two dots is refused as outside, though its place is inside |
| `PathScope.AllowedLandsOutsideIff` | src/policy/exclusions.ts:28-48 | an allowed path lands outside exactly when the first of it that does not exist is a link all the same, and what that link leads to lands outside, for any number of hops |
| `PathScope.AllowedLandsInside` | src/policy/exclusions.ts:54-60 | where no such link is in the way, an allowed path lands where the gate says, inside the target |
| `PathScope.LinkToNowhereLandsOutside` | src/policy/exclusions.ts:37-40 | such a disk and such a path |
| `PathScope.ExclusionIsInherited` | src/policy/exclusions.ts:68-78 | everything underneath an excluded path is excluded |
| `PathScope.SplitOfJoin` | src/policy/exclusions.ts:69-73 | joining segments and splitting them again gives them back |

## Left out

- JsonCanonical.CanonicalIffSame: numbers are integers, without fractions or exponents, and strings hold Unicode scalar values, so lone surrogates do not occur; JavaScript's own ordering of integer-like keys and its treatment of `__proto__` are not modelled.
- JsonRoundTrip.ParseOfStringify: the same values. The reader refuses a number that is not whole, which every number field of the entry schema refuses too, and it reads decimals exactly, without rounding to a double. `AnswerScan` does not use this reader: there `JSON.parse` is a parameter, and object texts are those of the full grammar.
- LedgerTamper.SameHeadSameLedger: SHA-256 is a parameter, and the digest is asked to separate only the texts being compared, because no digest of 64 characters is injective. The same goes for the edit lemmas.
- LedgerTamper.EditedLineVerifiesIff: an edited line that spells a lone surrogate is not read here, though `JSON.parse` would read it; and a number `JSON.parse` would round to a whole one is not whole here.
- Ledger.LedgerWriter.AppendBody: of the entry schema the round, the two hashes and the default for `verdicts` are modelled; every other field check is one arbitrary predicate on the fields. A missing ledger file is an empty one; other read errors are not modelled.
- Broker.RunLoop: prompts, transcripts, emitted events, the router table and the wording of notes and error messages are not modelled; a turn is an oracle that answers, aborts or fails, with transport, timeouts and schema checks inside it.
- Broker.Run.CommitRound: git is a count of commits and a sha; what a commit contains depends on an index this code does not own.
- BrokerEvidence.OtherFindingsWereRun: that detectors call only crashes confirmed is a hypothesis about what they reported in the run, since other detectors may be plugged in.
- FuzzFacts.DriveIsTimely: time passes only in the processes the loop starts; reading files and reports takes none.
- FuzzFacts.ShippedIsReplayed: processes change only the files they are asked to write; the corpus and the temporary workspace are part of what the processes may answer.
- FuzzDriver.Machine.RunFuzzers: the deduplication of the collected findings, crash-report parsing, finding locations and descriptions are parameters or not part of this model.
- LineSplitter.SplitStream: the decoder is any state machine over bytes; what `TextDecoder` does with malformed input is inside it. Bytes of an unfinished character at the end are dropped, as in the code.
- Shell.CommandReads: text with an unquoted character that is special to the shell, other than blanks, quotes, backslash and the pipe, is not read at all; no command here has one. Running the commands is not modelled.
- PathScope.CheckPath: POSIX paths as lists of segments, so a trailing slash makes no difference; which paths exist, where they really are and which the glob patterns match are parameters.
- `raisedCandidate` and `huntFindingId`: the id and the finding schema are parameters of the configuration.
- Building, the command line, configuration loading, the OSV and Semgrep output schemas, permission handling and the adapters are not part of this model; they would add single-branch facts.
