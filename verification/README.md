# sql-auditor: a verified model of its hard logic

sql-auditor collects diagnostic facts from SQL Server. This project models the parts of it whose
mistakes cost data or trust, and proves what they promise. None of them needs the database.

| file | what it models |
|---|---|
| `Scanner.dfy`, `Quoting.dfy` | the six-state T-SQL byte scanner, its two rewriters, and the printers that must match it |
| `Lint.dfy`, `LintFacts.dfy` | the recursive statement lint: executed literals, nested dynamic SQL, what cannot change the verdict |
| `HintScan.dfy`, `HintLint.dfy` | the statement scanner that credits query hints, and what it accepts |
| `HintPrint.dfy`, `HintTokens.dfy`, `HintParens.dfy`, `HintTop.dfy`, `HintClause.dfy`, `HintRoundTrip.dfy`, `HintMeaning.dfy` | statements as they are written: a grammar, its text, the scan that gives it back, and which statements return rows, read, or are refused |
| `ContractLint.dfy` | the lint of a whole script: statement rules, hint contract at every level, result count |
| `Scope.dfy`, `Target.dfy`, `Window.dfy`, `Superseded.dfy` | what a same-day rerun must have collected, from which server and over which Query Store window, before the run it replaced is deleted, over any history |
| `Causes.dfy`, `RunLoop.dfy` | contexts that keep their first cause, a unit's classification, the unit loop and its exit code |
| `Watch.dfy`, `WatchProgram.dfy` | the blocking watch: every interleaving of its critical sections, and the object itself |
| `Dial.dfy` | the sockets of a connection attempt, in every interleaving of dial, login and deadline |
| `Plan.dfy` | which collector runs on which database, in what order, and the ceiling announced for it |
| `Collecting.dfy` | one whole run, from the plan through the loop to the record it leaves, and any history of such runs |
| `Encode.dfy`, `EncodeTree.dfy`, `EncodeDocument.dfy`, `Text.dfy` | the ordered JSON tree built from dotted aliases, as a value and as nodes changed in place, and the document of several result sets |
| `DotEnv.dfy` | the `.env` reader and in-place editor |
| `Naming.dfy`, `Decimal.dfy` | safe, distinct folder and file names |
| `Episodes.dfy` | blocked-process reports grouped into numbered episodes |
| `Options.dfy` | an optional value |

How to read it. A loop of the program is a method with invariants, proved against a function or a
predicate; the promises are lemmas about that function or predicate. What the program cannot decide (the server, the
driver, goroutine order, the moment a context is cancelled) is a parameter: a list of events
placed anywhere, a sequence of steps taken in any order, or an answer handed in. `hide` statements keep the
proofs small; they hide definitions that a proof does not need and assume nothing.

## Findings

Each of these is a lemma with an input that shows it, beside the exact condition under which the
promise does hold.

- **The deletion gate has one hole.** A skip for `QUERY_STORE_DB_INCLUDE` never counts as a loss
  (collect/collect.go:732-752), because the setting itself is compared. If a script becomes
  subject to that narrowing between two runs of the same setting (it gains a `@writer`), its results on the
  databases the pattern leaves out are lost and the comparison names nothing:
  `Superseded.GateMissesANewlyNarrowedScript`. `Superseded.GateExact` says the gate is right if and
  only if no result was narrowed away; `Superseded.GateSound` and `Plan.PlanObeysInclude` say the planner
  guarantees that when the same scripts are narrowed in both runs.
- **A withheld address joins two servers.** Two runs are compared by address only when both record
  one (collect/collect.go:913-917), and an address holding an `@` or the password is withheld
  (collect/collect.go:978-986). Two servers of one name at two addresses, with such a run between theirs, lose the
  first server's result: `Superseded.WithheldAddressLosesAServer`. Being the same target passes through a run, whatever the
  runs before and after it, if and only if that run records its address: `Target.PassesExactly`. The name passes in any case.
- **A window slides away.** Two sliding windows are compared by length and any other two by their
  ends (collect/collect.go:803-821), so each run of a chain can keep the window of the one before and the last not keep
  the first: a weekly run, another a minute later and one since the start of the second leave a single run without the first minute,
  `Superseded.WindowLostInAHistory`. In a chain of any length the last run keeps the window of the first, whatever was
  asked of the runs and in whatever zone the server is, if and only if the first and the last slide or no two neighbours do:
  `Window.WindowPassesExactly`.
- **A result with unread areas replaces a whole one.** A collector that a lock kept from part of its
  database leaves a document that says so, a count in the manifest and exit code 0 (collect/collect.go:3094-3102,
  collect/manifest.go:283-290), and the comparison asks only whether the result is there (collect/collect.go:492-494):
  `Superseded.PartReplacesTheWhole`. `Superseded.GateKeepsWholeExactly`: of two such runs, whatever their documents
  report, whole results stay whole through the gate if and only if the later manifest's count is 0.
- **A stale sample can cancel the next unit, and a late identity can be filed under it.** The watch
  recognises a sample by session id alone (collect/watch.go:255, 281), and recycling a connection normally keeps the session
  (collect/collect.go:3268-3279): `Watch.SameIdLetsASampleThrough`, `Watch.SameIdFilesAnIdentity`. In every interleaving
  samples stay with their unit, and a unit's record holds only sessions seen waiting on it, exactly when no two
  units are watched under one id (for the record, or no identity is ever read): `Watch.KeptApartExactly`, `Watch.NamedApartExactly`.
- **An emptied setting can swallow its comment.** Saving an empty value over `SQL_USER=sa # note`
  leaves `SQL_USER= # note`, which reads back as the value `# note`: `DotEnv.EmptyValueTakesTheComment`. For
  every other value without quotes, line breaks, ` #` or outer space the file reads back as saved; `DotEnv.UpdateDotEnv`
  gives the condition for the whole file, both ways. The
  assistant does save an empty user (tui/run.go:533).
- **A cursor over a common table expression is counted as a result set.** The SELECT a cursor is
  declared for is told by the FOR before it, which is only asked when no WITH opened the statement
  (collect/hintlint.go:311-321): `HintMeaning.CursorOverTableExpression`. `HintMeaning.CursorNoticed` says a cursor's SELECT is
  told from others exactly when no common table expression precedes it. The script is then refused, so the mistake is loud.
- **Episodes of negative waits.** The longest wait starts at -1 and is printed as 0
  (collect/blockedprocess.go:329, 361-363), so an episode whose waits are all negative prints 0 like one that waited
  0 ms but sorts after it: reports of two sessions with waits of -5 and 0 are listed the other way round,
  `Episodes.NegativeWaitsSortLast`. `Episodes.ListOrder` says the printed ties of any reports are in
  first-seen order exactly when no all-negative episode was seen before one whose longest wait is 0. Nothing here shows that a
  capture can hold a negative wait; the source guards against one.

## Model

| member | source | states |
|---|---|---|
| Scanner.ScanByte | collect/queryset.go:888-968 | one turn of the loop, in place: it writes the class of the byte read and of the second byte of a pair, touches no other, and moves to the state the specification's step gives |
| Scanner.ClassifySQL | collect/queryset.go:876-970 | the array it fills is the specification's classes of the whole text |
| Scanner.Rescan | collect/queryset.go:876-970 | a text edited where the scanner cannot notice (comments turned to blanks, literal contents changed with quote pairs kept) is scanned to the same classes, the dropped comments as code, from any state |
| Scanner.RewriteSQL | collect/queryset.go:976-1013 | the builder's text is the specified rewrite, for every combination of the two flags |
| Scanner.RewriteKeepsClasses | collect/queryset.go:976-1013 | classifying stripped text gives the original classes with comments as code; classifying blanked text gives the original classes |
| Scanner.RewriteTwice | collect/queryset.go:976-1013 | two rewrites equal the single pass that does what either does |
| Scanner.StripAndBlankCommute | collect/queryset.go:1021-1023 | stripping and blanking commute, equal the combined pass and are idempotent |
| Scanner.RewriteLeavesNothing | collect/queryset.go:976-1013 | no comment is left after stripping and nothing but blanks and line breaks in a literal after blanking |
| Scanner.RewriteKeepsLines | collect/queryset.go:924-939 | a rewriter keeps the length, moves no byte and neither adds nor removes a line break |
| Quoting.UnescapeDouble | collect/grants.go:152-154 | undoubling a doubled text gives it back, any run of quotes included |
| Quoting.ScanDelimited | collect/queryset.go:902-966 | doubled contents never leave the delimited state; the closing delimiter ends it unless the same one follows, when it is half of an escape |
| Quoting.QuoteIdentScans | collect/grants.go:118-120 | a quoted name is read as one bracketed identifier and the scan is back in code exactly after its last byte, unless `]` follows |
| Quoting.QuoteLiteralScans | collect/grants.go:152-154 | the same for a quoted literal, with the class of every byte |
| Lint.NormalizeSeparators | collect/statementlint.go:275-293 | the buffer holds the text with every separator the server accepts made a space, line breaks and tabs kept |
| Lint.ExecutedLiterals | collect/statementlint.go:426-445 | the loop collects the contents of exactly the specified literals, unescaped and in order |
| Lint.ExecutedQuoted | collect/statementlint.go:426-466 | executing a quoted literal among plain code yields exactly the string that was quoted, if it is not empty and the code opens an execution, and otherwise nothing |
| Lint.AcceptedMeaning | collect/statementlint.go:240-255 | a text is accepted if and only if the rules accept every text it executes, at every level, and none lies more than three levels down |
| LintFacts.NormalizeKeepsClasses | collect/statementlint.go:270-293 | normalising separators never changes how a byte is classified |
| LintFacts.PrepareTwice | collect/statementlint.go:226-241 | preparing a text twice, or after its comments are stripped, is preparing it once |
| LintFacts.CommentsDoNotMatter | collect/statementlint.go:226-241 | stripping a script's comments or normalising it never changes the verdict, at any depth |
| LintFacts.LiteralCloses | collect/queryset.go:955-967 | a run of literal bytes ends at its own closing quote and no other run begins right there |
| LintFacts.SameExecuted | collect/statementlint.go:426-466 | blanking the literals that are not executed changes neither which are executed nor their contents |
| LintFacts.UnexecutedLiteralsDoNotMatter | collect/statementlint.go:240-255 | on prepared text, whatever an unexecuted literal holds, the verdict is the same |
| LintFacts.NestExecutes | collect/statementlint.go:426-466 | one level of EXEC('...') executes exactly the text below it, its separators normalised |
| LintFacts.DeepNestingRefused | collect/statementlint.go:204-247 | dynamic SQL nested more than three deep is refused whatever the rules accept |
| ContractLint.DynamicHintLint | collect/queryset.go:1217-1231 | the recursive method computes the specified verdict |
| ContractLint.DynamicMeaning | collect/queryset.go:1214-1231 | it accepts exactly when every text executed down to the depth limit is hinted |
| ContractLint.CheckContract | collect/queryset.go:1182-1212 | accepted exactly when the head settings, the hints at every level it looks at and the number of returning statements agree |
| ContractLint.LintScript | collect/queryset.go:1053-1074 | a script is accepted if and only if it and every text it executes, however deeply, obeys the statement rules and the hint contract, and it returns as many result sets as declared: the hint rules' own depth limit hides nothing |
| HintScan.GoodStep | collect/hintlint.go:156-299 | every step moves forward, so the scan ends, and keeps the spans ordered |
| HintScan.ScanKeepsOrder | collect/hintlint.go:156-299 | on any text the spans are non-empty, in bounds, in order and disjoint, and a hinted statement ends exactly at an OPTION clause inside it |
| HintLint.ScanDataStatements | collect/hintlint.go:156-299 | the loop finds the specified statements and stray subqueries |
| HintLint.SkipBracketed | collect/hintlint.go:181-191 | a bracketed name is stepped over to its own closing bracket, escapes included |
| HintLint.ScanToken | collect/hintlint.go:218-293 | a word or number is read to its end and does what the specification's step does |
| HintLint.CheckHints | collect/hintlint.go:420-442 | accepted exactly when every reading statement is hinted and no subquery is stray; a refusal points at the first that offends |
| HintLint.EmittingStatements | collect/hintlint.go:478-488 | the texts of the statements that return rows, in order, cut at their spans |
| HintClause.HintAtHint | collect/hintlint.go:118-130 | the contract's own clause is recognised and ends at its closing parenthesis |
| HintRoundTrip.PrintThenScan | collect/hintlint.go:156-391 | printing statements and scanning the text gives them back in order, with kind, span, hint and flags, and finds exactly the subqueries outside them; the grammar has common table expressions, INSERT ... SELECT, UPDATE ... SET, the actions of MERGE, CASE ... ELSE ... END at any depth, UNION, EXCEPT and INTERSECT, parentheses, table hints, numbers, variables, assignments, temporary, bracketed, quoted and dotted names, and text that is no data statement |
| HintMeaning.EmitsMeaning | collect/hintlint.go:99-109 | a printed SELECT returns rows exactly when it has no INTO, its list does not begin with an assignment and it is not a cursor's without a common table expression; an INSERT, UPDATE, DELETE or MERGE exactly when it has an OUTPUT (an INSERT's before its source) and no INTO after such an OUTPUT |
| HintMeaning.CursorNoticed | collect/hintlint.go:304-321 | a cursor's SELECT is told from others exactly when no common table expression precedes it |
| HintMeaning.CursorOverTableExpression | collect/hintlint.go:304-321 | the same cursor returns no rows without a common table expression and is counted as returning some with one |
| HintMeaning.ReadsMeaning | collect/hintlint.go:80-97 | a printed SELECT reads when it names a table, holds a subquery or returns rows, an INSERT when a SELECT is its first source or it holds a subquery, any other statement always |
| HintMeaning.PrintedAccepted | collect/hintlint.go:415-442 | a printed script passes the hint rules if and only if every statement that can read carries the hint and no subquery stands outside the statements |
| Scope.CollectorsLost | collect/collect.go:629-696 | the report names every lost unit under its collector and reason, with its database, and nothing that was not lost |
| Scope.DatabasesLost | collect/collect.go:586-611 | the databases named, and set apart, are exactly those the later run did not read or lost on the way |
| Scope.ScopeLost | collect/collect.go:557-613 | a loss is reported if and only if it is one, over options, opt-outs, profile, settings, databases and collectors |
| Superseded.NothingNamed | collect/collect.go:548-613 | an empty report is exactly the absence of any loss |
| Superseded.EverySkipLoses | collect/collect.go:698-752 | once nothing else was lost, a skip of a result loses it for every reason but the Query Store narrowing |
| Target.SameAddressThrough | collect/collect.go:925-942 | being the same address passes along, parsed or not |
| Target.SameThrough | collect/collect.go:904-931 | the server's name passes along a chain of replaced runs, and the address and database too when the run between records its address |
| Target.PassesExactly | collect/collect.go:904-931 | being the same target passes through a run, for all runs before and after it, if and only if the run records its address |
| Target.WithheldAddressPasses | collect/collect.go:911-917 | through a run without an address two different targets pass for one |
| Window.SlidingWindow | collect/collect.go:1911-1919 | a window without typed bounds is always resolved, ends at the run's start and is exactly its days long |
| Window.RecordedReads | collect/collect.go:2471-2480 | what the manifest records of a request reads back: whether it slides, its days, and its ends when it was resolved |
| Window.KeepsMeaning | collect/collect.go:800-821 | the comparison of two records is the comparison of the windows: by days when both slide, by ends otherwise |
| Window.RecordedIsExact | collect/collect.go:1911-1919 | every record of a sliding window is resolved and spans exactly its recorded days |
| Window.KeptIs | collect/collect.go:800-821 | a kept window is never shortened; it is kept exactly when it lies in the later one or, both sliding, the later one is not shorter |
| Window.WindowThrough | collect/collect.go:800-821 | along a chain of kept windows of any length the last keeps the first when both slide, or when no two neighbours do |
| Window.FirstMinuteIsLost | collect/collect.go:800-821 | two weekly windows and one since the second's start: each keeps the one before, and the first minute is lost |
| Window.WindowPassesExactly | collect/collect.go:800-821 | for every pattern of sliding and typed windows, of any length, that condition is exact |
| Superseded.WindowLostInAHistory | collect/collect.go:800-821 | three complete runs leave the last alone on disk, without the first one's window |
| Superseded.PreviousRunLost | collect/collect.go:827-870 | the replaced run may go exactly when its manifest can be read, nothing shows another server and nothing is lost; otherwise the first of these reasons is given, the losses being those of two runs not shown to be of two servers |
| Superseded.GateKeepsWholeExactly | collect/manifest.go:283-290 | over all documents of two runs that pass the gate, whole results stay whole exactly when the later run's count of documents in part is 0 |
| Superseded.PartReplacesTheWhole | collect/collect.go:3094-3102 | a complete run whose only document has an unread area replaces one whose document was whole |
| Superseded.GateKeepsValues | collect/collect.go:767-821 | a comparison that names nothing keeps the query count, the comparison instant and the window: its length when both runs slide, its ends when either fixed it |
| Superseded.GateExact | collect/collect.go:557-752 | after a run without errors that lost nothing by name, the later run covers the earlier if and only if it narrowed none of its results away |
| Superseded.GateSound | collect/collect.go:557-752 | with the same scripts narrowed in both runs, the later run covers the earlier |
| Superseded.GateMissesANewlyNarrowedScript | collect/collect.go:732-752 | without that hypothesis a result is lost unnamed |
| Superseded.CoversThrough | collect/collect.go:548-556 | coverage passes along a chain of reruns: results, databases, options, pattern list, query count and comparison instant |
| Superseded.SettleRun | collect/collect.go:412-417 | a run cut short never exits 0, and only exit 0 lets the replaced run go |
| Superseded.OnlyTheGateDeletes | collect/collect.go:2874-2909 | a collection deletes nothing but the run it replaced, and only through the gate |
| Superseded.StandsThrough | collect/collect.go:827-870 | a run that stands for an older one (same server, covering it) hands that over through the gate |
| Superseded.StandsKeepsWindow | collect/collect.go:800-821 | a run that stands for another keeps its window when both slide, and always when no sliding window replaced a sliding one |
| Superseded.CollectKeepsCover | collect/collect.go:295-352 | one more collection, of any kind, takes from no run what stands for it |
| Superseded.NothingIsEverLost | collect/collect.go:295-352 | over any history (complete, partial, stopped, cut, dead, kept) every run ever written is on disk or a run of the same server on disk covers it; by name always, by address and database when every run records them, and with a Query Store window that is never shorter, and that holds the first one when no sliding window replaced a sliding one |
| Superseded.EveryResultSurvives | collect/collect.go:827-870 | every result any run recorded is held by a run of the same server on disk, on its target or instance-wide |
| Superseded.WithheldAddressLosesAServer | collect/collect.go:904-931 | three complete runs after which one of two servers has no run left |
| Causes.CauseStays | collect/maxduration.go:28-42 | a context keeps its first cause, whatever lands later |
| Causes.CauseOfParent | collect/collect.go:2988-2994 | a bound seen by a call is the bound of its unit and of the run |
| Causes.BoundBeforeStop | collect/maxduration.go:35-42 | the bound is reached exactly when it fired before any stop |
| Causes.CutIsNotBlocked | collect/watch.go:663-671 | a call the bound stopped is never reported as the watch's doing, in any order of events |
| Causes.BoundIsNotBlamedWrongly | collect/collect.go:2958-2982 | each wording of a failure is written only about what stopped the call, and a server error keeps its own |
| RunLoop.CutUnitIsNotBlocked | collect/collect.go:2984-3162 | a cut unit has an error, is never blocked, and the bound was reached; only a written document leaves no error |
| RunLoop.SkipBefore | collect/maxduration.go:81-98 | a unit held back or on a dropped database is never claimed for the bound; otherwise the bound skips it exactly when reached |
| RunLoop.SkipUnit | collect/collect.go:2679-2692 | a skipped unit is accounted once, and counted as not started exactly when the bound skipped it |
| RunLoop.Recycle | collect/collect.go:2783-2792 | a session that can be recycled always goes on; one that cannot stops a stopped run, goes on under the bound, and gives the instance up exactly when neither has landed |
| RunLoop.AfterSuccess | collect/collect.go:2770-2795 | a stop ends the run before anything else is asked, the bound leaves the connection alone, and only then is it recycled |
| RunLoop.AfterFailure | collect/collect.go:2812-2859 | after a failure the stop is asked before the bound and both before the connection is tried; the instance is given up exactly when the connection is not good and neither the stop nor the bound has landed |
| RunLoop.Reopen | collect/collect.go:2698-2715 | a unit that closed its connection gets a new one unless a stop or the bound has landed, and failing to is blamed on the instance only when neither has |
| RunLoop.NoteDropped | collect/dropped.go:61-72 | a dropped database turns the unit into a skip and marks the database |
| RunLoop.NoteFailure | collect/cancel.go:51-65 | after a stop the error is dropped and the exit code left alone; otherwise the error is recorded once, and raises the exit code to 2 exactly when the bound did not cut the unit |
| RunLoop.Record | collect/collect.go:2717-2766 | the unit is reported done once and ends as one of ok, error or skip, unless the run was stopped; a watch cancellation marks its database |
| RunLoop.RunOne | collect/collect.go:2679-2860 | one turn keeps the accounts, and runs nothing on a database where the watch cancelled a collector or that was found dropped |
| RunLoop.RunUnits | collect/collect.go:2594-2909 | unless the run died or was stopped, every planned unit is reported done once and ends as exactly one of result, error or skip, and no run ends a unit twice; exit 0 means no error, no stop, no cut and an empty error list; exit 1 means a run that died, with no stop and no bound landed; the number not started is the number of skips for the bound and its flag is up exactly when it cut something; blocked and dropped databases stay left alone |
| RunLoop.BothFlagsMeanTheBoundFirst | collect/manifest.go:36-42 | a manifest with both flags was cut by the bound before the operator stopped it |
| WatchProgram.BlockingWatch.Arm | collect/watch.go:400-410 | the new state is the arming step's |
| WatchProgram.BlockingWatch.Disarmed | collect/watch.go:419-435 | the new state is the disarming step's; what is returned is the longest sample, its session's own identity and whether it fired |
| WatchProgram.BlockingWatch.BeginTick | collect/watch.go:230-236 | a poll begins exactly when a unit is armed, for its session |
| WatchProgram.BlockingWatch.PollFailed | collect/watch.go:237-250 | a bounded number of retries, then the watch is stopped for good |
| WatchProgram.BlockingWatch.PollAnswered | collect/watch.go:251-282 | a sample for another session or a finished unit is dropped; otherwise credit, cancel, identify in that order |
| WatchProgram.BlockingWatch.IdentityRead | collect/watch.go:277-287 | an identity is filed under the unit armed when it arrives if that unit is watched under the id it was read for, and dropped otherwise |
| Watch.StepKeeps | collect/watch.go:230-287 | every critical section, in any state it can be reached in, keeps the watch's invariant |
| Watch.WatchIsSafe | collect/watch.go:230-435 | in every interleaving a unit is cancelled at most once, on a sample polled for its own session id that had waited the limit; fired means exactly that the longest credited wait reached it; identity reads stay within their number |
| Watch.CancelsTheCurrentUnit | collect/watch.go:255-272 | only the unit armed at that moment is ever cancelled, only once and only by a poll's answer |
| Watch.DistinctIdsKeepUnitsApart | collect/watch.go:252-257 | with a session id per arming, no sample is credited to another unit |
| Watch.KeptApartExactly | collect/watch.go:252-257 | over all interleavings in which the loop disarms each of the given ids before it arms the next, samples stay with their own unit if and only if the ids are distinct |
| Watch.DistinctIdsNameTheirWaiters | collect/watch.go:273-283 | with a session id per arming, every session in a unit's record was seen waiting on that unit |
| Watch.SameIdFilesAnIdentity | collect/watch.go:277-283 | with one id for two armings, an identity read for the first is filed under the second, which nobody waited on |
| Watch.NamedApartExactly | collect/watch.go:273-283 | over the same interleavings, at every moment, a unit's record holds only sessions seen waiting on it if and only if the ids are distinct or no identity is ever read |
| Watch.SameIdLetsASampleThrough | collect/watch.go:252-257 | with one id for two armings, a sample polled for the first cancels the second |
| Dial.Attempt.Add | collect/dial.go:29-37 | the socket is recorded, or refused once abandoned |
| Dial.Attempt.Abandon | collect/dial.go:43-51 | every recorded socket is closed and none will be recorded again |
| Dial.Attempt.Dialed | collect/dial.go:60-71 | a refused socket is closed, an accepted one left as it is |
| Dial.StepKeeps | collect/watch.go:628-652 | every step of caller, worker or driver keeps the attempt's invariant |
| Dial.AbandonedLeavesNothingOpen | collect/dial.go:39-51 | once given up, what is open is only dials in flight, each closed and refused when it comes through |
| Dial.NothingOpensAgain | collect/dial.go:60-71 | however the run goes on, every later dial is in flight or was refused |
| Dial.NoConnectionIsLost | collect/watch.go:636-651 | a connection the worker delivers is returned, waiting, or closed |
| Dial.ReturnedIsNeverSwept | collect/watch.go:640-643 | a returned connection stays returned and its socket is never closed by an abandonment |
| Plan.OfferedFolders | collect/observer.go:190-216 | the list is the eligible databases whether or not it was copied |
| Plan.QueryStoreUnits | collect/collect.go:2078-2096 | kept and skipped databases are the two halves of the pattern's split, in order |
| Plan.PlanUnits | collect/observer.go:78-139 | the units in the order they run, the skips and the lint errors in plan order |
| Plan.StableSortIsTheSplit | collect/observer.go:117-137 | a stable sort by that comparison can only be all the cheap units, then all the costly ones, each in plan order |
| Plan.EveryDatabaseOnce | collect/observer.go:92-113 | each eligible database is paired or skipped exactly once, and none widened in for another purpose |
| Plan.UnitsComeFromThePlan | collect/observer.go:78-116 | a unit is planned if and only if a runnable script targets its database |
| Plan.SkipsComeFromThePlan | collect/observer.go:92-112 | a Query Store skip names a database the pattern took from a script that runs |
| Plan.PlanObeysInclude | collect/collect.go:2078-2096 | every run of a plan meets the deletion gate's hypothesis |
| Collecting.Collect | collect/collect.go:2556-2909 | the plan unfolded, its units run and settled: the loop ends within what the record promises, and exit 0 leaves every unit a result or a skip |
| Collecting.LeftObeys | collect/collect.go:2078-2096 | the record of any run of any plan meets the gate's narrowing hypothesis |
| Collecting.CollectionsAreHonest | collect/collect.go:481-502 | the record such a run leaves is everything the history theorem takes for granted |
| Collecting.NoResultIsEverLost | collect/collect.go:295-352 | over any history of planned runs, a unit that ended ok in any of them has its result in a run of the same server still on disk |
| Plan.PriceUnits | collect/duration.go:77-100 | the figures are the counts and timeout sums of the list and of its costly part, each costly collector named once |
| Plan.CeilingsAreTheSegments | collect/duration.go:77-100 | the two ceilings are the timeout sums of the two segments the run walks |
| Plan.AgainstIsTrue | collect/duration.go:162-184 | what is said about the units before the costly ones is true of the order the run follows |
| Encode.AliasParts | collect/encode.go:231-239 | an alias written between doubled brackets is that one name, dots and all; every other one is its parts joined by dots |
| Encode.InsertMeaning | collect/encode.go:58-82 | a column goes in exactly when its path neither equals nor prefixes another; the tree is then the object of one column more |
| Encode.InsertLeaves | collect/encode.go:58-82 | inserting adds exactly one leaf, at its path, with its value |
| Encode.BuildMeaning | collect/encode.go:199-229 | a row is built exactly when no path equals or prefixes another, its keys are in order of first appearance and its leaves are a permutation of the columns |
| Encode.RepresentsOnce | collect/encode.go:48-82 | no object, at any depth, has a property twice (section 4 of RFC 8259) |
| Encode.RepresentsUnique | collect/encode.go:48-54 | the columns determine the object, order and all |
| EncodeTree.Tree.Set | collect/encode.go:72-82 | in place, a property is appended, or refused exactly when its name is taken |
| EncodeTree.Tree.Child | collect/encode.go:58-70 | the object of that name, appended empty when nothing has the name; none exactly when the name holds a value |
| EncodeTree.Tree.Put | collect/encode.go:206-225 | setting a column in the linked nodes changes their value as Insert says, and refuses exactly when it does |
| EncodeTree.Tree.PutBelow | collect/encode.go:209-215 | a change below one child changes that property of the parent and no other, and the nodes stay apart |
| EncodeTree.BuildRow | collect/encode.go:199-229 | the loop returns a tree exactly when there is a value per column and the paths are prefix-free; its value is the one BuildMeaning describes |
| EncodeDocument.EncodeSet | collect/encode.go:127-182 | a result set is refused exactly when its shape, its row count or a row is wrong |
| EncodeDocument.Merge | collect/encode.go:72-95 | properties are appended in order, and refused exactly when a name would be there twice |
| EncodeDocument.EncodeSets | collect/encode.go:123-185 | a document comes out if and only if every result set is sound and no name at the top level repeats; it then holds, set after set, what each puts there |
| DotEnv.ParseDotEnv | collect/config.go:168-201 | the line loop computes the specified settings, or stops at a malformed line |
| DotEnv.NewTailReads | collect/config.go:249-264 | the rewritten value is read back, in every quoting and comment style, exactly unless it is empty in front of a comment |
| DotEnv.UpdatedLineReads | collect/config.go:233-266 | a line setting one of the keys then sets it to the new value under the same key; any other line stays byte for byte |
| DotEnv.LinesEdited | collect/config.go:233-266 | over all lines, duplicates included, only the given keys change, and to the new values unless lost to a comment |
| DotEnv.RewriteLines | collect/config.go:231-266 | the elements are rewritten in place and exactly the keys mentioned are noted |
| DotEnv.UpdateDotEnv | collect/config.go:224-283 | the file parses exactly when it did, and holds the old settings overridden by the new ones if and only if no new value is lost; the text is the edited lines, terminated, then the missing keys in order |
| DotEnv.EmptyValueTakesTheComment | collect/config.go:258-264 | emptying any setting that stands bare in front of a comment loses it |
| Naming.SafeFolderName | collect/output.go:57-83 | the rune loop computes a name that is not empty, holds no forbidden character, ends in neither dot nor space and is no device |
| Naming.SafeNameIsSafe | collect/output.go:57-83 | the same of every name at all, within a length |
| Naming.CandidatesDiffer | collect/output.go:101-103 | two generated suffixes never give the same name, case ignored |
| Naming.CandidateIsSafe | collect/output.go:97-106 | a generated name is as safe as the one it was made from |
| Naming.Unused | collect/output.go:101-103 | the unbounded search ends, with the first free candidate, within one try more than there are names taken |
| Naming.ResolveDatabaseFolders | collect/output.go:92-108 | every folder is safe, the first free form of its name, and distinct from all others ignoring case |
| Naming.ModuleFileName | collect/modules.go:237-245 | a file name is safe and free ignoring case, and remembered |
| Naming.ModuleFiles | collect/modules.go:227-245 | every module of a list gets a file of its own, ignoring case |
| Episodes.JoinedIsInjective | collect/blockedprocess.go:304-315 | the joined key is equal exactly when session, transaction, blocker and resource are |
| Episodes.Episode.Feed | collect/blockedprocess.go:331-355 | one report changes the episode's fields as specified, in place |
| Episodes.SummaryMeaning | collect/blockedprocess.go:317-355 | counts, first and last times and loops are the true extremes of the rows, and the details are those of the first longest wait |
| Episodes.FeedRow | collect/blockedprocess.go:320-331 | one row feeds the episode of its key or starts one, and changes no other |
| Episodes.StableSort | collect/blockedprocess.go:357 | a permutation with the longest wait first and ties in first-seen order |
| Episodes.NumberEpisodes | collect/blockedprocess.go:358-366 | numbering through the sorted list is seen through the keys |
| Episodes.GroupEpisodes | collect/blockedprocess.go:297-375 | one listed episode per key, each the summary of its rows, and two rows get the same number exactly when their keys agree |
| Episodes.ReportsAddUp | collect/blockedprocess.go:332-370 | the report counts of the list sum to the rows |
| Episodes.WaitsFromMinusOne | collect/blockedprocess.go:325-355 | an episode's kept wait is -1 exactly when all its reports' waits are negative, and 0 exactly when its longest is |
| Episodes.NegativeWaitsSortLast | collect/blockedprocess.go:297-363 | grouping the reports of two sessions, the first with a wait of -5 and the second of 0, lists the second first although both print 0 |
| Episodes.ListOrder | collect/blockedprocess.go:357-366 | for any reports, printed waits never grow along the list, and printed ties are in first-seen order exactly when no all-negative episode was seen before one whose longest wait is 0 |

## Left out

- The server, the driver, database/sql and the SQL corpus: their answers are parameters.
- The file system, locks and zip files: `Superseded.Disk` keeps only which runs exist under which name. A folder and its archive are one run.
- A byte is a `char`: texts are read one element at a time. The two- and three-byte separators of
  `normalizeSeparators` and the case of letters outside ASCII (`strings.ToUpper`, `(?i)` matching letters outside ASCII) are left to parameters or to ASCII.
- Lint.AcceptedMeaning: `scanStatements` and `procedureRule` are an arbitrary function of the blanked code; their word lists would only add cases.
- ContractLint.LintScript: the regular expressions on the head settings, `GO`, `FOR JSON` and the name inside USE HINT are one arbitrary predicate; messages are not worded.
- HintScan.HintAt: the two regular expressions are token matches.
- HintRoundTrip.PrintThenScan: one space stands between tokens, also around every dot of a name but
  its first, and no comment anywhere; a data statement ends with the hint or a semicolon, not where the next one begins; a
  hint is printed in its plain form, and no other OPTION clause is printed. A set operator in front of a query in parentheses is not in the grammar: the source names that form as one it misreads (collect/hintlint.go:41-45).
- Scope.CollectorsLost: reasons are constructors rather than sentences, and the lines are not sorted or counted.
- Target.OtherServer: `parseServer`, case folding and trimming are parameters; that an address reads the same whatever its case and outer space is a hypothesis of the results about addresses (`Target.CaseBlind`). Whether a manifest can be read is a field of a stored run.
- Window.Request: instants are whole seconds, as they are recorded; that a recorded number or date reads back (`Window.Reads`, but for a day at each end of the four-digit years) is a hypothesis, as is the wall clock of a zone.
- Superseded.Covers: the Query Store window is not part of it, because it does not pass along every chain; `Superseded.StandsFor` says what of it does. Nor are the areas a document could not read, which the program does not compare. The count of `Superseded.GateKeepsWholeExactly` is of the run's results; the manifest's also counts a unit whose document was then not written, which is an error and keeps the run out of the gate.
- Superseded.PreviousRunLost: the sentence is not worded, and its cut to five databases and five collectors is left out.
- Collecting.Left: the results of complete units stand before those of half-written ones, where the manifest has them by time; their order decides nothing.
- RunLoop.RunUnits: preflight, the manifest's other fields and the observer's figures are not modelled; a call's events all land before its error is looked at, which is the worst case the source guards against.
- Causes: `settled`'s wait for a late timer is not needed where an event is either in the history or not.
- Watch.WatchIsSafe: the pauses and reconnections of `retry` are a bounded number of failed polls; the times, wait types and identities themselves are abstract. The limits are positive, as the constants of collect/watch.go:30-80 are.
- Dial.StepKeeps: one caller and one attempt; sockets of other attempts and of the pool's own refills are idle connections.
- Plan.PlanUnits: how a script came to be skipped (`planScripts`, `skipReason`) and the pattern matching are parameters; `formatCeiling`'s wording is left out.
- EncodeTree.BuildRow: the walk along a path is a recursive method where the source has a loop; formatting a value (`encodeValue`, `encodeNumericText`) is abstract, and JSON escaping is left out.
- DotEnv.ParseDotEnv: the scanner's limit of one megabyte per line, the wording of a malformed line and the
  backup and rewriting of the file are left out. Keys and values are those of `DotEnv.Writable`; the program does not check a value before it saves it.
- Naming.SafeFolderName: case outside ASCII is an arbitrary character-by-character function.
- Episodes.GroupEpisodes: reading a cell (`int64At`, `stringAt`) is done, an absent wait being 0; writing the report files is left out.
- MANIFEST.txt, the grant script, TLS advice, the terminal interface and the per-collector writers are prose or straight counting.
- The host package's Windows calls and PowerShell are foreign code, and its helpers would only add easy members.
