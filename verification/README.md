# Proofs about Henson

Henson runs executables as coroutines that share one MPI job. This project models the parts of it that
decide things for every input and every run, and proves what they promise:

- **The packrat parser** (`ParseErrors`, `Grammar`, `Meaning`, `Laws`, `Semantics`, `Lines`, `ParserState`,
  `Packrat`). Combinators are data; plain parsing is a fuelled function and the outcome that enough fuel
  reaches. `Laws` says what each combinator does in terms of characters and of the outcomes of its parts. The
  parser state is a class with the lazy buffer, line table, memo tables and error object. Running any grammar
  on it, with memoization, gives the outcome of plain parsing: verdict, end, value and furthest-failure error.
- **The script grammar** (`Termination`, `Hwl`, `HwlChecks`). A check of a grammar that makes every parse
  end, and the grammar of workflow scripts passing it.
- **Scripts as text** (`HwlLexis`, `HwlScripts`, `HwlCommands`, `HwlIndent`, `HwlUnclosed`). Printed scripts and
  commands parse to themselves. How indentation becomes tokens, when these are the tokens of the blocks, and
  what is left of a script when they are not.
- **The job scheduler** (`Allocation`, `Scheduler`, `SchedulerProtocol`, `SchedulerJobs`, `SchedulerProgress`).
  The first-fit allocator as a value, the scheduler object that implements it, the system of controller and
  workers with their messages, and how its runs end.
- **Noncollective communicator creation** (`NoncollectiveComm`). Recursive doubling as a system of ranks
  that go round their loops at their own pace, and the loop of one rank.
- **The transfer between groups** (`Partners`, `Transfer`, `Redistribution`, `Rounds`). Partner lists, the
  protocol of requests, rounds and the stop, the bytes that are packed and joined, and both together.
- **Serialization** (`Bytes`, `MemoryBuffer.dfy` with module `Buffers`, `StridedArray`, `Serialization`).
  Nested boxed values, strided arrays, buffers and jobs as bytes.
- **The group executor** (`GroupExecutor`, `Executor`). The loop over puppets as a function of what the
  puppets do, and the objects that run it.
- **Groups and communicators** (`GroupSizes`, `ProcMap`). Dividing ranks among groups, and the stack of
  levels with its cached communicators.

`Arithmetic` has products and quotients defined by counting, which keeps block arithmetic out of the
nonlinear fragment; lemmas tie them to `*` and `/`. `Options` has the optional values.

Check everything with `dafny verify dfyconfig.toml`.

## How the model reads the program

- A message that is sent is queued until it is received. Messages of one pair of ranks and one tag stay in
  order (section 3.5 of MPI-3.1). Nothing else about the order of ranks is assumed: systems are sets of
  events that may happen in any order.
- An intercommunicator is made when all members of both groups have asked for it and each side names the
  first rank of the other (section 6.6.2 of MPI-3.1). Handles are numbers; each new one is fresh.
- Reading past the end of a buffer is undefined in the source, so methods that read require that it does
  not happen; the functions they are proved against have an outcome for it. Exceptions are outcomes too.
- Numbers are unbounded, except that serialized numbers are bytes of their width and that `Fits`
  predicates say what the source's types hold.
- The `off` field of the parser state is never changed by the source, so it is always zero and not modelled,
  and the error for forgotten state cannot occur.
- Characters are compared as code points. The source compares `char` values, which may be signed; with the
  bounds of the script grammar, all of them ASCII, both agree.

## Where the code differs from what one might expect

- `++` leaves a wrong line and column at the end of an input that ends with a newline, `+=` does not
  (`ParserState.State.Advance`, `ParserState.State.AdvanceBy`).
- Where two blocks of a script end at once, only one end is written. If a puppet or a group follows, the group
  that ends there and all that follows it are lost without any error (`HwlUnclosed.GroupIsLost`,
  `HwlUnclosed.NothingLeft`; the tokens are right exactly when `HwlIndent.TokensOfScript` says so). The parse of
  a script never fails (`HwlUnclosed.ScriptNeverFails`).
- A late answer of a job marks rank 0 as available. The search starts at rank 1, so this has no effect
  (`Allocation.AnswerInv`).
- `schedule` divides the size of the job, not what is left of it, among its open groups. The sizes add up,
  but the last can be negative, and with no open group the division is by zero (`GroupSizes.Divide`,
  `GroupSizes.LastShareNegative`, `GroupSizes.NegativeSize`). The map of groups accepts such sizes, and then
  the colour and the name of a rank can belong to different groups (`GroupSizes.NegativeLayout`; exactly when
  in `GroupSizes.OwnEntryExactly`, and for a divided job in `GroupSizes.RanksAgree`).
- Workers send no empty results. A job whose results are empty on all its ranks stays active, and the
  controller cannot finish (`SchedulerProgress.SilentJobBlocks`; exactly when in
  `SchedulerProgress.QuietMeansDone` and `SchedulerProgress.NothingStuck`).
- A receiver keeps the element size that its last partner names, even one without elements
  (`Redistribution.SizeLost`, with the exact condition in `Redistribution.Readable`).
- The group stops on a return of its control puppet in a statement; when that puppet is starred, a return
  at the end of the pass is not looked at, and the group can run on for good (`GroupExecutor.ReturnsUnseen`;
  exactly when in `GroupExecutor.StarredStops`, and never without a star by `GroupExecutor.EveryReturnCounts`).
- In synchronous mode the receiver can see the stop while data is queued (`Transfer.SynchronousLoses`,
  with the exact condition in `Transfer.LostExactly`).
- `pop_chai` does not reset the buffer before it loads (`Serialization.ResultArrives`).
- Copying a record with `MemoryBuffer::copy` cuts off what the target has behind the record, unlike
  saving (`Buffers.CopyIsSave`).
- The communicators made for a job in the worker loop and for the controllers by a scheduler are not freed by
  these or by the stack of levels, which frees only what it made (`ProcMap.JobWorldStays`, `ProcMap.WholeLife`).

## Model

| member | source | states |
|---|---|---|
| `ParseErrors.MergeAssociative` | include/henson/parser.hpp:94-101 | merging errors does not depend on grouping, so errors merged early and late give the same report |
| `ParseErrors.MergeCommutative` | include/henson/parser.hpp:94-101 | merging errors does not depend on order |
| `ParseErrors.MergeIsJoin` | include/henson/parser.hpp:94-101 | the merge is a least upper bound: it reports both sides, nothing more, changes nothing exactly when the other side is covered already, and is idempotent with the fresh error as its unit |
| `Grammar.Eval` | include/henson/parser.hpp:582-851 | plain parsing, defined by the combinators alone: a parser that fails leaves the cursor where it was and binds nothing; one that succeeds never moves back or past the input |
| `Meaning.FuelMonotone` | include/henson/parser.hpp:582-851 | an outcome once reached stays the same with more fuel |
| `Meaning.DenoteStep` | include/henson/parser.hpp:673-821 | the outcome of every combinator is what its text says in terms of the outcomes of its parts, ending parses and endless ones alike |
| `Meaning.DenoteManyStep` | include/henson/parser.hpp:694-701 | a repetition is one round followed by the same repetition |
| `Meaning.EnoughFuel` | include/henson/parser.hpp:582-851 | every parse that ends does so with all large enough amounts of fuel |
| `Meaning.NoProgressDiverges` | include/henson/parser.hpp:694-701 | repeating a parser that succeeds without moving never ends |
| `Meaning.SomeIsProgress` | include/henson/parser.hpp:815-821 | `some` succeeds exactly when `many` moves the cursor, which is what lets `memoize_some` test the cursor instead of counting rounds |
| `Semantics.MemoizeSomeLaw` | include/henson/parser.hpp:815-821 | `memoize_some` means what `some` means, without a bound value |
| `Laws.LiteralLaw` | include/henson/parser.hpp:592-600 | the character is taken exactly if it stands there; the end of the input stands for NUL |
| `Laws.LiteralStringLaw` | include/henson/parser.hpp:617-625 | a text is taken exactly if the input goes on with it, and nothing of it otherwise |
| `Laws.AnyLaw` | include/henson/parser.hpp:628-635 | any character but NUL is taken, and nothing at the end of the input |
| `Laws.BetweenLaw` | include/henson/parser.hpp:651-659 | a character is taken exactly if it lies between the bounds |
| `Laws.OptionLaw` | include/henson/parser.hpp:713-718 | `option` succeeds whatever its part does, and ends where its part ends |
| `Laws.LookLaw` | include/henson/parser.hpp:721-736 | `look` and `look_not` end where they start, and succeed exactly when their part does or does not |
| `Laws.BindLaw` | include/henson/parser.hpp:739-748 | `bind` and `unbind` keep verdict and end; one binds the value of the rule, the other none |
| `Laws.CaptureLaw` | include/henson/parser.hpp:824-831 | `capture` binds exactly the text between start and end of its part |
| `Laws.NamedLaw` | include/henson/parser.hpp:844-851 | `named` adds its name to the errors exactly on failure, unless something failed further on |
| `Laws.SequenceOk` | include/henson/parser.hpp:673-681 | parsers that match one behind the other match as a sequence, with their values in order |
| `Laws.SequenceKo` | include/henson/parser.hpp:673-681 | the first part that fails makes the sequence fail, back where it started and without a value |
| `Laws.ChoiceOk` | include/henson/parser.hpp:684-691 | the first alternative that matches decides end and value; `ChoiceKo` says that a choice without one fails |
| `Laws.ManyOk` | include/henson/parser.hpp:694-700 | a repetition takes as many matches as there are in a row, with their values in order |
| `Laws.ManyEndsSo` | include/henson/parser.hpp:694-700 | there is no other way for it to end: it has gone through matches up to a round that fails |
| `Laws.SomeOk` | include/henson/parser.hpp:703-710 | `some` does the same if there is one match at least; `SomeKo` says that it fails without one |
| `Lines.StartsSplit` | include/henson/parser.hpp:375-390 | the line-start table lists the starts up to an index first and only later ones after them |
| `Lines.LineColFromStarts` | include/henson/parser.hpp:340-391 | line and column counted from the table are those counted character by character |
| `Lines.StartsAre` | include/henson/parser.hpp:250-282 | the table has the start of the text and the index behind each newline, each once and in order, and nothing else |
| `ParserState.State.ReadOne` | include/henson/parser.hpp:250-262 | one character moves from the stream to the stored text, which stays a prefix of the input, and the line table follows |
| `ParserState.State.ReadMany` | include/henson/parser.hpp:268-282 | up to n characters are read, and as many as there are |
| `ParserState.State.Current` | include/henson/parser.hpp:300-304 | a read at the cursor agrees with indexing the whole input, with NUL at its end |
| `ParserState.State.Advance` | include/henson/parser.hpp:340-362 | the cursor moves one character if there is one; line and column stay those of the index, at the end of the input exactly when it does not end with a newline |
| `ParserState.State.AdvanceBy` | include/henson/parser.hpp:367-391 | the cursor moves n characters or to the end, and line and column are those of the index even there |
| `ParserState.State.MoveForward` | include/henson/parser.hpp:381-391 | the scan over the line table finds the line of the new index |
| `ParserState.State.TextAt` | include/henson/parser.hpp:403-449 | the text of a range is that of the whole input, cut at its end |
| `ParserState.State.LookUp` | include/henson/parser.hpp:452-466 | an entry found at the cursor is the plain outcome here, and all its errors are in the error object already |
| `ParserState.State.SetMemo` | include/henson/parser.hpp:474-485 | recording extends the tables to the position with empty ones, sets one entry and changes no other |
| `ParserState.State.AddError` | include/henson/parser.hpp:491-506 | an error at the cursor is merged in, and all recorded entries stay covered |
| `ParserState.State.MatchesString` | include/henson/parser.hpp:516-520 | a text matches exactly when the input continues with it, and only then moves the cursor behind it |
| `ParserState.State.MatchesAny` | include/henson/parser.hpp:534-540 | any character but NUL matches, so the end of the input does not |
| `ParserState.State.RunMemoize` | include/henson/parser.hpp:751-786 | a memoized run, hit or miss, agrees with the plain outcome on success, end, value and errors; the errors skipped on a hit were reported before |
| `ParserState.State.RunSequence` | include/henson/parser.hpp:673-681 | parts run in turn; the first failure resets the cursor and keeps the errors of all parts run |
| `ParserState.State.RunChoice` | include/henson/parser.hpp:684-691 | the first alternative that matches decides, with the errors of those before it |
| `ParserState.State.RunMany` | include/henson/parser.hpp:694-700 | the loop ends at the first failing round and agrees with the recursive meaning |
| `ParserState.State.ManyMemoized` | include/henson/parser.hpp:789-804 | the recursion that leaves an entry at every round start agrees with `many`, also when it joins a repetition halfway |
| `ParserState.State.RunMemoizeSome` | include/henson/parser.hpp:815-821 | success is that the cursor has moved, which is what `some` says |
| `ParserState.State.Run` | include/henson/parser.hpp:582-851 | every combinator, run on the state, agrees with its plain meaning and keeps all entries equal to plain outcomes; it ends when the plain parse does |
| `Packrat.Parse` | include/henson/parser.hpp:751-821 | for every grammar with one combinator for each memo id and every input, a memoized parse from a fresh state gives the verdict, end, bound value and furthest error of the plain parse |
| `Termination.Consumes` | include/henson/parser.hpp:673-821 | what the nullability analysis calls non-empty consumes a character whenever it succeeds |
| `Termination.Ends` | include/henson/parser.hpp:694-710 | in a well-ordered grammar every parser ends from every position of every input |
| `HwlChecks.HwlWellOrdered` | include/henson/hwl.hpp:173-414 | every repetition of the script grammar consumes in each round, and no rule enters itself again in place |
| `HwlChecks.HwlKeepsIds` | include/henson/hwl.hpp:173-414 | no two combinators of the script grammar share a memo id |
| `HwlChecks.HwlEnds` | include/henson/hwl.hpp:173-414 | parsing with any rule of the script grammar ends on every input |
| `Packrat.ParseHwl` | include/henson/hwl.hpp:173-414 | a script parsed with memoization is what plain parsing makes of it, and plain parsing always comes to a result |
| `HwlScripts.ScriptReads` | include/henson/hwl.hpp:173-414 | a printed script parses to itself and nothing is left: for all puppets, groups with nested conditions, and comments, the parse gives the trees of exactly these, in order, and ends with the text |
| `HwlScripts.PrintedStatement` | include/henson/hwl.hpp:258-308 | a printed call or condition is read to its end wherever it stands, with its star, its name and its nested body |
| `HwlCommands.CommandReadsItself` | include/henson/hwl.hpp:310-347 | a printed command parses to its texts and variables, with their defaults, in order; the empty text is no command |
| `HwlIndent.IndentToTokens` | include/henson/hwl.hpp:105-140 | the loop over lines and blanks writes a token where the indentation of a line differs from that of the last, and the ends of the blocks still counted at the end |
| `HwlIndent.TokensOfScript` | include/henson/hwl.hpp:105-140 | the tokens of a script with equally deep statements in each body are those of its blocks exactly when nowhere, but at the end of the script, two blocks end at once |
| `HwlIndent.WrittenScriptReads` | henson-hwl.cpp:156-169 | so such a script, indentation turned into tokens and parsed, gives the trees of its puppets and groups, and nothing is left |
| `HwlUnclosed.GroupIsLost` | henson-hwl.cpp:156-169 | where a group that ends with a condition stands before a puppet or another group, the parse ends before that group, with the trees of the parts before it alone, and succeeds |
| `HwlUnclosed.ScriptNeverFails` | henson-hwl.cpp:163-169 | the parse of a script succeeds on every input, so the error for a script that cannot be parsed is never reported |
| `HwlUnclosed.NothingLeft` | henson-hwl.cpp:156-169 | a group with a condition and a puppet behind it: of this script nothing is read, and the parse succeeds |
| `Allocation.FirstFit` | include/henson/scheduler.hpp:223-238 | the start found is free for the whole size and no smaller one is; the table size stands for none |
| `Allocation.StartInv` | include/henson/scheduler.hpp:75-85 | the scheduler starts with exactly the workers available |
| `Allocation.CanRunMeans` | include/henson/scheduler.hpp:223-238 | a job can run exactly when some workers in a row, as many as its size, are all available |
| `Allocation.RunJobTakes` | include/henson/scheduler.hpp:240-263 | a dispatched job gets exactly as many consecutive ranks as its size, all available before, none after, and from no smaller start could it get them |
| `Allocation.RunJobInv` | include/henson/scheduler.hpp:240-263 | a dispatch takes workers that no active job has; ranges stay apart and inside the workers, a worker is available exactly when no active job has it, and ids stay in one place each, in order |
| `Allocation.AnswerInv` | include/henson/scheduler.hpp:281-314 | every answer keeps that; the first for a job releases exactly the ranks of its range, a late one changes no active job and no availability of a rank other than 0 |
| `Allocation.RunJobProgress` | include/henson/scheduler.hpp:240-263 | a dispatch lowers 2 * queued + active by one |
| `Allocation.AnswerProgress` | include/henson/scheduler.hpp:303-306 | a first answer lowers it by one, a late one not at all |
| `Allocation.IdleFits` | include/henson/scheduler.hpp:118-121 | with nothing active the head of the queue fits exactly when it wants no more than all workers |
| `Allocation.RunJobsInv` | include/henson/scheduler.hpp:114-124 | the dispatch loop takes a front part of the queue in order, and leaves jobs queued with none active only if the first wants more workers than there are |
| `Scheduler.Scheduler.constructor` | include/henson/scheduler.hpp:75-85 | the table has the controllers taken and all other ranks available |
| `Scheduler.Scheduler.Schedule` | include/henson/scheduler.hpp:109-112 | the job goes to the end of the queue under the next id |
| `Scheduler.Scheduler.FindAvailableProcs` | include/henson/scheduler.hpp:223-238 | counting available ranks in a row finds the least start of a long enough run |
| `Scheduler.Scheduler.RunJob` | include/henson/scheduler.hpp:240-263 | the job at the head gets as many available workers in a row as its size, the first such; each of these ranks is sent one message with the job, no other rank any, and the job is active |
| `Scheduler.EachGetsOne` | include/henson/scheduler.hpp:251-255 | counted rank by rank, a message sent to each of a range reaches each of its ranks exactly once and no other rank |
| `Scheduler.Scheduler.DispatchAll` | include/henson/scheduler.hpp:114-124 | what is sent in the dispatch loop are the jobs taken from the queue, in order, each to all ranks of its range |
| `Scheduler.Scheduler.CheckForCompleteJobs` | include/henson/scheduler.hpp:281-314 | answers are taken in one by one with their results in order; the whole range of a job is released on its first |
| `Scheduler.Scheduler.Control` | include/henson/scheduler.hpp:114-124 | false exactly when nothing is queued or active; otherwise a job is active unless the head of the queue is larger than the workers |
| `Scheduler.Scheduler.Finish` | include/henson/scheduler.hpp:206-214 | if every active job is answered in some poll, the loop ends with none active and sends the stop to all other ranks |
| `SchedulerProtocol.StepInv` | include/henson/scheduler.hpp:126-214 | every message, dispatch, answer and worker step keeps the invariant of the whole system |
| `SchedulerProtocol.Safety` | include/henson/scheduler.hpp:114-314 | in every reachable state: active ranges apart and inside the workers, availability exact, every id in exactly one place, and each worker has run, runs or will run exactly the jobs sent to it in dispatch order |
| `SchedulerProtocol.EarliestIsFirst` | include/henson/scheduler.hpp:126-158 | the earliest dispatched job that is not finished everywhere is the running job or the head message of every worker that has been sent it and has not finished it |
| `SchedulerProtocol.DeadlockFree` | include/henson/scheduler.hpp:126-204 | while something is unfinished, a worker or a send can go on, although ranges are released on the first answer |
| `SchedulerJobs.JobsAsGiven` | include/henson/scheduler.hpp:109-204 | in every reachable state the k-th job scheduled is the k-th dispatched, on exactly as many ranks in a row as it was scheduled with, or is queued with its name and size |
| `SchedulerJobs.RunTakenByAll` | include/henson/scheduler.hpp:126-204 | over every run, a task that is finished on one rank has been begun on every rank of its range |
| `SchedulerProgress.EveryEventCounts` | include/henson/scheduler.hpp:126-314 | every event takes at least one step of those left; scheduling a job adds a number of steps that only the number of ranks decides |
| `SchedulerProgress.RunsEnd` | include/henson/scheduler.hpp:126-314 | no run is longer than the steps left at its start and those its new jobs add |
| `SchedulerProgress.RunsEndFromStart` | include/henson/scheduler.hpp:75-314 | from the start, a run has at most 3 * size + 1 events and 4 * size + 2 more for each job scheduled |
| `SchedulerProgress.RunCauses` | include/henson/scheduler.hpp:166-174 | over every run, each answer on its way and each finished job is of a job with a rank that gave a result |
| `SchedulerProgress.QuietMeansDone` | include/henson/scheduler.hpp:126-204 | when no worker has anything to do and no answer is on its way, all dispatched jobs have run on all their ranks, and a job is still active exactly when none of its ranks gave a result |
| `SchedulerProgress.SilentStays` | include/henson/scheduler.hpp:166-214 | a dispatched job none of whose ranks gives a result is active after every event, and the stop is never enabled |
| `SchedulerProgress.SilentJobBlocks` | include/henson/scheduler.hpp:166-214 | one worker and one job without a result: a run after which only more jobs can be scheduled and the job is active |
| `SchedulerProgress.NothingStuck` | include/henson/scheduler.hpp:114-214 | a system that stands still has run everything dispatched; the controller can end exactly when every dispatched job gave a result on some rank, and then no job that fits is queued and after the stop every worker has ended |
| `SchedulerProgress.RunsComeToRest` | include/henson/scheduler.hpp:75-314 | for every run from the start: at rest everything dispatched has run and the active jobs are those without any result; standing still, the controller can end exactly when there are none; and such a job keeps the stop away |
| `NoncollectiveComm.PostCall` | include/henson/mpi-noncollective-comm.h:32-51 | the parity branches choose the call of the round with the leaders of the block beside |
| `NoncollectiveComm.CreateComm` | include/henson/mpi-noncollective-comm.h:15-57 | one rank that is given its partner block as the other side in every round makes one call for each merge size 1, 2, 4, ... below the size of the group, and ends with the whole group in order and one communicator |
| `NoncollectiveComm.BlocksJoin` | include/henson/mpi-noncollective-comm.h:30-51 | two neighbouring blocks in order are the block of twice the size |
| `NoncollectiveComm.SkipInv` | include/henson/mpi-noncollective-comm.h:36-43 | a rank without a partner block goes on alone and keeps the block it is in |
| `NoncollectiveComm.MergeIsHalves` | include/henson/mpi-noncollective-comm.h:36-51 | calls that complete together are those of the two halves of one block of twice the size, whatever the ranks did before |
| `NoncollectiveComm.MergeInv` | include/henson/mpi-noncollective-comm.h:30-56 | a merge leaves every member with exactly the block of its round, ordered, and with one live handle |
| `NoncollectiveComm.MergeSides` | include/henson/mpi-noncollective-comm.h:36-51 | when two calls complete together, each side is what the loop of one rank is given as the other side, and what a member joins in the order of its call is the merged communicator |
| `NoncollectiveComm.DeadlockFree` | include/henson/mpi-noncollective-comm.h:30-56 | while some rank is in its loop, a rank can go on alone or two blocks wait for each other with mutual leaders |
| `NoncollectiveComm.RunInv` | include/henson/mpi-noncollective-comm.h:11-57 | every order of completion keeps the invariant and is bounded in length |
| `NoncollectiveComm.StopsWhole` | include/henson/mpi-noncollective-comm.h:11-57 | a run can only stop with every rank holding the whole group in order as its one communicator |
| `NoncollectiveComm.RoundsAtEnd` | include/henson/mpi-noncollective-comm.h:30-56 | when a run stops, every rank has gone round its loop exactly as often as the loop of one rank does: until the merge size is no longer below the size of the group |
| `NoncollectiveComm.RunGoesOn` | include/henson/mpi-noncollective-comm.h:11-57 | every run can be continued to one at whose end all loops have ended |
| `NoncollectiveComm.RunsAreShort` | include/henson/mpi-noncollective-comm.h:11-57 | a run of n ranks has at most n * (n + 1) steps |
| `Partners.PartnerRanks` | tools/send.cpp:77-102 | the list is built exactly when one size divides the other, else the tool gives up |
| `Partners.Mutual` | tools/receive.cpp:64-86 | a sender lists a receiver exactly when the receiver lists the sender, for all sizes of which one divides the other |
| `Partners.InOrder` | tools/receive.cpp:64-86 | partners are ranks of the other group, consecutive, and rank 0 starts with rank 0 |
| `Transfer.BetweenValid` | tools/send.cpp:77-102 | the partner lists of the tools are lists as the protocol needs them |
| `Transfer.StepInv` | tools/send.cpp:104-160 | every call, message, request, probe and receipt keeps the invariant |
| `Transfer.RunInv` | tools/receive.cpp:93-134 | so does every run: what a pair has received and what is queued are, in order, exactly the rounds sent |
| `Transfer.RequestsAnswered` | tools/receive.cpp:97-99 | in asynchronous mode each request is queued or was answered by exactly one round or the stop, and at most one is queued |
| `Transfer.NothingAfterStop` | tools/send.cpp:105-118 | after the stop the root sender sends nothing, no round starts, and in asynchronous mode no data is queued beside the stop |
| `Transfer.Delivered` | tools/receive.cpp:123-134 | when all ranks have left, every receiver has the rounds let in from each partner in order; in asynchronous mode these are all rounds sent, and every channel is empty |
| `Transfer.SendersFree` | tools/send.cpp:104-160 | in synchronous mode a sender can send in any reachable state in which it has calls left, however far the others are |
| `Transfer.StopOverData` | tools/receive.cpp:107-121 | when the root receiver sees the stop, rounds are lost exactly if data of the root sender is queued; never in asynchronous mode |
| `Transfer.OverStays` | tools/receive.cpp:120-121 | after the stop was seen, what was sent and let in does not change any more |
| `Transfer.LostExactly` | tools/receive.cpp:93-134 | in every run at whose end all ranks have left, the root receiver has seen the stop exactly once, and no message of any pair is left exactly when the queue of the root sender was empty at that moment |
| `Transfer.SynchronousLoses` | tools/receive.cpp:107-121 | in synchronous mode a run of one sender, one receiver and one call ends with the data unread |
| `Transfer.DeadlockFree` | tools/receive.cpp:93-134 | until all ranks have left, some rank can go on, in both modes |
| `Transfer.StepCounts` | tools/send.cpp:104-160 | every event takes some of the work that is left |
| `Transfer.RunsEnd` | tools/receive.cpp:93-134 | no run is longer than the work left at its start |
| `Transfer.RunsEndFromStart` | tools/receive.cpp:93-134 | from the start, with at most m partners for each rank, a run has at most 3 * (calls + 1) events and (calls + 1) * (m + 1) more for each rank of both groups |
| `Redistribution.SliceBounds` | tools/send.cpp:148-149 | each partner gets count / k elements in order, the last one the remainder as well; the slices follow each other and lie in the array |
| `Redistribution.SplitJoins` | tools/common.hpp:34-52 | the parts of a text joined with commas give the text back, less one comma at its end, and no part has a comma |
| `Redistribution.ItemsOfOne` | tools/send.cpp:124-159 | an integer or float stands for a scalar of 4 bytes, a size or double for one of 8, an array variable for one array for each name between its commas in order, any other kind for nothing |
| `Redistribution.ItemsJoin` | tools/send.cpp:126-158 | the variables of the command line are gone through in order |
| `Redistribution.Pack` | tools/send.cpp:124-159 | the buffer holds the variables in order: scalars as they are, arrays as the count and element size of the slice and its elements without gaps |
| `Redistribution.Receive` | tools/receive.cpp:136-198 | scalars are saved message by message; each array is saved once with the data of all partners in rank order, the summed count and the last element size, the same for one partner and several |
| `Redistribution.FieldsFit` | tools/send.cpp:124-159 | what a sender packs is a well-formed message for the same variables |
| `Redistribution.MessagesFit` | tools/receive.cpp:123-134 | a receiver finds one well-formed message from each of its partners |
| `Redistribution.SlicesJoin` | tools/send.cpp:148-153 | the slices for all partners, joined, are the packed array |
| `Redistribution.Conservation` | tools/receive.cpp:145-198 | the arrays of all receivers one behind the other are the packed arrays of all senders one behind the other, for any counts, element sizes, strides and variable lists |
| `Redistribution.ScalarsArrive` | tools/receive.cpp:145-170 | each scalar that a receiver saves has the name and the bytes that its partner sent, one save for each message, in order |
| `Redistribution.SavedArrayAt` | tools/receive.cpp:172-195 | each array is saved once under its name, with the elements of all messages joined |
| `Redistribution.Readable` | tools/receive.cpp:156-195 | the saved array gives back every element of every partner at its place exactly when each partner that has sent elements has sent them of the size that the last partner names; then it covers exactly the joined bytes |
| `Redistribution.SizeLost` | tools/receive.cpp:171-195 | two senders, one element of four bytes and an empty array described with size zero: the receiver joins the four bytes and saves one element of none |
| `Rounds.RoundRead` | tools/receive.cpp:93-198 | in every reachable state of the protocol, what a receiver has read in a round it has finished is what its partners have packed in that round, one well-formed message each |
| `Rounds.RoundsArrive` | tools/receive.cpp:93-198 | in every run at whose end all ranks have left, each round that was let in has reached every receiver whole, and its arrays joined are those of the senders of that round; in asynchronous mode these are all rounds sent |
| `StridedArray.CompactElements` | include/henson/data.hpp:41-49 | compaction keeps every element, and compacting twice is compacting once |
| `StridedArray.CopyToStorage` | include/henson/data.hpp:41-49 | the copy loop fills the storage with the elements without gaps and sets the stride to the element size |
| `StridedArray.Contiguous` | include/henson/data.hpp:82-104 | memory that is filled exactly by its elements is read back as it is |
| `StridedArray.ElementBytes` | include/henson/data.hpp:41-49 | byte b of element i is the byte at the address plus i strides plus b |
| `Buffers.MemoryBuffer.SaveBinary` | include/henson/serialization.hpp:412-424 | bytes are written over the buffer at the position, which grows when it is too short; at its end they are appended |
| `Buffers.MemoryBuffer.LoadBinary` | include/henson/serialization.hpp:426-432 | the bytes at the position are read and passed |
| `Buffers.MemoryBuffer.LoadBinaryBack` | include/henson/serialization.hpp:434-440 | the last bytes are taken off the buffer |
| `Buffers.MemoryBuffer.Copy` | include/henson/serialization.hpp:442-455 | one length-prefixed record moves from buffer to buffer; what the target held behind the record is cut off |
| `Buffers.OverwriteMeans` | include/henson/serialization.hpp:412-424 | a write changes the bytes it covers and no others, and fills a gap behind the old end with zeros |
| `Buffers.OverwriteTwice` | include/henson/serialization.hpp:412-424 | two writes one after the other are one write of both |
| `Buffers.CopyIsSave` | include/henson/serialization.hpp:442-455 | copying a record leaves what saving it would, exactly when the target does not reach behind the record |
| `Bytes.DecodeEncode` | include/henson/serialization.hpp:97-98 | a number is read back from its bytes exactly when it fits the width |
| `Bytes.EncodeByte` | include/henson/serialization.hpp:97-98 | byte i of a number is the number divided by 256 to the i, modulo 256 |
| `Serialization.SaveBoxed` | include/henson/chai-serialization.hpp:39-73 | a boxed value is written as tag and body, recursively; it throws exactly when a value of another type is met, with the part before that written |
| `Serialization.Format` | include/henson/chai-serialization.hpp:39-73 | each kind of value is written as its own number and the bytes of its content |
| `Serialization.UnknownNumbers` | include/henson/chai-serialization.hpp:75-118 | loading throws on every other number |
| `Serialization.SaveElements` | include/henson/serialization.hpp:144-146 | elements are saved one by one up to the first that throws |
| `Serialization.LoadBoxed` | include/henson/chai-serialization.hpp:75-118 | loading gives the value that the bytes at the position stand for, or throws on an unknown tag |
| `Serialization.LoadVector` | include/henson/serialization.hpp:154-156 | elements are loaded one by one up to the first that throws |
| `Serialization.RoundTrip` | include/henson/chai-serialization.hpp:39-118 | for every nested value and whatever stands before and behind it, loading after saving gives the value with compact arrays and stops exactly behind it |
| `Serialization.ArrayAt` | include/henson/data.hpp:73-104 | an array comes back with its elements, its kind of address, and the stride equal to the element size |
| `Serialization.CompactedStays` | include/henson/chai-serialization.hpp:39-118 | saving the loaded value again writes the same bytes, and loading that changes nothing |
| `Serialization.MemoryAt` | include/henson/serialization.hpp:166-177 | a saved buffer comes back cut at its position, so unchanged exactly when the position is its end |
| `Serialization.JobRoundTrip` | include/henson/scheduler.hpp:389-411 | a job comes back with its argument cut, whatever stands before and behind it |
| `Serialization.JobFormat` | include/henson/scheduler.hpp:389-411 | a job is written field by field: id, name, function, argument up to its position, groups, size, each text and buffer behind its length |
| `Serialization.Cut` | include/henson/scheduler.hpp:389-411 | the cut job is the job itself exactly when the position of its argument is its end |
| `Serialization.ArgumentArrives` | include/henson/scheduler.hpp:361-384 | the argument that a worker loads after the reset is the one the controller saved, with compact arrays |
| `Serialization.ResultRoundTrip` | include/henson/scheduler.hpp:166-174 | a result message gives back id, name and buffer |
| `Serialization.ResultFormat` | include/henson/scheduler.hpp:166-174 | a result message is the id, the name and the buffer in this order |
| `Serialization.ResultArrives` | include/henson/scheduler.hpp:353-359 | a caller who resets the popped buffer loads the result; one who does not, as `pop_chai`, reads past the end whatever the result was |
| `Executor.Puppet.Proceed` | include/henson/puppet.hpp:102-114 | a puppet that returns is not running and has the code as its result, one that yields is running with the result it had |
| `Executor.Puppet.Destroy` | include/henson/puppet.hpp:88-94 | the destructor tells a running puppet to stop and lets it go on once, and does nothing to another |
| `Executor.Executor.RunOne` | henson-hwl.cpp:74-89 | one puppet is told to stop if the group stops, then goes on, and the group stops if it was the control puppet and returned |
| `Executor.Executor.RunOneStatement` | henson-hwl.cpp:51-72 | a starred name is noted, the puppet goes on, and the body runs exactly when its last result is zero |
| `Executor.Executor.RunStatements` | henson-hwl.cpp:300-301 | the statements run in order |
| `Executor.Executor.Revisit` | henson-hwl.cpp:303-309 | the noted puppets go on once more in the order noted, without a signal, and the notes are cleared |
| `Executor.Executor.Run` | henson-hwl.cpp:294-315 | whatever the statements are, the loop makes as many passes as it takes until the group has stopped, one at least, and leaves the state of that many passes |
| `GroupExecutor.OncePerStatement` | henson-hwl.cpp:298-309 | in every pass a puppet that no body has goes on once for each of its statements and once more for each starred one |
| `GroupExecutor.PassesShown` | include/henson/puppet.hpp:102-114 | in every state that a number of passes reaches, the result of a puppet is the code of its last return in the log, -1 without one, and it is running exactly when its last event was a yield |
| `GroupExecutor.BodyRuns` | henson-hwl.cpp:51-72 | after its puppet has gone on, the body of a statement runs exactly when the last return of that puppet in the log was zero |
| `GroupExecutor.StatementNotes` | henson-hwl.cpp:51-72 | a starred statement notes its puppet behind those noted before, and before what its body notes; an unstarred one without a body notes nothing |
| `GroupExecutor.RevisitOrder` | henson-hwl.cpp:303-309 | the noted puppets go on in the order noted, each once, and nobody else |
| `GroupExecutor.PassLog` | henson-hwl.cpp:298-309 | in a pass nobody is told to stop before the control puppet or when revisited; between them every puppet that goes on is told right before, or none is |
| `GroupExecutor.PassesDo` | henson-hwl.cpp:298-315 | the group has stopped after k + 1 passes and not earlier, the control puppet has gone on once a pass, and no stop is signalled before the last pass |
| `GroupExecutor.StopsAfterYields` | henson-hwl.cpp:294-315 | so with a control puppet that occurs once, unstarred and at top level, and yields k times before it returns, the loop makes exactly k + 1 passes |
| `GroupExecutor.StopOfPass` | henson-hwl.cpp:74-89 | for any statements, a pass stops the group exactly when the control puppet has returned in one of them; a return when it is revisited does not count |
| `GroupExecutor.NeverStops` | henson-hwl.cpp:294-315 | with a control puppet that never returns, no number of passes stops the group, so the loop is endless |
| `GroupExecutor.EveryReturnCounts` | henson-hwl.cpp:294-315 | with a control puppet that is nowhere starred, the group has stopped after any number of passes exactly when that puppet has returned |
| `GroupExecutor.StarredStops` | henson-hwl.cpp:294-315 | with a control puppet that has one statement, starred and in no body, and yields k times before each return, the group stops exactly when k is even, after k / 2 + 1 passes |
| `GroupExecutor.ReturnsUnseen` | henson-hwl.cpp:294-315 | a group of one starred control puppet that yields once before each return: it returns in every pass, and the group has not stopped after any number of them |
| `GroupExecutor.LastPassSignals` | henson-hwl.cpp:74-89 | in the last pass a puppet that no body has is signalled once for each statement after the control statement and at no other time |
| `GroupSizes.LayOut` | include/henson/procs.hpp:139-173 | accepted exactly when the sizes add up to the communicator; table, colour and group are those of the entries in order, negative sizes included |
| `GroupSizes.OwnBlock` | include/henson/procs.hpp:151-165 | without negative sizes and with distinct names, colour and group name the same entry, and the block of that group contains the rank |
| `GroupSizes.GroupAt` | include/henson/procs.hpp:156 | every group is known by the start and size of its block, of the last one if there are several of the name |
| `GroupSizes.BlocksApart` | include/henson/procs.hpp:151-165 | blocks of different groups do not overlap |
| `GroupSizes.ParseProcs` | include/henson/procs.hpp:191-229 | throws exactly when the sizes given exceed the ranks; else the sized groups keep their order, and behind them come, sorted and each once, exactly the groups requested without a size and those of the script requested with none, with equal shares |
| `GroupSizes.SizedOfOne` | include/henson/procs.hpp:195-210 | a request with a size is an entry with its name and size, one without is none; `SizedJoin` says that requests are gone through in order |
| `GroupSizes.SharesAre` | include/henson/procs.hpp:223-226 | each sharing group gets an entry with its own name and the share, in the order of the names |
| `GroupSizes.LessMeans` | include/henson/procs.hpp:199-221 | names are sorted as dictionaries do: by the first character that differs, and a prefix before what it begins |
| `GroupSizes.ParsedAccepted` | include/henson/procs.hpp:223-226 | the parsed list adds up to the ranks exactly when what is left divides evenly among the sharing groups, or nobody shares and nothing is left |
| `GroupSizes.Divide` | src/chai/scheduler.cpp:29-52 | divides by zero exactly when every group has a positive size; otherwise sized groups keep their size, open ones get the share or the last the difference, and all add up to the job |
| `GroupSizes.LastShareNegative` | src/chai/scheduler.cpp:41-51 | the last open group gets a size of at least zero exactly when the fixed sizes take no more than one share and the remainder |
| `GroupSizes.NegativeSize` | src/chai/scheduler.cpp:41-51 | for a job of four ranks with two open groups and a last one of three, the second open group gets minus one |
| `GroupSizes.NegativeLayout` | include/henson/procs.hpp:139-173 | these sizes are accepted, and a rank gets the colour of the second group and the name of the third, whose colour is another |
| `GroupSizes.OwnEntryExactly` | include/henson/procs.hpp:151-165 | for any sizes, colour and name of a rank belong to the same entry exactly when no entry starts behind the rank and a later one at it or before it; the block of that entry then has the rank |
| `GroupSizes.RanksAgree` | src/chai/scheduler.cpp:29-52 | a divided job is accepted, and all its ranks have colour and name of one entry exactly when the last open group gets no negative share, or it is the last group, or the groups before it have no ranks |
| `ProcMap.ProcMap.Extend` | include/henson/procs.hpp:139-173 | a level with a communicator of its own is added exactly when the sizes add up, else nothing changes |
| `ProcMap.ProcMap.Intercomm` | include/henson/procs.hpp:88-115 | the entry of the group at the latest level that has one decides; without one a pair is made and cached at the latest level; what is returned is the communicator between the groups, never the merged one |
| `ProcMap.ProcMap.Intracomm` | include/henson/procs.hpp:117-127 | throws exactly when no level has a communicator with the group |
| `ProcMap.LookupMeans` | include/henson/procs.hpp:88-101 | the search finds the entry of the group at the latest level that has one, and nothing exactly when no level has one |
| `ProcMap.EntryIsAsked` | include/henson/procs.hpp:88-127 | over every run, an entry cached at any level that lives is the one that asking for its group finds, from all levels above too, and the answer is its communicator between the groups, which is never the merged one |
| `ProcMap.CacheHandlesAt` | include/henson/procs.hpp:177-189 | a cache gives up both communicators of each entry, the merged one first |
| `ProcMap.ProcMap.PopBack` | include/henson/procs.hpp:177-189 | both communicators of each cached group and the communicator of the level are freed, and the level goes |
| `ProcMap.RunInv` | include/henson/procs.hpp:88-189 | over every well-nested run, each handle made is held by one level, has been freed once or was made to extend a level for a job or a scheduler |
| `ProcMap.FoundIsLive` | include/henson/procs.hpp:95-101 | what a search finds has not been freed |
| `ProcMap.AskAgain` | include/henson/procs.hpp:88-115 | while the level lives, asking again gives the same live handle, whatever was done in between there and above |
| `ProcMap.NestRestores` | include/henson/scheduler.hpp:153-201 | the worker loop leaves the stack of levels after a job as it was before |
| `ProcMap.JobWorldStays` | include/henson/scheduler.hpp:153-201 | after a job, or the life of a scheduler on a controller rank, the communicator made for it is held by no level and has not been freed |
| `ProcMap.WholeLife` | include/henson/procs.hpp:60-67 | from the constructor to the destructor every communicator made is freed exactly once, but for one for each job run and each scheduler on a controller rank, which is never freed |

## Left out

- Scheduler.Scheduler.Schedule: job sizes below one are not modelled; the search for zero ranks returns a start without meaning.
- Scheduler.Scheduler.constructor: `controller_ranks` is at least one, as the code needs; the split of the controllers' communicator is part of ProcMap.
- Scheduler.Scheduler.Finish: the polls are given as a list, so the waiting loop ends with the list; that real polls go on until all is answered is the environment's part.
- Scheduler.Scheduler.RunJob: argument, function and groups of a job are opaque to the scheduler and belong to Serialization; start times and the time log are left out.
- SchedulerProtocol.Safety: controller ranks other than rank 0 are not modelled as message loops; they only get the stop.
- NoncollectiveComm.CreateComm: what the other side of each intercommunicator is comes as a parameter, and NoncollectiveComm.MergeSides says that it is that in every run; overflow of the doubled merge size is not modelled.
- Transfer.Delivered: every rank of the sending group runs the tool equally often, as ranks of one group do; that a group leaves its loop is part of GroupExecutor. Both tools are assumed to be started with the same `async` flag.
- Transfer.RunsEnd: the number of calls is given, so a sender that never stops is not covered.
- Redistribution.Pack: names that the name map does not hold are excluded, as the source reads through them; the two nested loops over variables and names go over one flat list.
- Redistribution.Receive: the messages are well-formed for the receiver's variables; two groups started with different variable lists are not modelled. The calls that save into the name map are returned as lists.
- Packrat.Parse: values are parse trees for rules that assign their whole value; variants that bind one character, values assigned in part (a default of a variable) and values kept between rounds (the reused variable of a command) are not modelled, and a value bound inside a memo without value is dropped.
- Packrat.Parse: grammars that use one memo id for two combinators are excluded.
- Serialization.RoundTrip: floating-point numbers are their bytes. Maps, sets, tuples and pairs other than the group list of a job are left out; they repeat the vector's pattern.
- Serialization.LoadBoxed: a length beyond the memory makes the source throw on allocation; here such bytes are past the end.
- Executor.Executor.Run: a loop that never ends has no result, so it is stated for groups that stop after some pass; GroupExecutor.NeverStops has the others whose control puppet never returns.
- GroupSizes.ParseProcs: the text of a size is read by the standard library and comes as a number.
- GroupSizes.Divide: the size of a job is not negative; the source would convert it to a large unsigned number.
- ProcMap.ProcMap.Intercomm: the group asked for is one of the level, as the source reads through the search result; the tag and the order of the merge are left out.
- ProcMap.ProcMap.PopBack: cached communicators are freed in the order they were made, in the source in the order of names.
- ProcMap.WholeLife: runs in which a level is refused, which throws through the worker loop, are not covered.
- HwlScripts.ScriptReads: the printed form has one space where more blanks may stand, no blanks at the ends of lines, and comments on lines of their own or behind a command; that other spellings parse to the same is not stated.
- HwlCommands.CommandReadsItself: a variable without a default that follows one with a default keeps that default in the source, as the variable is reused between rounds; parse trees do not have this.
- HwlIndent.TokensOfScript: scripts in which the statements of one body are not equally deep are not covered, nor blank lines and indented comments.
- HwlUnclosed.GroupIsLost: what follows when two blocks end at once inside a group, before another of its statements, is not stated; that the tokens are then wrong is part of HwlIndent.TokensOfScript.
- `Command.generate`, variable substitution and command lines: look-ups and string appends.
- `NameMap`, the queues of named values, and the timer tool: look-ups in maps.
- The coroutine back ends, loading of libraries, Python bindings, logging, timers and options: foreign calls. A puppet is a function from what happened so far to yield or return.
