# A model of the shell's scheduler, command compiler and protocol

The repository is a shell in two processes. The *frontend* parses a command line,
expands aliases, compiles it to a plan, turns the plan into requests and waits until
everything it asked for is done. The *backend* schedules the requested processes by their
dependencies, hands out pipe ends and reports what happens. This project models both
sides and the two queues between them, and proves that they work together.

## How it is organised

| files | what they hold |
|---|---|
| `Protocol`, `Schedule`, `ScheduleLemmas`, `Enqueue`, `Machine`, `Runs`, `Execution` | identifiers and statuses; the naive specification of the scheduler (everything recomputed from the original dependency maps); the incremental `Machine`, as written, proved to represent it; whole runs |
| `Departures`, `SystemDepartures`, `SystemReached` | concrete inputs on which the code does not do what it is for, and runs that type them |
| `Cascade`, `IntendedMachine` | the failure cascade the scheduler is evidently meant to perform, as a **repaired** machine that is clearly separate from the one above |
| `Pipes`, `Driver`, `DriverLemmas`, `Exec`, `DriverRuns` | the pipe rendezvous table, the driver as a transition system, the driver as a class, runs of it |
| `Utf8`, `Syntax`, `Parse`, `Rendering`, `Scanner` | text, syntax trees, the parser with its cursor, a renderer, an independent scan of what is accepted |
| `Prefs`, `Aliases` | alias expansion, and what it means |
| `Plan`, `Edit`, `Reading`, `Compilable`, `Spelling`, `Meaning`, `Dataflow`, `Pipeline` | plans and their builder, the compiler, what a prompt reads, which lines compile, what the words of a command mean, the meaning of lines and plans (by evaluation, and without any order), the shape of pipelines |
| `Client`, `Frontend`, `Interpretation`, `Requests` | the frontend's side as a transition system and as classes; interpreting compiled plans, with the wiring of their pipes; the requests sent |
| `System`, `SystemCommands`, `SystemPipes`, `SystemStreams`, `SystemHistory`, `SystemPrompts`, `SystemMoves`, `SystemRuns`, `SystemProgress`, `SystemWiring`, `SystemResults`, `SystemMeaning` | both sides joined by queues: invariants, safety, exactly-once completion, conservation of output, progress, what a command line's plan becomes in a run, and what is told about its processes |

Code that panics yields `Panicked` (or `Crashed`, `Panic`, `Broken`), and contracts say exactly when.
Objects whose methods change fields are classes; each method is proved to compute a
specification function, and the theorems are about those functions. Answers of the
operating system and of the editor (can a command be spawned, a file opened or saved, what does a
process exit with, what does a program write, which directory is it in) are parameters or moves of the system, so
statements about runs hold for all of them. A hash map is visited in an arbitrary order.

In the joined system a run is any interleaving of what the frontend reads at its prompt (any line), the
arrival of responses, the handling of requests, the starting of processes, process
exits and reader threads. Requests keep their order, responses keep theirs, and what the backend's threads report keeps its order too.

## Where the code departs from its intent

The model follows the code; each departure has a lemma that says exactly when it matters.

* `backend/src/machine.rs:128-130` passes a waiter whose condition fails to `completed`, which asserts that it was
  running. So the scheduler panics exactly when a finishing process contradicts a waiter's condition (`Scheduler.Machine.Completed`,
  `Departures.MismatchPanics`, for every status and condition). The shipped frontend sends no conditions (`frontend/src/main.rs:124`, `frontend/src/main.rs:153`), so
  the joined system is safe without a repair. `IntendedScheduler.IntendedMachine` repairs the
  cascade: a failed waiter fails itself, and waiters already told are skipped.
* `backend/src/machine.rs:67` forgets a refused process, so depending on it later panics (`Departures.RefusedIsUnknown`). The intended machine records it as failed.
* `backend/src/exec.rs:179` reports exit code 0 for a built-in that failed (`DriverRuns.ReportedCode`, `SystemDepartures.MissingDirectoryReportsZero`).
* `backend/src/exec.rs:263` fails after the pipe ends were taken and `backend/src/exec.rs:185` takes the outputs again, so a failed
  spawn always ends the backend (`DriverRuns.SpawnFailureClashes`, `SystemMoves.SpawnFailurePanics`, `SystemReached.SpawnFailureReached`).
* `backend/src/exec.rs:141` and `backend/src/exec.rs:159` unwrap the result of opening a file (`backend/src/exec.rs:339`) and of saving an edited
  one (`backend/src/exec.rs:440`): `ls > /no/such/dir/x` ends the backend (`SystemReached.OpenRefusedReached` types such a line). `frontend/src/comm.rs:113`
  asserts that the editor succeeded. These, a failed spawn and a bad line are all the ways in which the event loops of the two sides panic, and each of them
  always does (`SystemRuns.Safe`), as long as the system can make pipes and threads and messages travel. The `unwrap` of the working directory's
  text (`frontend/src/main.rs:92`) never fails, because the backend writes text (`SystemRuns.DirectoryComplete`).
* `backend/src/exec.rs:315-331` takes no pipe ends for an edit that is begun. Its outputs stay parked in the backend, while the file is edited and ever after, so
  whoever reads them sees neither data nor an end. In every reachable state the outputs of a command flow exactly when it was started and is not such an edit
  (`SystemWiring.OutputsFlow`); an edit whose file cannot be read closes its outputs like any failed command (`backend/src/exec.rs:181-186`).
  `SystemReached.EditParksReached` types `micro f | cat`.
* `frontend/src/edit.rs:67-69` panics on a sequence, although the parser accepts `;` (`Compilable.CompilesExactly`, `SystemDepartures.SequencePanics`).
* `frontend/src/parse.rs:136` panics on a word that follows a file name (`Scanner.AcceptsExactly`, `SystemDepartures.WordAfterFilePanics`).

## Model

| member | source | states |
|---|---|---|
| `Protocol.Ids.Next` | protocol/src/lib.rs:264-268 | each call answers the next unused number |
| `Scheduler.Machine.Enqueue` | backend/src/machine.rs:53-94 | panics on a known process; otherwise, when all dependencies are known: refused with unchanged state if and only if a finished one has another status than the one expected of it, handed out if and only if all are finished, else waiting on exactly the unfinished ones, whatever the visiting order |
| `Scheduler.Machine.Insert` | backend/src/machine.rs:81-93 | the tables after an accepted process are those recomputed from all dependency maps |
| `Enqueueing.StillBlocking` | backend/src/machine.rs:61-79 | the unfinished part of the dependencies; or a finished one whose status is not the one expected, or an unknown one, that really exists, in any visiting order |
| `Enqueueing.Register` | backend/src/machine.rs:85-87 | the new waiter is appended once under each process it waits for |
| `Scheduler.Machine.Start` | backend/src/machine.rs:96-101 | panics exactly when the process is not runnable; otherwise it is running |
| `Scheduler.Machine.StartCompleted` | backend/src/machine.rs:103-109 | panics exactly when the process is not runnable or its status contradicts a waiter; hands out exactly the processes it releases |
| `Scheduler.Machine.Completed` | backend/src/machine.rs:111-118 | panics exactly when the process is not running or its status contradicts a waiter; hands out exactly the processes it releases |
| `Scheduler.Machine.ResolveTasks` | backend/src/machine.rs:120-147 | panics exactly when some waiter expects another status of the process; otherwise both indices end as if recomputed, and no expect or assert on the way fails |
| `Scheduler.Machine.Release` | backend/src/machine.rs:132-141 | one waiter is told once: it keeps waiting for the rest or is handed out with its own command |
| `ScheduleLemmas.IndexAgreement` | backend/src/machine.rs:81-144 | a waiter is listed under a process with a condition, once, if and only if it waits for that process with that condition; nobody waits for nothing; the four groups are disjoint |
| `ScheduleLemmas.MidwayAgreement` | backend/src/machine.rs:122-144 | in the middle of the loop the two indices agree entry by entry about every process but the finished one, for which exactly the waiters not yet visited still wait |
| `ScheduleLemmas.MidwayVisit` | backend/src/machine.rs:122-144 | visiting one waiter leads from one such middle state to the next |
| `ScheduleLemmas.FinishTables` | backend/src/machine.rs:111-147 | finishing a process changes the recomputed tables only at its waiters |
| `ScheduleLemmas.AddRepresents` | backend/src/machine.rs:81-93 | adding a process by pushing index entries equals recomputing everything |
| `ScheduleLemmas.BlockedOnce` | backend/src/machine.rs:122-134 | everyone in a blocked list is still waiting, under the listed condition, and is listed once |
| `ScheduleLemmas.NoDeadlock` | backend/src/machine.rs:63-92 | when nothing is runnable or running, everything has finished |
| `Runs.HandedOut` | backend/src/machine.rs:53-147 | over every run of accepted calls each process is handed out at most once, with its own command, and has been handed out if and only if all its dependencies finished as required |
| `Execution.Execute` | backend/src/machine.rs:53-147 | the runs spoken of here are runs of the machine: when the dependencies of a new process are known, a call panics exactly when runs do not accept it, and otherwise leaves the schedule and hands out the tasks that the run says |
| `Runs.AnswerExact` | backend/src/machine.rs:53-147 | one call hands out exactly the processes whose last dependency it settles |
| `Runs.ClearedIffUnblocked` | backend/src/machine.rs:63-94 | not being blocked means that all dependencies finished as required |
| `Departures.MismatchPanics` | backend/src/machine.rs:127-130 | a process finishes, with either status, while another waits for it under any condition: the scheduler panics if and only if the other status was expected |
| `Departures.LateWaiter` | backend/src/machine.rs:63-72 | waiting, under any condition, for a process that has finished with either status: refused if and only if the other status was expected, and handed out at once otherwise |
| `Departures.RefusedIsUnknown` | backend/src/machine.rs:65-75 | another process can depend on an enqueued one if and only if it was not refused |
| `Cascade.SettledOnce` | backend/src/machine.rs:120-147 | intended: however a cascade is carried out, it ends with the statuses of one pass down the enqueue order |
| `Cascade.SettlesIsSettle` | backend/src/machine.rs:120-147 | intended: extending the finished table by exactly the doomed processes is that pass |
| `Cascade.SettledExactly` | backend/src/machine.rs:120-147 | intended: once a cascade has settled, everyone who failed has a finished dependency with another status than expected, and nobody who is unfinished has one |
| `IntendedScheduler.IntendedMachine.Enqueue` | backend/src/machine.rs:53-94 | intended: refused if and only if a finished dependency has another status than expected, and then remembered as failed |
| `IntendedScheduler.IntendedMachine.Completed` | backend/src/machine.rs:111-118 | intended: the statuses afterwards are those of the reference pass, independent of list and map order; who failed has a finished dependency with another status than expected, who is unfinished has none; each process that fails or becomes ready is reported exactly once |
| `IntendedScheduler.IntendedMachine.ResolveTasks` | backend/src/machine.rs:120-147 | intended: the recursion ends, and each call settles its part of the news that is under way |
| `IntendedScheduler.IntendedMachine.Tell` | backend/src/machine.rs:122-143 | intended: one waiter is told: it fails if it still waits and expects another status, and otherwise nobody fails; it is skipped if it has already failed |
| `IntendedScheduler.IntendedMachine.Fail` | backend/src/machine.rs:127-130 | intended: the rejecting waiter fails and its own waiters are told |
| `Pipes.PerformOne` | backend/src/exec.rs:217-243 | asking for an end panics exactly when an earlier request clashes with it |
| `Pipes.RunDescribed` | backend/src/exec.rs:217-243 | a whole run succeeds if and only if no two of its requests clash, and the table keeps exactly the ends that can still be asked for |
| `Pipes.Rendezvous` | backend/src/exec.rs:217-243 | in every run without clashes the reader and the writer of a pipe hold the two ends of one object whichever came first, no end is handed out twice, and a pipe opened as a file delivers that file |
| `Exec.ExecInternal.ReadEnd` | backend/src/exec.rs:217-229 | does what the rendezvous table says, or panics when it does |
| `Exec.ExecInternal.WriteEnd` | backend/src/exec.rs:231-243 | does what the rendezvous table says, or panics when it does |
| `Exec.ExecInternal.PipeOutputAndClose` | backend/src/exec.rs:395-412 | takes both output ends, the output first, and gives each what is to be written to it |
| `Exec.ExecInternal.Run` | backend/src/exec.rs:245-333 | which ends each kind of command takes, what running it answers, what a built-in writes to which output, and that a program gets the ends of its input, output and errors as its standard streams |
| `Exec.ExecInternal.StartTask` | backend/src/exec.rs:172-189 | starts one runnable process: left running, finished at once or failed, with the answer that is sent |
| `Exec.ExecInternal.ProcessTasks` | backend/src/exec.rs:166-204 | the worklist always starts exactly the runnable processes; the nested loops end with nothing runnable, or panic where the transition system does |
| `Exec.ExecInternal.Handle` | backend/src/exec.rs:126-164 | handles every event as the transition system does; a file that cannot be opened or saved is a panic |
| `Exec.ExecInternal.EnqueueCommand` | backend/src/exec.rs:206-209 | enqueues and starts whatever can start |
| `Exec.ExecInternal.ProcessExited` | backend/src/exec.rs:211-215 | reports the result, then starts whatever it releases |
| `DriverLemmas.DispatchWork` | backend/src/exec.rs:166-204 | starting a process turns the rest of the worklist and what it releases into the new worklist, and fewer processes are idle |
| `DriverLemmas.WorklistFinish` | backend/src/exec.rs:174-187 | what a finished process releases is exactly what becomes runnable |
| `DriverRuns.RunKeeps` | backend/src/exec.rs:126-215 | over every run of events: results are sent before the processes that block on them start, no process is started or answered twice, nothing runnable is left, and when nothing runs all have finished |
| `DriverRuns.DispatchLog` | backend/src/exec.rs:166-204 | starting a process keeps that order |
| `DriverRuns.ReceiveLog` | backend/src/exec.rs:206-215 | handling an event keeps that order |
| `DriverRuns.TakingPanics` | backend/src/exec.rs:217-243 | taking several ends panics exactly when they clash with each other or with the past |
| `DriverRuns.DispatchPanics` | backend/src/exec.rs:166-204 | exactly when starting a process panics |
| `DriverRuns.SpawnFailureClashes` | backend/src/exec.rs:259-263 | after a failed spawn the outputs are taken a second time |
| `DriverRuns.ReportedCode` | backend/src/exec.rs:175-188 | the reported exit code agrees with the status that waiters see, except for a built-in that failed |
| `DriverRuns.RefusedTold` | backend/src/exec.rs:190-192 | a process that expects another status of a finished one is reported with exit code 1 and forgotten |
| `DriverRuns.FileOpened` | backend/src/exec.rs:335-351 | a file is opened if and only if the pipe is unused and the system agrees; whoever takes the other side of the pipe gets that file |
| `Utf8.AsciiBoundary` | frontend/src/parse.rs:76 | text can be cut before and after an ASCII byte (RFC 3629, section 3) |
| `Parsing.Consume.SkipWhitespace` | frontend/src/parse.rs:54-61 | leaves the text without its leading blanks |
| `Parsing.Consume.Next` | frontend/src/parse.rs:205-213 | answers the next byte and advances, until the end |
| `Parsing.Consume.ParseQuote` | frontend/src/parse.rs:63-77 | reads up to the closing quote, panics if there is none, and cuts only between characters |
| `Parsing.Consume.ParseWord` | frontend/src/parse.rs:79-97 | reads a quoted or bare word, panics on a quote inside a bare one, and cuts only between characters |
| `Parsing.Consume.ParseCmd` | frontend/src/parse.rs:99-114 | reads the words of a command |
| `Parsing.Consume.ParsePipe` | frontend/src/parse.rs:116-145 | reads a command and its redirections |
| `Parsing.Consume.ParseSeq` | frontend/src/parse.rs:147-170 | reads pipelines separated by semicolons |
| `Parsing.Consume.ParseLine` | frontend/src/parse.rs:172-184 | on return the whole line has been read, so the assertion on the position holds |
| `Parsing.ParseInput` | frontend/src/parse.rs:186-188 | parsing any well-formed text computes the grammar's function or panics exactly where that is undefined |
| `Rendering.RoundTrip` | frontend/src/parse.rs:99-184 | every tree that the parser can emit is read back from its rendering |
| `Rendering.EmittableExact` | frontend/src/parse.rs:99-184 | the emittable trees are exactly those that some line parses to |
| `Rendering.ParseAgain` | frontend/src/parse.rs:99-188 | rendering what was parsed and parsing it again changes nothing |
| `Scanner.AcceptsExactly` | frontend/src/parse.rs:63-184 | the parser panics exactly when an independent scan finds an open quote at the end, a quote inside a bare word, or a word after a file name, for that reason; its check for a missing separator never fails |
| `Prefs.Expand` | frontend/src/prefs.rs:48-108 | the loops compute the expansion function, panics included |
| `Prefs.Construct` | frontend/src/prefs.rs:94-104 | building the result uses up the bindings as the function says |
| `Aliases.MatchExact` | frontend/src/prefs.rs:54-92 | matching succeeds exactly on the commands that fit the pattern, with the only bindings that fit |
| `Aliases.BuildFills` | frontend/src/prefs.rs:94-104 | building succeeds when every id is bound and used once, and fills them in |
| `Aliases.ExpandsFirst` | frontend/src/prefs.rs:48-108 | the first rule that fits is applied, under its one substitution; if none fits the command is unchanged |
| `Aliases.ReverseUndoes` | frontend/src/prefs.rs:48-108 | the reversed rule undoes a rule whose sides end in an expando and bind the same ids |
| `Plans.PlanBuilder.AddPipe` | frontend/src/plan.rs:128-133 | adds a pipe with both ends unused |
| `Plans.PlanBuilder.AddFileOutput` | frontend/src/plan.rs:139-144 | adds a pipe of which only the write end can be used |
| `Plans.PlanBuilder.AddCommand` | frontend/src/plan.rs:168-179 | uses three ends, each unused before, so the assertions hold |
| `Plans.PlanBuilder.AddSink` | frontend/src/plan.rs:193-199 | records where a pipe goes, growing the table as needed |
| `Compiler.ConvertAst` | frontend/src/edit.rs:59-96 | the loop over redirections, last first, computes the compilation function, of which `Spelling` and `Meaning` say what it yields |
| `Compiler.Convert` | frontend/src/edit.rs:59-96 | compiling only uses up the write ends it was given, and the pipe it answers can still be written |
| `Compiler.Compile` | frontend/src/edit.rs:98-112 | every compiled plan passes the linear-use check of its pipe ends |
| `Compiler.EmptyPlan` | frontend/src/plan.rs:62-72 | an interrupted prompt has this plan |
| `Compiler.EmptyLine` | frontend/src/edit.rs:61 | it is the plan that an empty line compiles to |
| `Compilable.CompilesExactly` | frontend/src/edit.rs:59-112 | a line compiles if and only if it has no sequence and all its commands convert; otherwise it fails like the first that does not, last redirection first |
| `Spelling.ExpandedExact` | frontend/src/edit.rs:21-56 | whatever the rules: the expanded words become a program with all the rest as arguments, `cd` or `micro` with exactly one argument the built-in or the edit of it; none, or more than one, are two different errors; `nak` and no words at all panic |
| `Spelling.CommandExact` | frontend/src/edit.rs:33-56 | the same of the words as typed, when the first rule that fits is applied under its one substitution, or none fits |
| `Spelling.RewritesOnce` | frontend/src/prefs.rs:48-108 | sound rules make exactly one thing of every command, and it is what expansion computes |
| `Spelling.LineCommands` | frontend/src/edit.rs:59-112 | every line that is read as a plan, whatever its redirections: the plan starts the commands that the words of the line mean, each once, the last one first |
| `Spelling.TypedCommands` | frontend/src/edit.rs:98-112 | a pipeline of any lists of words that mean commands is read as a plan that starts exactly these commands, the last one first |
| `Reading.GetCommand` | frontend/src/edit.rs:190-239 | a line is parsed and compiled, an interrupt gives the plan of an empty line, the end of the input one that leaves the shell |
| `Meaning.CompilePreserves` | frontend/src/edit.rs:59-112 | with commands as stream functions, evaluating the compiled plan yields the output, errors and files of evaluating the syntax tree |
| `Dataflow.CompiledMeans` | frontend/src/edit.rs:59-112 | in whatever order its commands run: every assignment of bytes to the pipes of a compiled plan in which each command writes what it makes of its input has the output, errors and files of the syntax tree; and there is one |
| `Dataflow.BalancedExactly` | frontend/src/plan.rs:128-179 | for any plan that uses ends once and reads newer pipes than it writes, such an assignment is the evaluation of the plan and no other |
| `Meaning.ConvertCorrect` | frontend/src/edit.rs:59-96 | the same for any part of a line, in any plan, for any pipes it writes to |
| `Pipeline.PipelineShape` | frontend/src/edit.rs:59-112 | a pipeline starts its last command first; each command's output is the next one's input, the last writes to the collected pipes, and the plan's input is the first one's |
| `Interpretation.StepsGo` | frontend/src/main.rs:113-146 | interpreting emitted steps succeeds if and only if the linear-use check does; each of the builder's indices stands for one new pipe, the interpreter holds exactly the unused ends of it, and every request names the pipes that the step's indices stand for |
| `Interpretation.StepsWired` | frontend/src/main.rs:113-146 | the pipe ids, and that each command request carries its step's command and its three pipes, each file request its path and pipe |
| `Interpretation.CompiledLinear` | frontend/src/edit.rs:98-112 | a compiled plan passes that check and leaves the read ends of both collected pipes |
| `Frontend.Endpoint.Command` | protocol/src/comm.rs:134-155 | a new process id, remembered as a job, and one request |
| `Frontend.Endpoint.OpenOutputFile` | protocol/src/comm.rs:157-170 | a new pipe id, remembered, and one request |
| `Frontend.Exec.Receive` | frontend/src/comm.rs:61-121 | each response changes the frontend's state as the transition system says, or panics with it |
| `Frontend.Exec.SettleDirectory` | frontend/src/main.rs:84-98 | takes in the gathered working directory, or panics when it is not there or not text |
| `Frontend.Exec.RunSteps` | frontend/src/main.rs:109-146 | interprets the steps, taking each end at most once |
| `Frontend.Exec.QueryDirectory` | frontend/src/main.rs:148-174 | asks for the working directory after everything that was started |
| `Frontend.Exec.ReadSinks` | frontend/src/main.rs:176-204 | starts reading the collected pipes |
| `Frontend.Exec.Turn` | frontend/src/main.rs:84-107 | one whole turn at the prompt, from taking in the directory and reading a line on, ends as the transition system does |
| `Frontend.Exec.RunPlan` | frontend/src/main.rs:109-207 | what a turn does with a plan ends as the transition system does |
| `Requests.IssueKeeps` | frontend/src/main.rs:109-207 | a compiled plan never crashes the interpreter; its requests have new ids, use every pipe end at most once over all prompts, name the pipes to which the plan connects each command, and are followed by a question that waits for all of them; its first two pipes become the output and error streams |
| `Requests.StepsKeep` | frontend/src/main.rs:113-146 | the steps of a plan ask for new ends only, each once, wired as planned, and start commands without conditions |
| `Requests.AskKeeps` | frontend/src/main.rs:148-174 | the question for the working directory depends, without a condition, on exactly the processes of the line, and uses new pipes once |
| `SystemCommands.EnqueueKeeps` | backend/src/exec.rs:206-209 | a command request that arrives is always accepted |
| `SystemCommands.ResultAwaited` | frontend/src/comm.rs:93-96 | a result that arrives is waited for |
| `SystemCommands.EditsClose` | backend/src/exec.rs:438-443 | the end of an edit is for a process that is still being edited |
| `SystemCommands.EditsAnswer` | frontend/src/comm.rs:102-120 | a question about an edit concerns a known process and is answered once |
| `SystemPipes.LinkedStart` | backend/src/exec.rs:259-261 | ends taken by a process that starts early do not clash with those still to be taken |
| `SystemPipes.LinkedNow` | backend/src/exec.rs:335-336 | when a request to open a file or read a pipe is handled its end is free, although commands sent before have not started |
| `SystemPipes.LaunchLinked` | backend/src/exec.rs:166-204 | a runnable process finds all its pipe ends, in whatever order processes start |
| `SystemStreams.StreamsData` | frontend/src/comm.rs:71-81 | data that arrives has a place to go |
| `SystemStreams.StreamsClosed` | frontend/src/comm.rs:82-87 | when a pipe's end arrives, what was gathered is all that it produced |
| `SystemHistory.GenuineLaunch` | backend/src/exec.rs:395-412 | what the backend writes when a process is started goes to pipes of which nothing has been read, and nothing it wrote before is changed |
| `SystemHistory.BeganLaunch` | backend/src/exec.rs:245-333 | starting a process keeps on record: the ends it took, what the system answered and what was written for it; write ends are taken by started commands only, and by no edit that is begun |
| `SystemHistory.AttachGives` | backend/src/exec.rs:259-261 | the ends that are assigned to the input, output and errors of a program are those handed out for these three pipes |
| `SystemPrompts.DirectoryAnswered` | backend/src/exec.rs:303-312 | when no result is waited for, the backend has written the answer about the gathered directory: the name that the system gave and the end of a line, or nothing |
| `SystemPrompts.BuiltInWrote` | backend/src/exec.rs:287-314 | for a command that was not left running the backend has written: after `cd`, `Success: ()` or the error, as output; after a question for the directory, its name as output or the error as an error; after an edit whose file cannot be read, the error as an error |
| `SystemPrompts.DirectorySettles` | frontend/src/main.rs:85-98 | at a prompt in a reachable state taking in the directory never panics; the new one is the one that the system answered, or the old one if it could not tell |
| `SystemMoves.ReadsWell` | frontend/src/edit.rs:98-112 | what is read at a prompt is a panic exactly for a line with an open quote, a quote in a word, a word after a file name, or a first failure that panics; an accepted line gives a plan that the interpreter carries out |
| `SystemMoves.PromptSafe` | frontend/src/main.rs:84-207 | in a reachable state a prompt panics if and only if the line is bad, and the frontend leaves its loop exactly at the end of the input or on an error |
| `SystemMoves.ArriveSafe` | frontend/src/comm.rs:61-121 | in a reachable state a response panics if and only if it asks for an edit and the editor fails |
| `SystemMoves.TakeSafe` | backend/src/exec.rs:126-164 | in a reachable state a request panics if and only if it opens a file or ends an edit and the system refuses the file |
| `SystemMoves.LocalSafe` | backend/src/exec.rs:126-164 | no report of a thread panics in a reachable state, and each keeps the invariant |
| `SystemMoves.LaunchSafe` | backend/src/exec.rs:166-204 | starting a process panics in a reachable state if and only if an external command cannot be spawned |
| `SystemMoves.SpawnFailurePanics` | backend/src/exec.rs:259-263 | and then it always does |
| `SystemRuns.Safe` | frontend/src/main.rs:67-215 | in every interleaving of both sides, with any lines and any answers of the system, the event loop of a side panics if and only if the last move was refused: a failed spawn, open, save or editor, or a bad line |
| `SystemRuns.ExactlyOnce` | frontend/src/main.rs:173-207 | the frontend waits for the disjoint union of the processes on their way to the backend, runnable, running or waiting there, and answered on the way back; none twice |
| `SystemRuns.DirectoryComplete` | frontend/src/main.rs:84-98 | at every prompt the working directory can be taken in; what was gathered is all that its pipe produced, up to its end, and is the text with which the system answered when the question was started; it becomes the frontend's directory |
| `SystemRuns.AnswersGiven` | backend/src/exec.rs:287-313 | every answer on record was given by the move that started the process |
| `SystemRuns.BuiltInSays` | backend/src/exec.rs:287-314 | over every run: what is read of the outputs of a built-in, or of an edit whose file cannot be read, is the beginning, and at the end all, of what it says about the answer of the move that started it |
| `SystemRuns.OutputConserved` | frontend/src/comm.rs:69-91 | for every pipe the bytes received and those under way are, in order, the bytes produced; what was shown is what the output and error pipes delivered |
| `SystemRuns.NeverStuck` | frontend/src/main.rs:84-215 | while the frontend waits, some move that nothing refuses is possible and is no output of a program; a pipe has to end only when its write end was taken and no running command holds it, and what is read is the rest of what the backend itself wrote |
| `SystemRuns.SomeoneReads` | frontend/src/main.rs:148-173 | when nothing else is left, the backend has written the answer about the directory to the gathered pipe, and its rest can be read or its end comes |
| `SystemProgress.Bounded` | frontend/src/main.rs:67-215 | between prompts, at most a computed number of moves follows, three more for each piece of output that is read |
| `SystemProgress.ComesBack` | frontend/src/main.rs:67-215 | from every reachable state the frontend can be brought back to its prompt, without a program writing anything and without a pipe ending before its writers are done |
| `SystemWiring.LineRealized` | frontend/src/main.rs:107-207 | however a run goes on after a line was read: its commands that share a pipe of the plan hold the two ends of one pipe of the system, programs as the standard streams that the plan says; commands that write to a file hold that file; the directory is asked for only after the result of every command of the line was sent; by the next prompt all of this has happened; the line's first two pipes are shown as output and errors |
| `SystemWiring.ProgramsPiped` | backend/src/exec.rs:259-261 | if one program writes what another reads, the output or error stream of the first and the input stream of the second are the two ends of one pipe |
| `SystemWiring.ProgramFiled` | backend/src/exec.rs:259-261 | if a program writes to a file, that file is its output or error stream |
| `SystemWiring.PromptCompletes` | frontend/src/main.rs:84-85 | when no result is waited for, every process of a line is done and every connection that was planned between commands that take their ends exists |
| `SystemWiring.OutputsFlow` | backend/src/exec.rs:245-333 | in every reachable state the outputs of a command that was sent can be read and can end if and only if it was started and is not an edit that was begun |
| `SystemWiring.WriterOf` | backend/src/exec.rs:231-243 | a write end was taken only by the started command whose output it is |
| `SystemWiring.StepsConnected` | frontend/src/plan.rs:168-179 | two steps of which one reads what the other writes end up with the two ends of one pipe |
| `SystemWiring.AnsweredBefore` | backend/src/exec.rs:166-215 | a process starts only after the results of everything its request waits for were sent |
| `SystemResults.ResultsTell` | backend/src/exec.rs:166-215 | over every run, of every result that was sent: a program is reported with the code with which it exited, and its waiters see a success exactly for 0; an edit with 0 and a success, or with 1 and a failure if its file could not be read; a built-in always with 0, while its waiters see whether the system agreed |
| `SystemResults.ExitTold` | backend/src/exec.rs:211-215 | handling an exit sends exactly its code and makes the status a success exactly for 0, so not for -1, the code of a killed program |
| `SystemResults.EditTold` | backend/src/exec.rs:437-443 | when an edit that was asked about is saved, exactly the result 0 of its process is sent, which is the edit of the named file, and its status is a success |
| `SystemMeaning.LineShown` | frontend/src/comm.rs:71-78 | if the commands of a typed line write what they make of their input, what the frontend has received from its two pipes is at any time the beginning of the output and errors that evaluating the parsed line yields, and all of it if and only if everything was read and nothing is under way |
| `SystemMeaning.TypedIsShown` | frontend/src/main.rs:84-207 | the same for whatever line is typed in whatever run, and however the run goes on; the two pipes are shown as output and as errors |
| `SystemMeaning.LateOutput` | frontend/src/main.rs:167 | the prompt waits for the directory only: more output of a program can come at a prompt, and is then not yet shown |
| `SystemDepartures.WordAfterFilePanics` | frontend/src/parse.rs:136 | `a > b c` panics |
| `SystemDepartures.SequencePanics` | frontend/src/edit.rs:67-69 | `a;b` parses as a sequence and panics |
| `SystemDepartures.MissingDirectoryReportsZero` | backend/src/exec.rs:176-180 | `cd` to a missing directory fails for its waiters and is reported as 0 |
| `SystemReached.EditParksReached` | backend/src/exec.rs:315-331 | a run that types an edit piped into `cat` and starts both; however it goes on, the write end of the pipe that `cat` reads stays parked |
| `SystemReached.SpawnFailureReached` | backend/src/exec.rs:181-186 | a run that types a command that cannot be spawned, and panics |
| `SystemReached.OpenRefusedReached` | backend/src/exec.rs:335-342 | a run that types `a > f`, where the file cannot be made, and panics |

## Left out

- Cancellation (`backend/src/exec.rs:414-429`): kill and wait on operating-system processes, and Ctrl-C in the frontend.
- Remote backends: `BeginRemote`, `EndRemote` and nested routing; the interpreter panics on them and there is one remote, the root.
- The wire: JSON encoding, the transport over standard input and output, and process start-up of the backend; messages always travel.
- The operating system's means: pipes and threads can always be made (`backend/src/exec.rs:222`, `backend/src/exec.rs:236`), and the terminal works.
- File contents, and the temporary files around the editor, whose errors end the frontend's loop.
- Panics of the detached threads: of one that writes to a pipe nobody reads any more (`backend/src/exec.rs:400`: `cd /tmp | true`), and of one whose read fails (`backend/src/exec.rs:373`). They do not reach an event loop; in the model writing and reading do not fail.
- That `cd` changes the directory which is answered later: both answers are the system's.
- The wording of the system's errors: an arbitrary text.
- Reading limits: the backend ignores them (`backend/src/exec.rs:386`), and so does the model; end offsets are ignored by the frontend.
- Host names and prompt text; line editing, history and preference files; the editor program itself.
- After the frontend has left its loop, at the end of the input or on an error: runs of the joined system end there.
- `Plan::single`, gather and pager sinks (`frontend/src/plan.rs:74-100`, `frontend/src/plan.rs:181-191`): no compiled plan uses them.
- Overflow of identifiers: they are unbounded.
- Merging of requests and thread reports in the backend's one channel is modelled as two queues taken in any order, which includes every merge.
- Scheduler.Machine.Enqueue: when one dependency is unknown and another mismatches, the outcome depends on the visiting order; the contract allows both.
- SystemProgress.ComesBack: a running external command can always exit; nothing is said about one that never does, such as `cat` without input, or which reads the output of an edit, whose pipe the backend keeps open.
