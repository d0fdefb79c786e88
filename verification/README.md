# conda instruction interpreter — a Dafny model

This project models `conda/instructions.py`, the interpreter behind conda's
installation plans. A plan is a list of `(opcode, args)` entries. For each
entry, in order, `execute_instructions`:

- logs the entry;
- bumps the progress counter and reports an update, if a counter is running
  and the opcode is one of `EXTRACT`, `RM_EXTRACTED`, `LINK` or `UNLINK`;
- looks up the handler for the opcode, raising `InvaidInstruction` if there is
  none;
- runs the handler on the shared `state`;
- applies the stop test for the progress counter.

After the last entry, the install module is asked to show its pending
messages for the final prefix.

The model is pure. The `state` dictionary is the `Handlers.State` datatype.
Every call into a collaborator is recorded as one `Events.Event` in a trace:
`fetch_pkg`, `install.*`, and the `print`, `progress.*` and debug loggers. A
run's outcome is either `Ran(state, trace)` or `Halted(error, trace)`. Nothing
is rolled back when a handler raises, so `Halted` keeps every event emitted
up to that point.

Modules:

- `Values`: plan entries and argument values. A Python argument is a string,
  an integer or a tuple.
- `Opcodes`: the ten opcodes, the `commands` dispatch table and
  `progress_cmds`.
- `Events`: trace events, the collaborator each event calls, and three
  views of a trace:
  - the log lines announcing entries;
  - the progress reports;
  - the collaborator calls.
- `Handlers`: the execution state, the ten handlers, `fetch` and the
  `split_linkarg` helpers.
- `Executor`: one loop iteration (`Step`), the loop (`Loop`) and
  `execute_instructions` (`Execute`).
- `PlanOrder`: properties of whole runs:
  - entries run in order, each once, and each handler's calls are made
    once, in plan order;
  - a run stops at the first failure;
  - PREFIX rebinds the prefix that later handlers see.
- `ProgressProtocol`: the progress counter, as the code does it and as it
  was meant to work.

The stop test at line 117 checks `cmd in progress_cmds`. Here `cmd` is the
handler function, and `progress_cmds` is a set of strings, so the test is
never true. The executor is therefore parameterised by `StopTest`:

- `AsWritten` is the code's test, on the handler.
- `Intended` is the same test on the opcode name.

Every property in `PlanOrder` holds for both modes.

Two consequences of the code as written:

- The progress update is reported before the handler runs: the report at
  line 108 comes before the call at line 115.
- The branch at lines 117-119 exists to switch the counter off once `i`
  reaches `maxval`. As written its test never holds, so a started counter is
  never stopped and counts on past its maximum.

## Model

| member | source | states |
|---|---|---|
| Opcodes.Lookup | conda/instructions.py:76-87 | a name resolves only to the handler registered under that same name |
| Opcodes.LookupName | conda/instructions.py:76-87 | each of the ten handlers is found under its own opcode string, so the table is complete and no two handlers share a name |
| Opcodes.LookupMissing | conda/instructions.py:110-113 | `commands.get` returns None exactly when no handler has that name |
| Opcodes.ProgressCmdsAreCommands | conda/instructions.py:23 | every progress-eligible name has a handler, and the progress-eligible handlers are exactly EXTRACT, RM_EXTRACTED, LINK and UNLINK (not PROGRESS) |
| Opcodes.HandlerNeverInProgressCmds | conda/instructions.py:117 | testing a handler function for membership in `progress_cmds` is false for every handler; testing its name is true for exactly the four eligible opcodes |
| Handlers.ArityOk | conda/instructions.py:26-73 | every handler accepts exactly one argument; LINK also accepts two or three, and no handler accepts more than three or none |
| Handlers.LinkBindsOptionalArgs | conda/instructions.py:64-67 | LINK called with one, two or three arguments returns and links the dist from the given package cache or `pkgs_dirs[0]`, with the given link type or `LINK_HARD`, into the current prefix with the current index |
| Handlers.FetchArchive | conda/instructions.py:32-38 | the fetch succeeds iff there is an index, `dist` is a string and `dist + '.tar.bz2'` is a key of the index; the fetched entry is the one stored under that archive name, and that name splits back into `dist` and the suffix |
| Handlers.SplitLinkArgs | conda/instructions.py:61-62 | binding succeeds iff 1 to 3 arguments are given; missing ones default to `pkgs_dirs[0]` and `LINK_HARD` |
| Handlers.SplitLinkArg | conda/instructions.py:55-62 | a non-sequence argument is treated as a one-element tuple; a tuple splits iff it has 1 to 3 items; the dist is its first item, the package cache its second item or `pkgs_dirs[0]`, the link type its third item or `LINK_HARD` |
| Handlers.SplitLinkArgRoundTrip | conda/instructions.py:55-62 | splitting the triple that splitting produced gives the same triple back |
| Handlers.Handle | conda/instructions.py:26-73 | a handler raises iff its arity is wrong or FETCH finds no index entry. PREFIX only rebinds the prefix, PROGRESS only restarts the counter at 0 with the new maximum, and the others leave the state alone. Each handler except PREFIX makes exactly one collaborator call and none is a log line; LINK, UNLINK and SYMLINK_CONDA pass the current prefix; only PROGRESS reports progress, and it reports its start |
| Handlers.HandleCallsCollaborator | conda/instructions.py:29-73 | each returning handler makes its one call to its own collaborator (`print`, `fetch_pkg`, `progress.start`, `install.extract`, `install.rm_extracted`, `install.rm_fetched`, `install.link`, `install.unlink`, `install.symlink_conda`), and PREFIX calls nothing |
| Handlers.HandleIgnoresCounter | conda/instructions.py:26-73 | no handler reads the counter or the maximum: from states that differ only there it raises alike, makes the same calls and leaves the same prefix and index |
| Handlers.HandlerPassesArgument | conda/instructions.py:29-73 | the full call each handler makes: EXTRACT, RM_EXTRACTED and RM_FETCHED call their function with `pkgs_dirs[0]` and the dist; UNLINK and SYMLINK_CONDA with the current prefix and their argument; LINK with the dist, the current prefix and the index; PRINT prints its argument; PROGRESS reports it as the maximum; FETCH fetches the index entry of `dist + '.tar.bz2'` |
| Handlers.LinkAgreesWithSplitLinkArg | conda/instructions.py:55-67 | LINK binds its optional arguments with the same defaults as `split_linkarg` |
| Executor.Init | conda/instructions.py:100 | a run starts at the root prefix with the given index and no counter, so no stop test can fire before a PROGRESS entry |
| Executor.StopOperand | conda/instructions.py:117 | as written the tested object (the handler) is never in `progress_cmds`; with the intended operand it is in it exactly for the four eligible opcode names |
| Executor.StopFires | conda/instructions.py:117-119 | the stop test holds iff the intended operand is used, the opcode is eligible, a counter is running and the maximum equals it |
| Executor.Step | conda/instructions.py:102-119 | an iteration first logs its entry and logs nothing else. An unknown opcode halts with InvalidInstruction after only the log line, and every error names the entry. A completed entry had at least one argument, and PREFIX's argument becomes the prefix. The index is never changed |
| Executor.StepHalts | conda/instructions.py:106-115 | an iteration halts iff the opcode has no handler or its handler raises; a raising handler leaves only the log line and the progress update, with MalformedArgs only when the update had no argument to report |
| Executor.StepShape | conda/instructions.py:104-119 | a completed iteration's trace is its log line, its progress update, its handler's calls exactly once, and possibly the stop report |
| Executor.Loop | conda/instructions.py:102-119 | an empty plan does nothing. The loop never shows the install messages, and a completed loop means that every entry had an argument |
| Executor.Execute | conda/instructions.py:95-121 | an empty plan only shows the messages for the root prefix. A completed run ends with exactly one messages call, for its final prefix, and a failed run makes none |
| PlanOrder.LoopAppend | conda/instructions.py:102-119 | running `p + q` is running `p` and then, if it completed, `q` from the state it left |
| PlanOrder.StepAnnouncesOnce | conda/instructions.py:104 | every iteration logs exactly its own entry, once |
| PlanOrder.LoopRunsInPlanOrder | conda/instructions.py:102-119 | a completed loop has logged exactly the plan, in order. A failed loop has logged a non-empty prefix of the plan and names the last entry of that prefix |
| PlanOrder.ExecuteRunsInPlanOrder | conda/instructions.py:95-121 | the same for a whole run: the entries are logged in plan order, each once, and a failed run stops at, and names, the last entry it logged |
| PlanOrder.UnknownOpcodeHalts | conda/instructions.py:110-113 | an entry with no handler ends the run with InvalidInstruction; the trace is the earlier entries' trace plus its log line, with no rollback and nothing after it |
| PlanOrder.HandlerFailureHalts | conda/instructions.py:115 | an entry whose handler raises ends the run with HandlerFailure naming it (MalformedArgs if it had no argument for the update): the earlier entries' trace stays, the entry adds its log line and update, nothing after it runs and no messages are shown |
| PlanOrder.StepCalls | conda/instructions.py:102-119 | an iteration completes iff its handler, run on its own from the same prefix and index, returns; a completed iteration makes exactly that handler's calls, and a halted one makes none |
| PlanOrder.LoopMakesHandlerCalls | conda/instructions.py:102-115 | the loop's calls are the reference's: each entry's handler calls appear once, in plan order, up to the first entry that has no handler or raises |
| PlanOrder.ExecuteMakesHandlerCalls | conda/instructions.py:95-121 | apart from the final messages call, a whole run makes exactly the reference's calls from the root prefix |
| PlanOrder.PrefixOnlyRebinds | conda/instructions.py:26-27 | PREFIX p only sets the prefix to p and logs the entry: no counter change, no call |
| PlanOrder.LoopPrefixIsLatest | conda/instructions.py:26-27 | after a completed stretch, the prefix is the argument of its last PREFIX entry, or the prefix it started with |
| PlanOrder.LatestPrefixCons | conda/instructions.py:26-27 | the latest PREFIX argument of a plan is the latest of its tail, starting from the prefix in force after its first entry |
| PlanOrder.StepUsesPrefix | conda/instructions.py:64-73 | LINK, UNLINK and SYMLINK_CONDA call the install module with the prefix of the state they run in and their own first argument |
| PlanOrder.PrefixUsersSeeLatestPrefix | conda/instructions.py:64-73 | in a completed run, the stretch of the trace belonging to each LINK, UNLINK or SYMLINK_CONDA entry holds its call, with the entry's argument and the prefix of the most recent PREFIX before it, or the root prefix |
| PlanOrder.MessagesForLatestPrefix | conda/instructions.py:121 | a completed run shows the messages for the prefix of the plan's last PREFIX, or for the root prefix |
| ProgressProtocol.ExpectedUpdatesNumbered | conda/instructions.py:106-108 | the reference update sequence numbers its reports c+1, c+2, … consecutively |
| ProgressProtocol.ProgressRestarts | conda/instructions.py:40-43 | PROGRESS n sets the counter to 0 and the maximum to n from any state, whether or not a counter is running, and reports only the start |
| ProgressProtocol.StepWhileIdle | conda/instructions.py:106-108 | with no counter running, an entry other than PROGRESS reports no progress and leaves the counter off |
| ProgressProtocol.StepCountsEligible | conda/instructions.py:106-119 | with the counter at c, a completed eligible entry reports (first argument, c+1). With the intended test, when c+1 equals the maximum it then reports a stop and switches the counter off; otherwise the counter is c+1 |
| ProgressProtocol.StepSkipsIneligible | conda/instructions.py:106-108 | with the counter running, a non-eligible entry other than PROGRESS leaves the counter and maximum alone and reports nothing |
| ProgressProtocol.StepNeverStops | conda/instructions.py:117-119 | as written, no iteration ever reports a stop |
| ProgressProtocol.NoStopAsWritten | conda/instructions.py:117-119 | as written, the loop never reports a stop, for any plan and from any state, whether it completes or fails |
| ProgressProtocol.NoStopExecuteAsWritten | conda/instructions.py:95-121 | as written, no run reports a stop |
| ProgressProtocol.IdleRun | conda/instructions.py:100-108 | before any PROGRESS, a completed stretch reports no progress and the counter stays off |
| ProgressProtocol.CountingRun | conda/instructions.py:102-119 | with the counter at c and no restart, a completed stretch reports exactly the reference updates c+1 … c+e, in order (e is the number of eligible entries), and leaves the counter at c+e. This holds as written always, and as intended whenever the maximum lies outside that range |
| ProgressProtocol.StopAtMaxIntended | conda/instructions.py:117-119 | with the intended test, a counter whose maximum is reached exactly by the stretch reports every update, then one stop right after the last, and ends switched off |
| ProgressProtocol.ExecuteAroundProgress | conda/instructions.py:40-43 | a completed run through PROGRESS n reports what came before, then the start, then what the rest reports from a counter restarted at 0 with maximum n, and ends where the rest ends |
| ProgressProtocol.ProgressCountsPastMax | conda/instructions.py:95-121 | as written, after PROGRESS n with no later restart, the reports are those made before it, then the start, then updates 1 … e (e is the number of eligible entries after it), whatever n is. No stop is reported, and the counter ends at e with maximum n |
| ProgressProtocol.ProgressStopsAtMaxIntended | conda/instructions.py:95-121 | as intended, after PROGRESS m followed by a stretch of exactly m eligible entries and no later restart, the reports are those made before it, then the start, updates 1 … m and one stop, and nothing after it; the counter ends off |
| ProgressProtocol.ExtractsComplete | conda/instructions.py:45-46 | a plan of single-argument EXTRACT entries always completes |
| ProgressProtocol.TwoExtractsAsWritten | conda/instructions.py:117 | on PROGRESS 1, EXTRACT a, EXTRACT b the code reports start, update 1, update 2 and no stop, and ends with the counter at 2, past its maximum |
| ProgressProtocol.TwoExtractsIntended | conda/instructions.py:117 | on the same plan, the intended test reports start, update 1 and a stop, then nothing more, and ends with the counter off |

## Left out

- Verbose mode (`setup_verbose_handlers`, lines 96-98) is left out: it only configures console logging.
- The collaborators are not modelled: `fetch_pkg`, `install.*` and the loggers. Each call is an event carrying its arguments. Failures inside them are not modelled, for example `install.extract` rejecting a non-string package.
- Python's exception classes are collapsed into three `Executor.Error` cases:
  - `InvalidInstruction` for the missing handler;
  - `MalformedArgs` for `args[0]` of an empty tuple at the progress update;
  - `HandlerFailure` for any error a handler raises (wrong arity, no index, missing index key, non-string `dist`).

  The exception messages are not modelled.
- `config.root_dir`, `config.pkgs_dirs[0]` and `install.LINK_HARD` are one `Config` value per run, because the LINK defaults are bound at import time.
- A plan entry is taken to be a pair of a string opcode and a tuple of arguments. A non-string opcode (such as `None` or `3`, which has no handler and raises `InvaidInstruction`, or an unhashable list, which raises TypeError at line 106 or 110) is not modelled. An entry that does not unpack into two values, or a string `args` (which `*args` would spread into characters), is not modelled.
- `state['maxval'] == state['i']` is modelled as equality with an integer argument. Floats and booleans are not argument values here, so `1.0 == 1` and `True == 1` are not modelled.
- `action_codes` (line 24) is left out because the interpreter never uses it.

## Findings

| source | as written | input that shows it | evidently intended | confidence | as-written member | corrected member |
|---|---|---|---|---|---|---|
| conda/instructions.py:117 | the stop test checks `cmd in progress_cmds`, where `cmd` is the handler function; a function never equals a string, so the counter is never stopped and counts past its maximum | plan `PROGRESS 1, EXTRACT a, EXTRACT b`: updates 1 and 2, no stop, counter left at 2 | `instruction in progress_cmds`: stop right after the update that reaches the maximum | high; not executed | ProgressProtocol.TwoExtractsAsWritten | ProgressProtocol.ProgressStopsAtMaxIntended |
