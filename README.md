# runtil: argument partitioner and exit-code rules

runtil runs two shell commands side by side. The run command is started
once. The poll command is run again and again until it succeeds. If the run
command exits first, its exit code is the program's. If the poll command
succeeds first, the run command is killed and the program exits with the
kill code, 124.

This project models the sequential core of `src/main.rs` in Dafny:

- `Options` models `parse_options`. It is a loop that consumes the `-v`
  flags right after the program name. The module also holds the `Config`
  record and Rust's `i32` as a newtype.
- `CommandBuilder` models how a command string grows: a token is appended,
  with one space before it only when the string is already non-empty.
  `Join` folds that step over a token list. `SpaceJoin` is the plain join,
  kept as an independent reference.
- `Partition` models `parse_arguments`. It is a loop over every argument
  after the options except the last, proved against the spec functions
  `PollOf` and `RunOf`.
- `Supervisor` turns how the run task ends into the program's outcome for
  each arm of main's `select!`. It also holds the sleep between poll attempts
  and the start times of attempts that follow one another.
- `Startup` models main's checks before anything is spawned. It holds the
  gate as written and a corrected gate (see Findings).

Durations are natural numbers of nanoseconds, as tokio's `Duration` counts
them. Spawning processes, the cancellation tokens, the clock and all printing
are inputs or are left out. What a process reports (an exit status, a wait
error, a kill result) is given as a parameter.

Two behaviours a reader may not expect:

- The separator flag is only ever set to true (src/main.rs:50-51). Every
  `--` in the scanned range is dropped, and a second `--` never switches
  back to the poll command. A per-token toggle is not what the code does.
  `Partition.LaterSeparatorsIgnored` states this.
- A failure to spawn the run command, to kill it, or to run a poll command
  and collect its output, is an `expect` that panics (src/main.rs:79, 84,
  111). It is not an `exit(1)`.
  The model reports these as `Panic`. Only a failed `wait` exits with 1
  (src/main.rs:91-94).

## Model

| member | source | states |
|---|---|---|
| Options.FlagsEnd | src/main.rs:28-34 | The scan stops just past the maximal run of `-v` tokens from its start: every token it passes is `-v`, and the token it stops at, if any, is not. It never moves past the end. |
| Options.ParseOptions | src/main.rs:24-37 | The returned index is the end of the `-v` run that starts at 1. It is 1 when there are no arguments after the program name. Every token in `args[1..index]` is `-v`, and `args[index]` is not `-v` when it exists. `verbose` holds exactly when `index > 1`. The kill code is always 124. |
| Options.ScanInRange | src/main.rs:49 | The slice `args[index..len-1]` is in range exactly when some argument after the program name is not `-v`. |
| CommandBuilder.App | src/main.rs:53-56 | One append step gives the empty string exactly when both the string so far and the token are empty. |
| CommandBuilder.AppExtends | src/main.rs:53-56 | One append step keeps the string built so far as a prefix, and the result ends with the appended token. |
| CommandBuilder.JoinIsSpaceJoin | src/main.rs:53-61 | Appending tokens one by one gives the plain space-separated join of the tokens once the leading empty tokens are dropped. A later empty token still adds a space. |
| CommandBuilder.JoinEmptyIff | src/main.rs:53-61 | The built string is empty exactly when every token is empty. |
| CommandBuilder.JoinStartsWithFirstWord | src/main.rs:53-61 | The built string starts with the first non-empty token. |
| CommandBuilder.JoinOfWords | src/main.rs:53-61 | With no empty tokens, the built string is the plain space-separated join. |
| CommandBuilder.JoinNoLeadingSpace | src/main.rs:53-61 | If no token starts with a space, the built string does not start with one either. |
| Partition.PollStep | src/main.rs:50-62 | One scanned token extends the poll command by one append step, unless a separator has been seen or the token is the separator. |
| Partition.RunStep | src/main.rs:50-56 | The run-side string stays empty until a separator has been seen. After that, every non-separator token is appended by one append step. |
| Partition.ScanStep | src/main.rs:49-63 | One loop iteration keeps the loop's state: the flag says whether a `--` has been scanned, and the two strings are the folds of the scanned tokens. A `--` only sets the flag. Any other token is appended to the run side once the flag is set, and to the poll side before. |
| Partition.ParseArguments | src/main.rs:39-72 | Requires the slice to be in range. The poll command is `PollOf` of the scanned tokens: the fold of the tokens before the first `--`. The run command is `RunOf`: the fold of the non-`--` tokens after the first `--`, then the last argument. The run command always ends with the last argument. The config is the one parse_options builds. |
| Partition.NoSeparator | src/main.rs:48-69 | With no `--` in the scanned range, the poll command joins every scanned token and the run command is exactly the last argument. |
| Partition.WithSeparator | src/main.rs:48-69 | With a `--`, the tokens before its first occurrence make the poll command. The run command is the fold of the separator-free tokens after it, followed by the last argument. |
| Partition.LaterSeparatorsIgnored | src/main.rs:50-51 | Removing a second `--` changes neither command: the flag is never set back. |
| Partition.SeparatorsDropped | src/main.rs:50-62 | No `--` token is among the tokens that make up the poll command, or the run command apart from the last argument. Every such token comes from the scanned range. |
| Partition.CommandsNoLeadingSpace | src/main.rs:53-69 | If no scanned token and not the last argument starts with a space, neither command starts with a space. |
| Partition.CommandEmptyIff | src/main.rs:44-69 | The poll command is empty exactly when every token before the first `--` is empty. The run command is empty exactly when the last argument and every run-side token are empty. |
| Supervisor.RunTask | src/main.rs:74-98 | run_task panics exactly when the spawn fails or the kill fails. A run command that exits with a code yields that code. A status with no code, or a failed wait, yields 1. A successful kill yields the kill code. |
| Supervisor.Finish | src/main.rs:155-170 | Requires that a run task which finished first was not cancelled: only the conditional arm cancels it (src/main.rs:167). The program panics exactly when running a poll command or collecting its output fails, the run spawn fails, or the kill fails. A run command's own code is passed on. A status with no code, or a failed wait, gives 1. After a successful kill in the conditional arm, the code is the kill code. When the kill code is not 1, the program exits with it only after a successful kill, or when the run command itself exited with that code. |
| Supervisor.WinnerIrrelevant | src/main.rs:155-170 | Both arms of the race exit with what the run task yields. Which arm wins does not matter once the run task's end is known. |
| Supervisor.RunExitPropagated | src/main.rs:87-90 | A run command that exits first with code c makes the program exit with c. |
| Supervisor.ConditionMetKills | src/main.rs:82-85 | When the poll succeeds first and the kill works, the program exits with the configured kill code. |
| Supervisor.PollDelay | src/main.rs:117-121 | The sleep is never more than 2 s. When the attempt took less than 2 s, attempt time plus sleep is exactly 2 s. Otherwise there is no sleep. |
| Supervisor.AttemptStarts | src/main.rs:101-122 | There is one start time per attempt, and one more for the attempt that follows. The first is 0. After n failed attempts, the next attempt starts no earlier than n times 2 s. |
| Supervisor.AttemptSpacing | src/main.rs:101-122 | Consecutive attempts start max(2 s, attempt time) apart, and each attempt ends before the next one starts. |
| Startup.StartupAsWritten | src/main.rs:127-141 | As written, fewer than three arguments is a usage error. When the commands are started, both are non-empty, the config is the one parse_options builds, and the run command ends with the last argument. |
| Startup.CorrectedGate | src/main.rs:127-141 | The corrected gate never panics. |
| Startup.AsWrittenPanics | src/main.rs:128-132 | As written, main panics exactly when there are at least three arguments and every one after the program name is `-v`. |
| Startup.FlagsOnlyPanics | src/main.rs:128-132 | `runtil -v -v` passes the count check and then panics in parse_arguments. |
| Startup.StartupAgrees | src/main.rs:127-141 | The corrected gate agrees with main as written on every input except those that panic. On those it gives a usage error. |
| Startup.FewWordsIsUsage | src/main.rs:128-141 | Under the corrected gate, fewer than two words after the options is a usage error (exit code 1). |
| Startup.UsageIff | src/main.rs:128-141 | When some argument after the program name is not `-v`, main as written gives a usage error exactly when there are fewer than three arguments, or every poll-side token is empty, or the last argument and every run-side token are empty. The corrected gate gives a usage error on exactly the same inputs. |
| Startup.StartFacts | src/main.rs:132-141 | When main as written starts the commands, both are non-empty and the run command ends with the last argument. Verbose holds exactly when the first argument after the program name is `-v`. The kill code is 124. The corrected gate starts the same commands. |

## Left out

- Process spawning through `sh -c`, `.output()`, `.wait()` and `.kill()` (src/main.rs:75-79, 84, 104-107). These are external processes. Their results are the `Supervisor.RunEnd` and `Supervisor.Race` inputs.
- The `tokio::select!` races and the two cancellation tokens (src/main.rs:81-97, 110-115, 144-170). The point of these is concurrency. Only the exit-code choice, as a function of which arm won, is modelled.
- The control flow of the poll loop in `run_conditional`: racing one attempt against the token and returning on success (src/main.rs:100-116). Only the delay arithmetic and the resulting start times are modelled. The panic when a poll command cannot be run, or its output cannot be collected, is modelled as `Supervisor.Race.PollOutputFailed`.
- Supervisor.AttemptSpacing: assumes the sleep lasts exactly the requested time and that no time passes between one attempt's end and the next one's start. A real timer may oversleep.
- `Instant::now()` and `sleep` (src/main.rs:102, 118, 120). These are the clock. An attempt's duration is an input.
- `print_usage`, the verbose `println!`, `eprintln!` and `exit()` (src/main.rs:14-22, 92, 134-137). This is I/O. The exit code or panic is a returned value.
- `env::args()` (src/main.rs:127). The arguments are a `seq<string>` parameter. The panic `env::args()` raises when an argument is not valid Unicode is outside the model.
- The exit status the operating system reports is the code modulo 256, and a Rust panic exits with 101. Both are outside the program text, so the model stops at `Exit(code)`, `Panic` and `SlicePanic`.
- Idempotence of parsing is not stated separately. Every operation is a function of its arguments, or a method proved equal to one.

## Findings

| source | as written | input that shows it | evidently intended | confidence | as-written member | corrected member |
|---|---|---|---|---|---|---|
| src/main.rs:128-132, 49 | Only `args.len() < 3` is checked before `parse_arguments`. When every argument after the program name is `-v`, the option scan passes the last index. The slice `args[index..len-1]` then panics. | `["runtil", "-v", "-v"]` | Too few command words is a usage error with exit code 1, as it is for `runtil -v x`. | not executed | Startup.FlagsOnlyPanics | Startup.FewWordsIsUsage |
