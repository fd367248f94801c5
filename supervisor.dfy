/** The outcome side of runtil: how the run task's end becomes the program's
    exit code, how main's race between the run task and the poll loop ends,
    and the spacing of poll attempts. Processes, cancellation tokens and the
    clock are not modelled; what they report is taken as input. */
module Supervisor {
  import opened Options

  datatype Option<T> = None | Some(value: T)

  /** How the run command ends, as run_task observes it. */
  datatype RunEnd =
    | SpawnFailed               // spawning `sh -c` failed
    | Exited(status: Option<i32>)  // wait() gave a status; None when killed by a signal
    | WaitFailed                // wait() itself failed
    | Cancelled(killed: bool)   // the token fired first; whether kill() succeeded

  /** How the whole program ends. */
  datatype Termination = Exit(code: i32) | Panic

  /** The exit code run_task yields. A spawn or kill failure is an `expect`
      that panics. A status without a code (the command was ended by a
      signal) gives 1, and so does a failed wait, which prints a message and
      exits with 1. */
  function RunTask(end: RunEnd, config: Config): (t: Termination)
    ensures t == Panic <==> end == SpawnFailed || end == Cancelled(false)
    ensures end.Exited? && end.status.Some? ==> t == Exit(end.status.value)
    ensures end == Exited(None) || end == WaitFailed ==> t == Exit(1)
    ensures end == Cancelled(true) ==> t == Exit(config.killConditionCode)
  {
    match end
    case SpawnFailed => Panic
    case Exited(status) => Exit(match status case Some(c) => c case None => 1)
    case WaitFailed => Exit(1)
    case Cancelled(killed) => if killed then Exit(config.killConditionCode) else Panic
  }

  /** Which arm of main's select completes first, with the end of the run
      task that is then awaited. */
  datatype Race =
    | RunTaskFirst(end: RunEnd)    // the run task finished; the poll loop is cancelled
    | ConditionFirst(end: RunEnd)  // the poll command succeeded; the run task is cancelled and awaited
    | PollOutputFailed             // running a poll command or collecting its output failed: an `expect` panics

  /** Only the conditional arm cancels the run task's token, so a run task
      that finished first was never cancelled. */
  predicate Reachable(race: Race)
  {
    race.RunTaskFirst? ==> !race.end.Cancelled?
  }

  /** How main ends once the race is decided. */
  function Finish(race: Race, config: Config): (t: Termination)
    requires Reachable(race)
    ensures t == Panic <==>
      race.PollOutputFailed? || race.end == SpawnFailed || race.end == Cancelled(false)
    ensures t.Exit? ==>
      t.code == config.killConditionCode || t.code == 1 || race.end == Exited(Some(t.code))
    ensures !race.PollOutputFailed? && race.end.Exited? && race.end.status.Some? ==>
      t == Exit(race.end.status.value)
    ensures !race.PollOutputFailed? && (race.end == Exited(None) || race.end == WaitFailed) ==>
      t == Exit(1)
    ensures race == ConditionFirst(Cancelled(true)) ==> t == Exit(config.killConditionCode)
    ensures t == Exit(config.killConditionCode) && config.killConditionCode != 1 ==>
      race == ConditionFirst(Cancelled(true)) || race.end == Exited(Some(config.killConditionCode))
  {
    match race
    case RunTaskFirst(end) => RunTask(end, config)
    case ConditionFirst(end) => RunTask(end, config)
    case PollOutputFailed => Panic
  }

  /** Both arms exit with what the run task yields: which arm wins does not
      matter once the run task's end is known. A run task that was cancelled
      can only be awaited in the conditional arm. */
  lemma WinnerIrrelevant(end: RunEnd, config: Config)
    requires !end.Cancelled?
    ensures Finish(RunTaskFirst(end), config) == Finish(ConditionFirst(end), config) == RunTask(end, config)
  {
  }

  /** The run command's own exit code is propagated when it exits first. */
  lemma RunExitPropagated(c: i32, config: Config)
    ensures Finish(RunTaskFirst(Exited(Some(c))), config) == Exit(c)
  {
  }

  /** A poll success that kills the run command exits with the kill code. */
  lemma ConditionMetKills(config: Config)
    ensures Finish(ConditionFirst(Cancelled(true)), config) == Exit(config.killConditionCode)
  {
  }

  /** Nanoseconds per second: tokio's Duration has nanosecond resolution. */
  const NanosPerSecond: nat := 1_000_000_000

  /** The time between the starts of two consecutive poll attempts, at least. */
  const PollInterval: nat := 2 * NanosPerSecond

  /** The sleep after a failed poll attempt that took `elapsed`. */
  function PollDelay(elapsed: nat): (delay: nat)
    ensures delay <= PollInterval
    ensures elapsed < PollInterval ==> elapsed + delay == PollInterval
    ensures elapsed >= PollInterval ==> delay == 0
  {
    if elapsed < PollInterval then PollInterval - elapsed else 0
  }

  /** Start times, relative to the first, of the poll attempts that follow a
      run of failed attempts taking `took[0]`, `took[1]`, ... each. */
  function AttemptStarts(took: seq<nat>): (starts: seq<nat>)
    ensures |starts| == |took| + 1 && starts[0] == 0
    ensures starts[|took|] >= |took| * PollInterval
  {
    if took == [] then [0]
    else
      var prev := AttemptStarts(took[..|took| - 1]);
      var d := took[|took| - 1];
      prev + [prev[|prev| - 1] + d + PollDelay(d)]
  }

  /** Consecutive attempts start PollInterval apart when an attempt is
      quicker than that, and back to back when it is not; an attempt always
      ends before the next one starts. */
  lemma {:induction false} AttemptSpacing(took: seq<nat>, i: nat)
    requires i < |took|
    ensures AttemptStarts(took)[i + 1] == AttemptStarts(took)[i] + Max(PollInterval, took[i])
    ensures AttemptStarts(took)[i] + took[i] <= AttemptStarts(took)[i + 1]
  {
    var init := took[..|took| - 1];
    if i < |took| - 1 {
      AttemptSpacing(init, i);
      assert AttemptStarts(took)[..|took|] == AttemptStarts(init);
    }
  }
}
