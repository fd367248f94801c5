/** main's checks before anything is spawned: the argument count, the
    partition and the two empty-command checks. */
module Startup {
  import opened Options
  import opened CommandBuilder
  import opened Partition

  /** What main does with its arguments before spawning anything. */
  datatype Launch =
    | UsageError  // usage printed to standard error, exit code 1
    | SlicePanic  // the slice in parse_arguments is out of range
    | Start(pollCommand: string, runCommand: string, config: Config)

  /** main as written: the count check, parse_arguments, then the check for
      an empty command. */
  function StartupAsWritten(args: seq<string>): (l: Launch)
    ensures |args| < 3 ==> l == UsageError
    ensures l.Start? ==> l.pollCommand != "" && l.runCommand != ""
    ensures l.Start? ==> l.config == ConfigOf(args) && EndsWith(l.runCommand, Last(args))
  {
    if |args| < 3 then UsageError
    else if OptionsEnd(args) >= |args| then SlicePanic
    else
      var poll, run := PollOf(Scanned(args)), RunOf(Scanned(args), Last(args));
      if poll == "" || run == "" then UsageError else Start(poll, run, ConfigOf(args))
  }

  /** The evidently intended gate: too few command words is a usage error,
      including when every argument after the program name is `-v`. */
  function CorrectedGate(args: seq<string>): (l: Launch)
    ensures l != SlicePanic
  {
    if |args| < 3 || OptionsEnd(args) >= |args| then UsageError else StartupAsWritten(args)
  }

  /** As written, main panics exactly when there are at least three arguments
      and every one after the program name is `-v`. */
  lemma AsWrittenPanics(args: seq<string>)
    ensures StartupAsWritten(args) == SlicePanic <==>
      |args| >= 3 && forall j :: 1 <= j < |args| ==> args[j] == VerboseFlag
  {
    ScanInRange(args);
  }

  /** `runtil -v -v` passes the count check and then panics. */
  lemma FlagsOnlyPanics()
    ensures StartupAsWritten(["runtil", "-v", "-v"]) == SlicePanic
  {
    AsWrittenPanics(["runtil", "-v", "-v"]);
  }

  /** The corrected gate changes nothing but the panic. */
  lemma StartupAgrees(args: seq<string>)
    ensures StartupAsWritten(args) != SlicePanic ==> CorrectedGate(args) == StartupAsWritten(args)
    ensures StartupAsWritten(args) == SlicePanic ==> CorrectedGate(args) == UsageError
  {
  }

  /** Fewer than two words after the options is a usage error. */
  lemma FewWordsIsUsage(args: seq<string>)
    requires CommandWordCount(args) < 2
    ensures CorrectedGate(args) == UsageError
  {
    if |args| >= 3 && OptionsEnd(args) < |args| {
      assert Scanned(args) == [];
    }
  }

  /** When the slice is in range, main as written and the corrected gate
      both give a usage error exactly when there are fewer than three
      arguments, when every poll word is empty, or when the last argument and
      every run word are empty. */
  lemma UsageIff(args: seq<string>)
    requires OptionsEnd(args) < |args|
    ensures StartupAsWritten(args) == UsageError <==>
      |args| < 3
      || AllEmpty(Before(Scanned(args)))
      || (Last(args) == "" && AllEmpty(Words(After(Scanned(args)))))
    ensures CorrectedGate(args) == UsageError <==> StartupAsWritten(args) == UsageError
  {
    CommandEmptyIff(Scanned(args), Last(args));
  }

  /** What a start of main as written hands on: two non-empty commands, the
      run command ending with the last argument, verbose exactly when the
      first argument after the program name is `-v`, and the kill code 124. */
  lemma StartFacts(args: seq<string>)
    requires StartupAsWritten(args).Start?
    ensures StartupAsWritten(args).pollCommand != "" && StartupAsWritten(args).runCommand != ""
    ensures EndsWith(StartupAsWritten(args).runCommand, Last(args))
    ensures StartupAsWritten(args).config.verbose <==> args[1] == VerboseFlag
    ensures StartupAsWritten(args).config.killConditionCode == 124
    ensures CorrectedGate(args) == StartupAsWritten(args)
  {
    AppExtends(Join(Words(After(Scanned(args)))), Last(args));
  }
}
