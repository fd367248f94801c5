/** The option prefix of runtil's command line: a run of `-v` flags right
    after the program name, and the configuration built from it. */
module Options {

  /** Rust's `i32`, the type of exit codes. */
  newtype i32 = x: int | -0x8000_0000 <= x < 0x8000_0000

  /** The one recognised option: print the two resolved command strings. */
  const VerboseFlag: string := "-v"

  /** Exit code reported when the run command is killed because the poll
      command succeeded first (the conventional "timed out" code). */
  const KillConditionCode: i32 := 124

  /** Built once at startup and never changed afterwards. */
  datatype Config = Config(verbose: bool, killConditionCode: i32)

  function Max(a: nat, b: nat): nat { if a < b then b else a }

  /** The index just past the maximal run of `-v` tokens that starts at `from`. */
  function FlagsEnd(args: seq<string>, from: nat): (k: nat)
    ensures from <= k <= Max(from, |args|)
    ensures forall j :: from <= j < k ==> args[j] == VerboseFlag
    ensures k < |args| ==> args[k] != VerboseFlag
    decreases |args| - from
  {
    if from < |args| && args[from] == VerboseFlag then FlagsEnd(args, from + 1) else from
  }

  /** Where option scanning stops: scanning starts at index 1, just after
      the program name. */
  function OptionsEnd(args: seq<string>): nat
  {
    FlagsEnd(args, 1)
  }

  /** The configuration parse_options builds: verbose when at least one
      `-v` was consumed, and the fixed kill code. */
  function ConfigOf(args: seq<string>): Config
  {
    Config(OptionsEnd(args) > 1, KillConditionCode)
  }

  /** parse_options: consume consecutive `-v` tokens from index 1 and stop at
      the first other token. */
  method ParseOptions(args: seq<string>) returns (index: nat, config: Config)
    ensures index == OptionsEnd(args)
    ensures 1 <= index <= Max(1, |args|)
    ensures forall j :: 1 <= j < index ==> args[j] == VerboseFlag
    ensures index < |args| ==> args[index] != VerboseFlag
    ensures config.verbose <==> index > 1
    ensures config.killConditionCode == 124
    ensures config == ConfigOf(args)
  {
    var verbose := false;
    index := 1;
    while index < |args|
      invariant 1 <= index <= Max(1, |args|)
      invariant forall j :: 1 <= j < index ==> args[j] == VerboseFlag
      invariant verbose <==> index > 1
      invariant FlagsEnd(args, index) == OptionsEnd(args)
      decreases |args| - index
    {
      if args[index] == VerboseFlag {
        verbose := true;
      } else {
        break;
      }
      index := index + 1;
    }
    config := Config(verbose, KillConditionCode);
  }

  /** The slice that parse_arguments takes after option scanning is in range
      exactly when some argument after the program name is not `-v`. */
  lemma {:induction false} ScanInRange(args: seq<string>)
    ensures OptionsEnd(args) < |args| <==> exists j :: 1 <= j < |args| && args[j] != VerboseFlag
  {
    var k := OptionsEnd(args);
    if k < |args| {
      assert 1 <= k && args[k] != VerboseFlag;
    }
  }

  /** The number of tokens left after the options: the words of the two commands. */
  function CommandWordCount(args: seq<string>): nat
  {
    if OptionsEnd(args) < |args| then |args| - OptionsEnd(args) else 0
  }
}
