/** parse_arguments: split the arguments after the options into the poll
    command and the run command. */
module Partition {
  import opened Options
  import opened CommandBuilder

  /** The explicit boundary between poll words and run words. */
  const Separator: string := "--"

  /** The tokens before the first separator (all of them when there is none). */
  function Before(ts: seq<string>): seq<string>
  {
    if ts == [] || ts[0] == Separator then [] else [ts[0]] + Before(ts[1..])
  }

  /** The tokens after the first separator (none when there is no separator). */
  function After(ts: seq<string>): seq<string>
  {
    if ts == [] then [] else if ts[0] == Separator then ts[1..] else After(ts[1..])
  }

  /** `ts` with every separator removed. */
  function Words(ts: seq<string>): seq<string>
  {
    if ts == [] then []
    else if ts[0] == Separator then Words(ts[1..])
    else [ts[0]] + Words(ts[1..])
  }

  /** The poll command built from the scanned tokens. */
  function PollOf(ts: seq<string>): string
  {
    Join(Before(ts))
  }

  /** The run command built from the scanned tokens and the last argument. */
  function RunOf(ts: seq<string>, last: string): string
  {
    App(Join(Words(After(ts))), last)
  }

  /** The tokens the loop of parse_arguments visits: every argument after the
      options except the last one. */
  function Scanned(args: seq<string>): seq<string>
    requires OptionsEnd(args) < |args|
  {
    args[OptionsEnd(args)..|args| - 1]
  }

  function Last(args: seq<string>): string
    requires args != []
  {
    args[|args| - 1]
  }

  lemma {:induction false} BeforeSnoc(ts: seq<string>, t: string)
    ensures Before(ts + [t]) ==
      if Separator in ts || t == Separator then Before(ts) else Before(ts) + [t]
  {
    if ts == [] {
      assert ts + [t] == [t];
    } else {
      assert (ts + [t])[1..] == ts[1..] + [t];
      assert (ts + [t])[0] == ts[0];
      BeforeSnoc(ts[1..], t);
      assert Separator in ts <==> ts[0] == Separator || Separator in ts[1..];
    }
  }

  lemma {:induction false} AfterSnoc(ts: seq<string>, t: string)
    ensures After(ts + [t]) == if Separator in ts then After(ts) + [t] else []
  {
    if ts == [] {
      assert ts + [t] == [t];
    } else {
      assert (ts + [t])[1..] == ts[1..] + [t];
      assert (ts + [t])[0] == ts[0];
      AfterSnoc(ts[1..], t);
      assert Separator in ts <==> ts[0] == Separator || Separator in ts[1..];
    }
  }

  lemma {:induction false} WordsAppend(a: seq<string>, b: seq<string>)
    ensures Words(a + b) == Words(a) + Words(b)
  {
    if a == [] {
      assert a + b == b;
    } else {
      assert (a + b)[1..] == a[1..] + b;
      assert (a + b)[0] == a[0];
      WordsAppend(a[1..], b);
    }
  }

  lemma SeparatorInSnoc(ts: seq<string>, t: string)
    ensures Separator in ts + [t] <==> Separator in ts || t == Separator
  {
    assert (ts + [t])[|ts|] == t;
  }

  /** One more scanned token extends the poll command unless the separator
      has been seen or the token is the separator. */
  lemma PollStep(ts: seq<string>, t: string)
    ensures PollOf(ts + [t]) ==
      if Separator in ts || t == Separator then PollOf(ts) else App(PollOf(ts), t)
  {
    BeforeSnoc(ts, t);
    JoinSnoc(Before(ts), t);
  }

  /** The run words so far: nothing until the separator has been seen, then
      every non-separator token appended in turn. */
  lemma RunStep(ts: seq<string>, t: string)
    ensures Separator !in ts ==> Join(Words(After(ts))) == ""
    ensures Join(Words(After(ts + [t]))) ==
      if Separator in ts && t != Separator then App(Join(Words(After(ts))), t)
      else Join(Words(After(ts)))
  {
    AfterSnoc(ts, t);
    if Separator in ts {
      var w := Words(After(ts));
      WordsAppend(After(ts), [t]);
      assert [t][1..] == [];
      if t == Separator {
        assert Words(After(ts + [t])) == w + [];
        assert w + [] == w;
      } else {
        assert Words(After(ts + [t])) == w + [t];
        JoinSnoc(w, t);
      }
    } else {
      NoSeparatorParts(ts);
    }
  }

  /** What the loop of parse_arguments knows after scanning `seen`: whether
      a separator was among them, and the two strings built so far. */
  predicate ScanState(seen: seq<string>, separatorFound: bool, poll: string, run: string)
  {
    && (separatorFound <==> Separator in seen)
    && poll == PollOf(seen)
    && run == Join(Words(After(seen)))
  }

  /** One iteration of the loop of parse_arguments keeps ScanState. */
  lemma ScanStep(seen: seq<string>, arg: string, separatorFound: bool, poll: string, run: string)
    requires ScanState(seen, separatorFound, poll, run)
    ensures arg == Separator ==> ScanState(seen + [arg], true, poll, run)
    ensures arg != Separator && separatorFound ==> ScanState(seen + [arg], true, poll, App(run, arg))
    ensures arg != Separator && !separatorFound ==> ScanState(seen + [arg], false, App(poll, arg), run)
  {
    SeparatorInSnoc(seen, arg);
    PollStep(seen, arg);
    RunStep(seen, arg);
  }

  /** parse_arguments. The caller must guarantee that some argument after
      the program name is not `-v`; otherwise the slice `args[index..len-1]`
      panics, since `index` would exceed `len - 1`. */
  method ParseArguments(args: seq<string>) returns (pollCommand: string, runCommand: string, config: Config)
    requires OptionsEnd(args) < |args|
    ensures config == ConfigOf(args)
    ensures pollCommand == PollOf(Scanned(args))
    ensures runCommand == RunOf(Scanned(args), Last(args))
    ensures EndsWith(runCommand, Last(args))
  {
    var index;
    index, config := ParseOptions(args);
    var scanned := args[index..|args| - 1];
    pollCommand, runCommand := "", "";
    var separatorFound := false;
    for i := 0 to |scanned|
      invariant ScanState(scanned[..i], separatorFound, pollCommand, runCommand)
    {
      var arg := scanned[i];
      assert scanned[..i + 1] == scanned[..i] + [arg];
      ScanStep(scanned[..i], arg, separatorFound, pollCommand, runCommand);
      if arg == Separator {
        separatorFound := true;
      } else if separatorFound {
        ghost var before := runCommand;
        if runCommand != "" {
          runCommand := runCommand + " ";
        }
        runCommand := runCommand + arg;
        assert runCommand == App(before, arg);
      } else {
        ghost var before := pollCommand;
        if pollCommand != "" {
          pollCommand := pollCommand + " ";
        }
        pollCommand := pollCommand + arg;
        assert pollCommand == App(before, arg);
      }
    }
    assert scanned[..|scanned|] == Scanned(args);
    if runCommand != "" {
      runCommand := runCommand + " ";
    }
    runCommand := runCommand + args[|args| - 1];
    AppExtends(Join(Words(After(Scanned(args)))), Last(args));
  }

  lemma {:induction false} NoSeparatorParts(ts: seq<string>)
    requires Separator !in ts
    ensures Before(ts) == ts && After(ts) == []
  {
    if ts != [] {
      assert Separator !in ts[1..];
      NoSeparatorParts(ts[1..]);
    }
  }

  /** Without a separator every scanned token belongs to the poll command and
      the run command is exactly the last argument. */
  lemma NoSeparator(ts: seq<string>, last: string)
    requires Separator !in ts
    ensures PollOf(ts) == Join(ts)
    ensures RunOf(ts, last) == last
  {
    NoSeparatorParts(ts);
  }

  lemma {:induction false} SplitAtFirst(a: seq<string>, b: seq<string>)
    requires Separator !in a
    ensures Before(a + [Separator] + b) == a
    ensures After(a + [Separator] + b) == b
  {
    if a == [] {
      assert a + [Separator] + b == [Separator] + b;
    } else {
      assert (a + [Separator] + b)[1..] == a[1..] + [Separator] + b;
      assert (a + [Separator] + b)[0] == a[0];
      SplitAtFirst(a[1..], b);
    }
  }

  /** With a separator, the tokens before its first occurrence make up the
      poll command, and the non-separator tokens after it, followed by the
      last argument, make up the run command. */
  lemma WithSeparator(a: seq<string>, b: seq<string>, last: string)
    requires Separator !in a
    ensures PollOf(a + [Separator] + b) == Join(a)
    ensures RunOf(a + [Separator] + b, last) == App(Join(Words(b)), last)
  {
    SplitAtFirst(a, b);
  }

  /** A second separator does not switch back to the poll command: every
      separator after the first is simply dropped. */
  lemma LaterSeparatorsIgnored(a: seq<string>, b: seq<string>, c: seq<string>, last: string)
    requires Separator !in a
    ensures PollOf(a + [Separator] + b + [Separator] + c) == PollOf(a + [Separator] + b + c)
    ensures RunOf(a + [Separator] + b + [Separator] + c, last) == RunOf(a + [Separator] + b + c, last)
  {
    assert a + [Separator] + b + [Separator] + c == a + [Separator] + (b + [Separator] + c);
    assert a + [Separator] + b + c == a + [Separator] + (b + c);
    SplitAtFirst(a, b + [Separator] + c);
    SplitAtFirst(a, b + c);
    assert b + [Separator] + c == b + ([Separator] + c);
    WordsAppend(b, [Separator] + c);
    WordsAppend(b, c);
    assert ([Separator] + c)[0] == Separator && ([Separator] + c)[1..] == c;
    assert Words([Separator] + c) == Words(c);
  }

  lemma {:induction false} WordsDropsSeparators(ts: seq<string>)
    ensures Separator !in Words(ts)
    ensures forall t :: t in Words(ts) ==> t in ts
  {
    if ts != [] {
      WordsDropsSeparators(ts[1..]);
    }
  }

  /** No separator token from the scanned range reaches either command: the
      poll command is built from separator-free tokens of the range, and so
      is the run command apart from the last argument. */
  lemma {:induction false} SeparatorsDropped(ts: seq<string>)
    ensures Separator !in Before(ts) && forall t :: t in Before(ts) ==> t in ts
    ensures Separator !in Words(After(ts)) && forall t :: t in Words(After(ts)) ==> t in ts
  {
    if ts != [] {
      SeparatorsDropped(ts[1..]);
      if ts[0] == Separator {
        WordsDropsSeparators(ts[1..]);
      }
    }
  }

  /** Neither command starts with a space of the builder's own: if no token
      starts with a space, neither command does. */
  lemma CommandsNoLeadingSpace(ts: seq<string>, last: string)
    requires forall t :: t in ts ==> NoLeadingSpace(t)
    requires NoLeadingSpace(last)
    ensures NoLeadingSpace(PollOf(ts))
    ensures NoLeadingSpace(RunOf(ts, last))
  {
    SeparatorsDropped(ts);
    JoinNoLeadingSpace(Before(ts));
    JoinNoLeadingSpace(Words(After(ts)));
  }

  /** The poll command is empty exactly when every token before the first
      separator is empty; the run command is empty exactly when the last
      argument and every non-separator token after the first separator are. */
  lemma CommandEmptyIff(ts: seq<string>, last: string)
    ensures PollOf(ts) == "" <==> AllEmpty(Before(ts))
    ensures RunOf(ts, last) == "" <==> last == "" && AllEmpty(Words(After(ts)))
  {
    JoinEmptyIff(Before(ts));
    JoinEmptyIff(Words(After(ts)));
  }
}
