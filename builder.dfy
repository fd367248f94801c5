/** How parse_arguments grows a command string: each token is appended,
    preceded by one space only when the string built so far is non-empty. */
module CommandBuilder {

  predicate StartsWith(s: string, p: string) { |p| <= |s| && s[..|p|] == p }

  predicate EndsWith(s: string, p: string) { |p| <= |s| && s[|s| - |p|..] == p }

  /** Every token is the empty string. */
  predicate AllEmpty(ts: seq<string>) { forall i :: 0 <= i < |ts| ==> ts[i] == "" }

  /** `s` does not begin with a space. */
  predicate NoLeadingSpace(s: string) { s == "" || s[0] != ' ' }

  /** One append step: `if !s.is_empty() { s.push(' ') }; s.push_str(t)`. */
  function App(s: string, t: string): (r: string)
    ensures r == "" <==> s == "" && t == ""
  {
    if s == "" then t else s + " " + t
  }

  /** An append step keeps what was there and ends with the appended token. */
  lemma AppExtends(s: string, t: string)
    ensures StartsWith(App(s, t), s)
    ensures EndsWith(App(s, t), t)
  {
  }

  /** The string obtained by appending `ts` one token at a time to an empty string. */
  function Join(ts: seq<string>): string
  {
    if ts == [] then "" else App(Join(ts[..|ts| - 1]), ts[|ts| - 1])
  }

  /** The plain join: the tokens with exactly one space between neighbours. */
  function SpaceJoin(ts: seq<string>): string
  {
    if |ts| == 0 then ""
    else if |ts| == 1 then ts[0]
    else ts[0] + " " + SpaceJoin(ts[1..])
  }

  /** `ts` without its leading empty tokens. */
  function DropLeadingEmpty(ts: seq<string>): (r: seq<string>)
    ensures r == [] || r[0] != ""
  {
    if ts == [] then [] else if ts[0] == "" then DropLeadingEmpty(ts[1..]) else ts
  }

  lemma JoinSnoc(ts: seq<string>, t: string)
    ensures Join(ts + [t]) == App(Join(ts), t)
  {
    assert (ts + [t])[..|ts|] == ts;
  }

  lemma {:induction false} SpaceJoinSnoc(ts: seq<string>, t: string)
    requires ts != []
    ensures SpaceJoin(ts + [t]) == SpaceJoin(ts) + " " + t
  {
    if |ts| > 1 {
      assert (ts + [t])[1..] == ts[1..] + [t];
      SpaceJoinSnoc(ts[1..], t);
    }
  }

  lemma SpaceJoinStart(ts: seq<string>)
    requires ts != []
    ensures StartsWith(SpaceJoin(ts), ts[0])
  {
  }

  lemma {:induction false} DropLeadingEmptySnoc(ts: seq<string>, t: string)
    ensures DropLeadingEmpty(ts + [t]) ==
      if DropLeadingEmpty(ts) == [] then (if t == "" then [] else [t])
      else DropLeadingEmpty(ts) + [t]
  {
    if ts != [] {
      assert (ts + [t])[1..] == ts[1..] + [t];
      DropLeadingEmptySnoc(ts[1..], t);
    }
  }

  /** The builder differs from a plain join only in dropping leading empty
      tokens: once the string is non-empty every further token, even an
      empty one, adds a space. */
  lemma {:induction false} JoinIsSpaceJoin(ts: seq<string>)
    ensures Join(ts) == SpaceJoin(DropLeadingEmpty(ts))
  {
    if ts != [] {
      var init, t := ts[..|ts| - 1], ts[|ts| - 1];
      assert ts == init + [t];
      JoinIsSpaceJoin(init);
      JoinSnoc(init, t);
      DropLeadingEmptySnoc(init, t);
      var d := DropLeadingEmpty(init);
      if d != [] {
        SpaceJoinStart(d);
        SpaceJoinSnoc(d, t);
      }
    }
  }

  lemma {:induction false} DropLeadingEmptyNil(ts: seq<string>)
    ensures DropLeadingEmpty(ts) == [] <==> AllEmpty(ts)
  {
    if ts != [] && ts[0] == "" {
      DropLeadingEmptyNil(ts[1..]);
      assert forall i :: 1 <= i < |ts| ==> ts[i] == ts[1..][i - 1];
    }
  }

  /** The built string is empty exactly when every token is empty. */
  lemma JoinEmptyIff(ts: seq<string>)
    ensures Join(ts) == "" <==> AllEmpty(ts)
  {
    JoinIsSpaceJoin(ts);
    DropLeadingEmptyNil(ts);
    var d := DropLeadingEmpty(ts);
    if d != [] {
      SpaceJoinStart(d);
    }
  }

  /** The built string begins with the first non-empty token, never with a
      space of the builder's own. */
  lemma JoinStartsWithFirstWord(ts: seq<string>, j: nat)
    requires j < |ts| && ts[j] != ""
    requires forall i :: 0 <= i < j ==> ts[i] == ""
    ensures StartsWith(Join(ts), ts[j])
  {
    JoinIsSpaceJoin(ts);
    DropLeadingEmptyAt(ts, j);
    SpaceJoinStart(ts[j..]);
  }

  lemma {:induction false} DropLeadingEmptyAt(ts: seq<string>, j: nat)
    requires j < |ts| && ts[j] != ""
    requires forall i :: 0 <= i < j ==> ts[i] == ""
    ensures DropLeadingEmpty(ts) == ts[j..]
  {
    if j > 0 {
      assert ts[1..][j - 1..] == ts[j..];
      DropLeadingEmptyAt(ts[1..], j - 1);
    }
  }

  /** Without empty tokens the builder yields the plain space-separated join. */
  lemma JoinOfWords(ts: seq<string>)
    requires forall i :: 0 <= i < |ts| ==> ts[i] != ""
    ensures Join(ts) == SpaceJoin(ts)
  {
    JoinIsSpaceJoin(ts);
  }

  /** The builder never puts a space first: if no token starts with a space,
      neither does the result. */
  lemma {:induction false} JoinNoLeadingSpace(ts: seq<string>)
    requires forall t :: t in ts ==> NoLeadingSpace(t)
    ensures NoLeadingSpace(Join(ts))
  {
    if ts != [] {
      var init, t := ts[..|ts| - 1], ts[|ts| - 1];
      assert ts == init + [t];
      JoinNoLeadingSpace(init);
      JoinSnoc(init, t);
    }
  }
}
