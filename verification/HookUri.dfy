/**
 `convertHookURI` of internet/httproutes.go: route parameters `:name` become `{name}`.

 The source finds all matches once, on the original string, and then replaces the first occurrence of
 each in the string rewritten so far.  A string is a sequence of bytes; the patterns are ASCII.
 */
module HookUri {

  predicate IsLetter(c: char) {
    'a' <= c <= 'z' || 'A' <= c <= 'Z'
  }

  predicate IsAlnum(c: char) {
    IsLetter(c) || '0' <= c <= '9'
  }

  // ---------------------------------------------------------------- the regular expression

  /** `s` begins with a match of `:([a-zA-Z]+[a-zA-Z0-9]*)` of length `n` whose letters end at `m`. */
  predicate Spans(s: string, m: nat, n: nat) {
    && 1 < m <= n <= |s| && s[0] == ':'
    && (forall k | 0 < k < m :: IsLetter(s[k]))
    && (forall k | m <= k < n :: IsAlnum(s[k]))
  }

  ghost predicate Matches(s: string, n: nat) {
    exists m: nat :: Spans(s, m, n)
  }

  /** Where the run of letters and digits that starts at `i` ends. */
  function RunEnd(s: string, i: nat): (j: nat)
    requires i <= |s|
    ensures i <= j <= |s|
    ensures forall k | i <= k < j :: IsAlnum(s[k])
    ensures j < |s| ==> !IsAlnum(s[j])
    decreases |s| - i
  {
    if i < |s| && IsAlnum(s[i]) then RunEnd(s, i + 1) else i
  }

  /** A parameter starts at `i`. */
  predicate ParamAt(s: string, i: nat) {
    i + 1 < |s| && s[i] == ':' && IsLetter(s[i + 1])
  }

  /** The length of the greedy match at the head of `s`. */
  function MatchLength(s: string): (n: nat)
    requires ParamAt(s, 0)
    ensures 1 < n <= |s|
  {
    RunEnd(s, 2)
  }

  function Name(s: string): string
    requires ParamAt(s, 0)
  {
    s[1..MatchLength(s)]
  }

  /** There is a match at the head of `s` iff a parameter starts there; the greedy one is the longest. */
  lemma GreedyMatch(s: string)
    ensures (exists n: nat :: Matches(s, n)) <==> ParamAt(s, 0)
    ensures ParamAt(s, 0) ==> Matches(s, MatchLength(s))
    ensures ParamAt(s, 0) ==> forall n: nat | Matches(s, n) :: n <= MatchLength(s)
  {
    if ParamAt(s, 0) {
      assert Spans(s, 2, MatchLength(s));
      assert Matches(s, MatchLength(s));
    }
    forall n: nat | Matches(s, n)
      ensures ParamAt(s, 0) && n <= MatchLength(s)
    {
      var m: nat :| Spans(s, m, n);
      assert IsLetter(s[1]);
      var e := MatchLength(s);
      assert e == |s| || !IsAlnum(s[e]);
    }
  }

  /** The submatches of `FindAllStringSubmatch`: leftmost, greedy, not overlapping. */
  function FindAll(s: string): seq<string>
    decreases |s|
  {
    if s == "" then []
    else if ParamAt(s, 0) then [Name(s)] + FindAll(s[MatchLength(s)..])
    else FindAll(s[1..])
  }

  /** The positions of those matches, counted from `base`. */
  function Starts(s: string, base: nat): seq<nat>
    decreases |s|
  {
    if s == "" then []
    else if ParamAt(s, 0) then [base] + Starts(s[MatchLength(s)..], base + MatchLength(s))
    else Starts(s[1..], base + 1)
  }

  /** How far `FindAll` moves in one step. */
  function Advance(s: string): (n: nat)
    requires s != ""
    ensures 0 < n <= |s|
  {
    if ParamAt(s, 0) then MatchLength(s) else 1
  }

  lemma ParamsAfter(s: string, p: nat)
    requires s != ""
    ensures ParamAt(s, p) <==> (p == 0 && ParamAt(s, 0)) || (p >= Advance(s) && ParamAt(s[Advance(s)..], p - Advance(s)))
  {
    var n := Advance(s);
    if p >= n {
      assert p < |s| ==> s[n..][p - n] == s[p];
      assert p + 1 < |s| ==> s[n..][p - n + 1] == s[p + 1];
    } else if 0 < p {
      assert IsAlnum(s[p]);
    }
  }

  lemma FindAllNext(s: string, base: nat)
    requires s != ""
    ensures var names, starts := FindAll(s[Advance(s)..]), Starts(s[Advance(s)..], base + Advance(s));
            && FindAll(s) == (if ParamAt(s, 0) then [Name(s)] + names else names)
            && Starts(s, base) == (if ParamAt(s, 0) then [base] + starts else starts)
  {
  }

  lemma {:induction false} StartsAreParams(s: string, base: nat, p: nat)
    ensures p in Starts(s, base) <==> p >= base && ParamAt(s, p - base)
    decreases |s|
  {
    if s != "" {
      var t, n := s[Advance(s)..], Advance(s);
      FindAllNext(s, base);
      StartsAreParams(t, base + n, p);
      assert p in Starts(s, base) <==> (p == base && ParamAt(s, 0)) || p in Starts(t, base + n);
      if p >= base {
        ParamsAfter(s, p - base);
      }
    }
  }

  lemma {:induction false} StartsAscend(s: string, base: nat)
    ensures forall i, j | 0 <= i < j < |Starts(s, base)| :: Starts(s, base)[i] < Starts(s, base)[j]
    ensures forall i | 0 <= i < |Starts(s, base)| :: base <= Starts(s, base)[i]
    decreases |s|
  {
    if s != "" {
      StartsAscend(s[Advance(s)..], base + Advance(s));
    }
  }

  predicate NameAt(s: string, p: int, name: string) {
    0 <= p <= |s| && ParamAt(s[p..], 0) && name == Name(s[p..])
  }

  /** `names` are the greedy names at the positions `starts`, counted from `base`. */
  predicate NamesAt(s: string, base: nat, starts: seq<nat>, names: seq<string>) {
    |starts| == |names| && forall i | 0 <= i < |names| :: NameAt(s, starts[i] - base, names[i])
  }

  lemma NamesInSuffix(s: string, n: nat, base: nat, starts: seq<nat>, names: seq<string>)
    requires n <= |s| && NamesAt(s[n..], base + n, starts, names)
    ensures NamesAt(s, base, starts, names)
  {
    forall i | 0 <= i < |names|
      ensures NameAt(s, starts[i] - base, names[i])
    {
      assert NameAt(s[n..], starts[i] - (base + n), names[i]);
      assert s[n..][starts[i] - (base + n)..] == s[starts[i] - base..];
    }
  }

  lemma OneMoreName(s: string, base: nat, starts: seq<nat>, names: seq<string>)
    requires ParamAt(s, 0) && NameAt(s, 0, Name(s)) && NamesAt(s, base, starts, names)
    ensures NamesAt(s, base, [base] + starts, [Name(s)] + names)
  {
    var starts', names' := [base] + starts, [Name(s)] + names;
    forall i | 0 <= i < |names'|
      ensures NameAt(s, starts'[i] - base, names'[i])
    {
      if i > 0 {
        assert names'[i] == names[i - 1] && starts'[i] == starts[i - 1];
      }
    }
  }

  lemma NamesNext(s: string, base: nat, starts: seq<nat>, names: seq<string>)
    requires s != "" && NamesAt(s[Advance(s)..], base + Advance(s), starts, names)
    ensures if ParamAt(s, 0) then NamesAt(s, base, [base] + starts, [Name(s)] + names)
            else NamesAt(s, base, starts, names)
  {
    NamesInSuffix(s, Advance(s), base, starts, names);
    if ParamAt(s, 0) {
      assert s[0..] == s;
      OneMoreName(s, base, starts, names);
    }
  }

  lemma {:induction false} FindAllNames(s: string, base: nat)
    ensures NamesAt(s, base, Starts(s, base), FindAll(s))
    decreases |s|
  {
    if s != "" {
      FindAllNames(s[Advance(s)..], base + Advance(s));
      NamesNext(s, base, Starts(s[Advance(s)..], base + Advance(s)), FindAll(s[Advance(s)..]));
      FindAllNext(s, base);
    }
  }

  /** The matches are exactly the parameters of the string, from left to right: none hides another. */
  lemma FindAllIsComplete(s: string)
    ensures forall p: nat :: p in Starts(s, 0) <==> ParamAt(s, p)
    ensures forall i, j | 0 <= i < j < |Starts(s, 0)| :: Starts(s, 0)[i] < Starts(s, 0)[j]
    ensures NamesAt(s, 0, Starts(s, 0), FindAll(s))
  {
    StartsAscend(s, 0);
    FindAllNames(s, 0);
    forall p: nat {
      StartsAreParams(s, 0, p);
    }
  }

  // ---------------------------------------------------------------- replacing the first occurrence

  /** `strings.Replace(s, from, to, 1)`. */
  function ReplaceFirst(s: string, from: string, to: string): string
    decreases |s|
  {
    if from <= s then to + s[|from|..]
    else if s == "" then s
    else [s[0]] + ReplaceFirst(s[1..], from, to)
  }

  predicate NoParamBefore(s: string, n: nat) {
    forall i: nat | i < n :: !ParamAt(s, i)
  }

  /** The text of a match does not occur where no parameter starts. */
  lemma {:induction false} ReplaceSkips(done: string, rest: string, from: string, to: string)
    requires NoParamBefore(done + rest, |done|) && ParamAt(from, 0)
    ensures ReplaceFirst(done + rest, from, to) == done + ReplaceFirst(rest, from, to)
    decreases |done|
  {
    if done == "" {
      assert done + rest == rest;
    } else {
      var s := done + rest;
      assert s[1..] == done[1..] + rest;
      assert forall i: nat | i < |done| - 1 :: ParamAt(s[1..], i) ==> ParamAt(s, i + 1);
      ReplaceSkips(done[1..], rest, from, to);
      assert !ParamAt(s, 0);
      assert from <= s ==> ParamAt(s, 0);
    }
  }

  // ---------------------------------------------------------------- the reference: one pass

  function Braced(name: string): string {
    ['{'] + name + ['}']
  }

  /** One pass from left to right. */
  function OnePass(s: string): string
    decreases |s|
  {
    if s == "" then ""
    else if ParamAt(s, 0) then Braced(Name(s)) + OnePass(s[MatchLength(s)..])
    else [s[0]] + OnePass(s[1..])
  }

  function Slashed(s: string): string {
    if |s| > 0 && s[0] == '/' then s else "/" + s
  }

  /** What comes before the first parameter, */
  function Gap(s: string): string
    decreases |s|
  {
    if s == "" || ParamAt(s, 0) then "" else [s[0]] + Gap(s[1..])
  }

  /** and the rest. */
  function FromParam(s: string): string
    decreases |s|
  {
    if s == "" || ParamAt(s, 0) then s else FromParam(s[1..])
  }

  lemma {:induction false} GapSplits(s: string)
    ensures Gap(s) + FromParam(s) == s
    ensures FromParam(s) != "" ==> ParamAt(FromParam(s), 0)
    ensures NoParamBefore(s, |Gap(s)|)
    decreases |s|
  {
    if s != "" && !ParamAt(s, 0) {
      GapSplits(s[1..]);
      forall i: nat | i < |Gap(s)|
        ensures !ParamAt(s, i)
      {
        assert i > 0 ==> !ParamAt(s[1..], i - 1);
      }
    }
  }

  /** Up to the first parameter nothing is found and nothing is rewritten. */
  lemma {:induction false} GapPasses(s: string)
    ensures FindAll(s) == FindAll(FromParam(s))
    ensures OnePass(s) == Gap(s) + OnePass(FromParam(s))
    decreases |s|
  {
    if s != "" && !ParamAt(s, 0) {
      GapPasses(s[1..]);
    }
  }

  /** Moving colon-free text to the processed side. */
  lemma Absorb(done: string, text: string, rest: string)
    requires NoParamBefore(done + (text + rest), |done|) && forall c | c in text :: c != ':'
    ensures NoParamBefore(done + text + rest, |done + text|)
  {
    assert done + text + rest == done + (text + rest);
    forall i: nat | i < |done + text|
      ensures !ParamAt(done + text + rest, i)
    {
      if i >= |done| {
        assert (done + text + rest)[i] == text[i - |done|] && text[i - |done|] in text;
      }
    }
  }

  /** What follows the processed side matters only by its first byte. */
  lemma SwapRest(done: string, rest: string, rest': string)
    requires NoParamBefore(done + rest, |done|)
    requires rest' != "" && !IsLetter(rest'[0])
    ensures NoParamBefore(done + rest', |done|)
  {
    forall i: nat | i < |done|
      ensures !ParamAt(done + rest', i)
    {
      assert !ParamAt(done + rest, i);
    }
  }

  lemma PastGap(done: string, g: string, t: string)
    requires NoParamBefore(done + (g + t), |done|) && NoParamBefore(g + t, |g|)
    ensures NoParamBefore((done + g) + t, |done + g|)
  {
    assert (done + g) + t == done + (g + t);
    forall i: nat | i < |done + g|
      ensures !ParamAt(done + g + t, i)
    {
      if i >= |done| {
        assert !ParamAt(g + t, i - |done|);
      }
    }
  }

  lemma ReplaceHead(t: string)
    requires ParamAt(t, 0)
    ensures ReplaceFirst(t, [':'] + Name(t), Braced(Name(t))) == Braced(Name(t)) + t[MatchLength(t)..]
  {
    assert t[..MatchLength(t)] == [':'] + Name(t);
  }

  lemma ReplaceAt(a: string, t: string, from: string, b: string, tail: string)
    requires NoParamBefore(a + t, |a|) && ParamAt(from, 0)
    requires ReplaceFirst(t, from, b) == b + tail
    requires b != "" && !IsLetter(b[0]) && forall c | c in b :: c != ':'
    ensures ReplaceFirst(a + t, from, b) == a + b + tail
    ensures NoParamBefore(a + b + tail, |a + b|)
  {
    ReplaceSkips(a, t, from, b);
    SwapRest(a, t, b + tail);
    Absorb(a, b, tail);
    assert a + (b + tail) == a + b + tail;
  }

  lemma ReplaceNext(done: string, g: string, t: string)
    requires NoParamBefore(done + (g + t), |done|) && NoParamBefore(g + t, |g|) && ParamAt(t, 0)
    ensures var b, tail := Braced(Name(t)), t[MatchLength(t)..];
            && ReplaceFirst(done + (g + t), [':'] + Name(t), b) == done + g + b + tail
            && NoParamBefore(done + g + b + tail, |done + g + b|)
  {
    PastGap(done, g, t);
    assert done + (g + t) == done + g + t;
    ReplaceHead(t);
    ReplaceAt(done + g, t, [':'] + Name(t), Braced(Name(t)), t[MatchLength(t)..]);
  }

  /** The string after the first match. */
  function AfterMatch(s: string): string
    requires FindAll(s) != []
  {
    GapPasses(s);
    GapSplits(s);
    FromParam(s)[MatchLength(FromParam(s))..]
  }

  /** One round of the loop, in the one pass, */
  lemma PassRound(rest: string)
    requires FindAll(rest) != []
    ensures FindAll(rest) == [FindAll(rest)[0]] + FindAll(AfterMatch(rest))
    ensures OnePass(rest) == Gap(rest) + (Braced(FindAll(rest)[0]) + OnePass(AfterMatch(rest)))
  {
    GapSplits(rest);
    GapPasses(rest);
  }

  /** and in the string: the next match is the first occurrence of its text. */
  lemma ReplaceRound(done: string, rest: string)
    requires NoParamBefore(done + rest, |done|) && FindAll(rest) != []
    ensures var name, done' := FindAll(rest)[0], done + Gap(rest) + Braced(FindAll(rest)[0]);
            && ReplaceFirst(done + rest, [':'] + name, Braced(name)) == done' + AfterMatch(rest)
            && NoParamBefore(done' + AfterMatch(rest), |done'|)
  {
    GapSplits(rest);
    GapPasses(rest);
    ReplaceNext(done, Gap(rest), FromParam(rest));
  }

  lemma Round(done: string, rest: string) returns (done': string, rest': string)
    requires NoParamBefore(done + rest, |done|) && FindAll(rest) != []
    ensures var name := FindAll(rest)[0];
            && ReplaceFirst(done + rest, [':'] + name, Braced(name)) == done' + rest'
            && NoParamBefore(done' + rest', |done'|)
            && FindAll(rest') == FindAll(rest)[1..]
            && done' + OnePass(rest') == done + OnePass(rest)
  {
    PassRound(rest);
    ReplaceRound(done, rest);
    done', rest' := done + Gap(rest) + Braced(FindAll(rest)[0]), AfterMatch(rest);
    Regroup(done, Gap(rest), Braced(FindAll(rest)[0]), OnePass(rest'));
  }

  lemma Regroup(a: string, b: string, c: string, d: string)
    ensures a + b + c + d == a + (b + (c + d))
  {
  }

  // ---------------------------------------------------------------- the method

  method ConvertHookURI(uri: string) returns (res: string)
    ensures res == Slashed(OnePass(uri))
  {
    res := ReplaceAll(uri);
    if |res| == 0 || res[0] != '/' {
      res := "/" + res;
    }
  }

  /** The loop over the matches. */
  method ReplaceAll(uri: string) returns (res: string)
    ensures res == OnePass(uri)
  {
    res := uri;
    var matched := FindAll(uri);
    ghost var done, rest := "", uri;
    for k := 0 to |matched|
      invariant res == done + rest && NoParamBefore(res, |done|)
      invariant FindAll(rest) == matched[k..]
      invariant OnePass(uri) == done + OnePass(rest)
    {
      var name := matched[k];
      ghost var done', rest' := Round(done, rest);
      res := ReplaceFirst(res, [':'] + name, Braced(name));
      done, rest := done', rest';
    }
    NothingLeft(rest);
  }

  lemma NothingLeft(rest: string)
    requires FindAll(rest) == []
    ensures OnePass(rest) == rest
  {
    GapPasses(rest);
  }
}
