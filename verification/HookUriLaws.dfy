/** What `convertHookURI` promises: a normal form, and how much of the input it keeps. */
module HookUriLaws {
  import opened Ascii
  import opened HookUri

  /** The function the method computes. */
  function Converted(uri: string): string {
    Slashed(OnePass(uri))
  }

  // ---------------------------------------------------------------- normal form

  predicate NoParam(s: string) {
    NoParamBefore(s, |s|)
  }

  lemma OnePassHead(s: string)
    requires s != ""
    ensures OnePass(s) != "" && OnePass(s)[0] == if ParamAt(s, 0) then '{' else s[0]
  {
  }

  lemma {:induction false} OnePassHasNoParam(s: string)
    ensures NoParam(OnePass(s))
    decreases |s|
  {
    if s != "" {
      var n := Advance(s);
      OnePassHasNoParam(s[n..]);
      var head := if ParamAt(s, 0) then Braced(Name(s)) else [s[0]];
      assert OnePass(s) == head + OnePass(s[n..]);
      if s[n..] != "" {
        OnePassHead(s[n..]);
      }
      JoinHasNoParam(head, OnePass(s[n..]));
    }
  }

  /** No parameter in either part and none across the border. */
  lemma JoinHasNoParam(a: string, b: string)
    requires NoParam(a) && NoParam(b)
    requires a != "" && (a[|a| - 1] == ':' && b != "" ==> !IsLetter(b[0]))
    ensures NoParam(a + b)
  {
    forall i: nat | i < |a + b|
      ensures !ParamAt(a + b, i)
    {
      if i < |a| {
        assert !ParamAt(a, i);
      } else {
        assert !ParamAt(b, i - |a|);
      }
    }
  }

  lemma {:induction false} NoParamIsFixed(s: string)
    requires NoParam(s)
    ensures OnePass(s) == s && FindAll(s) == []
    decreases |s|
  {
    if s != "" {
      assert !ParamAt(s, 0);
      forall i: nat | i < |s[1..]|
        ensures !ParamAt(s[1..], i)
      {
        assert !ParamAt(s, i + 1);
      }
      NoParamIsFixed(s[1..]);
    }
  }

  /** The result starts with a slash, has no `:letter`, and converting it again changes nothing. */
  lemma NormalForm(uri: string)
    ensures Converted(uri) != "" && Converted(uri)[0] == '/'
    ensures NoParam(Converted(uri)) && FindAll(Converted(uri)) == []
    ensures Converted(Converted(uri)) == Converted(uri)
  {
    OnePassHasNoParam(uri);
    var p := OnePass(uri);
    if p == "" || p[0] != '/' {
      JoinHasNoParam("/", p);
    }
    NoParamIsFixed(Converted(uri));
  }

  /** A string is left alone iff it is in that normal form already. */
  lemma FixedIffNormal(uri: string)
    ensures Converted(uri) == uri <==> uri != "" && uri[0] == '/' && NoParam(uri)
  {
    NormalForm(uri);
    if NoParam(uri) {
      NoParamIsFixed(uri);
    }
  }

  // ---------------------------------------------------------------- length

  lemma {:induction false} OnePassLength(s: string)
    ensures |OnePass(s)| == |s| + |FindAll(s)|
    decreases |s|
  {
    if s != "" {
      OnePassLength(s[Advance(s)..]);
      FindAllNext(s, 0);
    }
  }

  /** Each parameter costs one byte, a missing slash another. */
  lemma ConvertedLength(uri: string)
    ensures |Converted(uri)| == |uri| + |FindAll(uri)| + (if uri != "" && uri[0] == '/' then 0 else 1)
  {
    OnePassLength(uri);
    if uri != "" {
      OnePassHead(uri);
    }
  }

  // ---------------------------------------------------------------- round trip

  /** Back to the colon form: `{` becomes `:` and `}` disappears. */
  function Unbraced(s: string): string {
    if s == "" then ""
    else if s[0] == '{' then [':'] + Unbraced(s[1..])
    else if s[0] == '}' then Unbraced(s[1..])
    else [s[0]] + Unbraced(s[1..])
  }

  predicate HasNoBraces(s: string) {
    forall i | 0 <= i < |s| :: s[i] != '{' && s[i] != '}'
  }

  lemma {:induction false} UnbracedJoin(a: string, b: string)
    ensures Unbraced(a + b) == Unbraced(a) + Unbraced(b)
    decreases |a|
  {
    if a == "" {
      assert a + b == b;
    } else {
      assert (a + b)[0] == a[0] && (a + b)[1..] == a[1..] + b;
      UnbracedJoin(a[1..], b);
    }
  }

  lemma {:induction false} UnbracedIsFixed(s: string)
    requires HasNoBraces(s)
    ensures Unbraced(s) == s
    decreases |s|
  {
    if s != "" {
      UnbracedIsFixed(s[1..]);
    }
  }

  lemma {:induction false} UnbracedShortens(s: string)
    ensures |Unbraced(s)| <= |s|
    ensures Unbraced(s) == s ==> HasNoBraces(s)
    decreases |s|
  {
    if s != "" {
      UnbracedShortens(s[1..]);
      if Unbraced(s) == s {
        assert Unbraced(s)[1..] == s[1..];
        assert forall i | 0 < i < |s| :: s[i] == s[1..][i - 1];
      }
    }
  }

  lemma UnbracedName(name: string)
    requires HasNoBraces(name)
    ensures Unbraced(Braced(name)) == [':'] + name
  {
    UnbracedIsFixed(name);
    UnbracedIsFixed([]);
    UnbracedJoin(name, ['}']);
    assert Unbraced(['}']) == "";
    assert Braced(name)[1..] == name + ['}'];
  }

  /** The rewriting is invisible in the colon form, for every string. */
  lemma {:induction false} UnbracedUndoesOnePass(s: string)
    ensures Unbraced(OnePass(s)) == Unbraced(s)
    decreases |s|
  {
    if s != "" {
      var n := Advance(s);
      UnbracedUndoesOnePass(s[n..]);
      if ParamAt(s, 0) {
        var name := Name(s);
        assert s == ([':'] + name) + s[n..];
        UnbracedName(name);
        UnbracedIsFixed([':'] + name);
        UnbracedJoin([':'] + name, s[n..]);
        UnbracedJoin(Braced(name), OnePass(s[n..]));
      }
    }
  }

  /** The slash-prefixed input comes back iff it has no braces of its own. */
  lemma RoundTripIff(uri: string)
    ensures Unbraced(Converted(uri)) == Slashed(uri) <==> HasNoBraces(uri)
  {
    UnbracedUndoesOnePass(uri);
    if uri != "" {
      OnePassHead(uri);
    }
    if !(uri != "" && uri[0] == '/') {
      UnbracedJoin("/", OnePass(uri));
      assert Unbraced("/") == "/";
      assert Unbraced(Converted(uri)) == "/" + Unbraced(uri);
      assert ("/" + Unbraced(uri))[1..] == Unbraced(uri) && ("/" + uri)[1..] == uri;
    }
    UnbracedShortens(uri);
    if HasNoBraces(uri) {
      UnbracedIsFixed(uri);
    }
  }

  /** So two hooks without braces share a route only if they differ by the leading slash at most. */
  lemma ConvertedIsInjective(a: string, b: string)
    requires HasNoBraces(a) && HasNoBraces(b) && Converted(a) == Converted(b)
    ensures Slashed(a) == Slashed(b) && FindAll(Slashed(a)) == FindAll(Slashed(b))
  {
    RoundTripIff(a);
    RoundTripIff(b);
  }

  // ---------------------------------------------------------------- the two rules, letter by letter

  /** A colon, a letter and all the letters and digits that follow become the name in braces. */
  lemma ParamIsBraced(name: string, rest: string)
    requires name != "" && Letter(name[0]) && forall i | 0 <= i < |name| :: Letter(name[i]) || Digit(name[i])
    requires rest != "" ==> !Letter(rest[0]) && !Digit(rest[0])
    ensures OnePass([':'] + name + rest) == "{" + name + "}" + OnePass(rest)
    ensures FindAll([':'] + name + rest) == [name] + FindAll(rest)
  {
    var s := [':'] + name + rest;
    var e := 1 + |name|;
    assert forall k | 1 <= k < e :: s[k] == name[k - 1];
    assert e < |s| ==> s[e] == rest[0];
    RunEndIs(s, 2, e);
    assert s[1..e] == name && s[e..] == rest;
    assert Braced(name) == "{" + name + "}";
  }

  lemma {:induction false} RunEndIs(s: string, i: nat, e: nat)
    requires i <= e <= |s| && forall k | i <= k < e :: IsAlnum(s[k])
    requires e < |s| ==> !IsAlnum(s[e])
    ensures RunEnd(s, i) == e
    decreases e - i
  {
    if i < e {
      RunEndIs(s, i + 1, e);
    }
  }

  /** Every other byte stays as it is. */
  lemma ByteStays(c: char, rest: string)
    requires !(c == ':' && rest != "" && Letter(rest[0]))
    ensures OnePass([c] + rest) == [c] + OnePass(rest)
    ensures FindAll([c] + rest) == FindAll(rest)
  {
    assert ([c] + rest)[1..] == rest;
  }
}
