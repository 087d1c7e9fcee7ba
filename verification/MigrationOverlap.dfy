/**
 Config updates that overlap.  Each update walks its config on its own; between the check of a version
 and the mark of its success lies the wait for the task, and the lock of intranet/intranet.go does not
 span it, so several migrations of one version can be in flight.
 */
module MigrationOverlap {
  import opened Wrappers
  import opened Migration

  type Attempt = nat

  datatype State = State(
    processed: set<Version>,
    inflight: map<Attempt, Version>,   // past the check, waiting for the result
    successes: multiset<Version>)      // history

  datatype Step =
    | Try(a: Attempt, v: Version)      // some update comes to the version and checks it
    | Finish(a: Attempt, failed: bool)

  function Init(): State {
    State({}, map[], multiset{})
  }

  predicate Enabled(s: State, step: Step) {
    match step
    case Try(a, _) => a !in s.inflight
    case Finish(a, _) => a in s.inflight
  }

  function Apply(s: State, step: Step): State
    requires Enabled(s, step)
  {
    match step
    case Try(a, v) => if v in s.processed then s else s.(inflight := s.inflight[a := v])
    case Finish(a, failed) =>
      var v := s.inflight[a];
      var s' := s.(inflight := s.inflight - {a});
      if failed then s' else s'.(processed := s.processed + {v}, successes := s.successes + multiset{v})
  }

  predicate Legal(s: State, tr: seq<Step>)
    decreases |tr|
  {
    tr == [] || (Enabled(s, tr[0]) && Legal(Apply(s, tr[0]), tr[1..]))
  }

  function After(s: State, tr: seq<Step>): State
    requires Legal(s, tr)
    decreases |tr|
  {
    if tr == [] then s else After(Apply(s, tr[0]), tr[1..])
  }

  function InFlight(s: State, v: Version): set<Attempt> {
    set a | a in s.inflight && s.inflight[a] == v
  }

  ghost predicate Inv(s: State) {
    forall v :: v in s.processed <==> s.successes[v] > 0
  }

  /** A version is marked iff one of its migrations has succeeded, overlaps or not. */
  lemma {:induction false} RunInv(s: State, tr: seq<Step>)
    requires Inv(s) && Legal(s, tr)
    ensures Inv(After(s, tr))
    decreases |tr|
  {
    if tr != [] {
      RunInv(Apply(s, tr[0]), tr[1..]);
    }
  }

  /** From the start: marked iff succeeded. */
  lemma MarkedIffSucceeded(tr: seq<Step>, v: Version)
    requires Legal(Init(), tr)
    ensures v in After(Init(), tr).processed <==> After(Init(), tr).successes[v] > 0
  {
    RunInv(Init(), tr);
  }

  // ---------------------------------------------------------------- how often a version can succeed

  lemma FinishShrinks(s: State, a: Attempt, failed: bool, v: Version)
    requires a in s.inflight
    ensures InFlight(Apply(s, Finish(a, failed)), v) == InFlight(s, v) - {a}
    ensures s.inflight[a] == v ==> |InFlight(s, v) - {a}| == |InFlight(s, v)| - 1
  {
  }

  lemma StepSpends(s: State, step: Step, v: Version)
    requires Enabled(s, step) && v in s.processed
    ensures var s' := Apply(s, step);
            v in s'.processed && s'.successes[v] + |InFlight(s', v)| <= s.successes[v] + |InFlight(s, v)|
  {
    match step
    case Finish(a, failed) => FinishShrinks(s, a, failed, v);
    case Try(a, u) =>
      if u !in s.processed {
        assert InFlight(Apply(s, step), v) == InFlight(s, v);
      }
  }

  /** Once a version is marked, it succeeds at most as often again as it has migrations in flight. */
  lemma {:induction false} LaterSuccesses(s: State, tr: seq<Step>, v: Version)
    requires Legal(s, tr) && v in s.processed
    ensures After(s, tr).successes[v] + |InFlight(After(s, tr), v)| <= s.successes[v] + |InFlight(s, v)|
    decreases |tr|
  {
    if tr != [] {
      StepSpends(s, tr[0], v);
      LaterSuccesses(Apply(s, tr[0]), tr[1..], v);
    }
  }

  ghost predicate CanSucceed(s: State, v: Version) {
    exists tr :: Legal(s, tr) && After(s, tr).successes[v] > s.successes[v]
  }

  /** Exactly when a migration of the version can succeed, for the first time or once more. */
  lemma CanSucceedIff(s: State, v: Version)
    ensures CanSucceed(s, v) <==> v !in s.processed || InFlight(s, v) != {}
  {
    if InFlight(s, v) != {} {
      var a :| a in InFlight(s, v);
      FinishSucceeds(s, a);
    } else if v !in s.processed {
      var a := UpperBound(s.inflight.Keys);
      TrySucceeds(s, a, v);
    } else if CanSucceed(s, v) {
      var tr :| Legal(s, tr) && After(s, tr).successes[v] > s.successes[v];
      LaterSuccesses(s, tr, v);
    }
  }

  lemma FinishSucceeds(s: State, a: Attempt)
    requires a in s.inflight
    ensures CanSucceed(s, s.inflight[a])
  {
    var tr := [Finish(a, false)];
    assert Legal(s, tr) && After(s, tr) == Apply(s, tr[0]);
  }

  lemma TrySucceeds(s: State, a: Attempt, v: Version)
    requires a !in s.inflight && v !in s.processed
    ensures CanSucceed(s, v)
  {
    var s1 := Apply(s, Try(a, v));
    var s2 := Apply(s1, Finish(a, false));
    var tr := [Try(a, v), Finish(a, false)];
    assert tr[1..] == [Finish(a, false)];
    assert After(s1, [Finish(a, false)]) == s2;
    assert Legal(s, tr) && After(s, tr) == s2;
  }

  // ---------------------------------------------------------------- without overlap

  /** No migration of `v` starts while another one is in flight. */
  predicate NoOverlap(s: State, tr: seq<Step>, v: Version)
    requires Legal(s, tr)
    decreases |tr|
  {
    tr != [] ==>
      && (tr[0].Try? && tr[0].v == v ==> InFlight(s, v) == {})
      && NoOverlap(Apply(s, tr[0]), tr[1..], v)
  }

  lemma StepOnce(s: State, step: Step, v: Version)
    requires Enabled(s, step) && s.successes[v] + |InFlight(s, v)| <= 1
    requires v in s.processed <==> s.successes[v] > 0
    requires step.Try? && step.v == v ==> InFlight(s, v) == {}
    ensures var s' := Apply(s, step);
            && s'.successes[v] + |InFlight(s', v)| <= 1
            && (v in s'.processed <==> s'.successes[v] > 0)
  {
    match step
    case Finish(a, failed) => FinishShrinks(s, a, failed, v);
    case Try(a, u) =>
      if u !in s.processed {
        assert InFlight(Apply(s, step), v) == if u == v then {a} else InFlight(s, v);
      }
  }

  /** A version whose migrations do not overlap succeeds at most once, whatever else overlaps. */
  lemma {:induction false} OnceWithoutOverlap(s: State, tr: seq<Step>, v: Version)
    requires Legal(s, tr) && NoOverlap(s, tr, v)
    requires s.successes[v] + |InFlight(s, v)| <= 1 && (v in s.processed <==> s.successes[v] > 0)
    ensures After(s, tr).successes[v] <= 1
    decreases |tr|
  {
    if tr != [] {
      StepOnce(s, tr[0], v);
      OnceWithoutOverlap(Apply(s, tr[0]), tr[1..], v);
    }
  }

  /** Two updates that come to a version before either has its result run its migration twice. */
  lemma OverlapSucceedsTwice(v: Version)
    ensures var tr := [Try(0, v), Try(1, v), Finish(0, false), Finish(1, false)];
            Legal(Init(), tr) && After(Init(), tr).successes[v] == 2
  {
    var s1 := Apply(Init(), Try(0, v));
    var s2 := Apply(s1, Try(1, v));
    var s3 := Apply(s2, Finish(0, false));
    var s4 := Apply(s3, Finish(1, false));
    var tr := [Try(0, v), Try(1, v), Finish(0, false), Finish(1, false)];
    assert tr[1..] == [Try(1, v), Finish(0, false), Finish(1, false)];
    assert tr[1..][1..] == [Finish(0, false), Finish(1, false)];
    assert tr[1..][1..][1..] == [Finish(1, false)];
    assert After(s3, tr[1..][1..][1..]) == s4;
    assert After(s2, tr[1..][1..]) == s4;
    assert After(s1, tr[1..]) == s4;
  }
}
