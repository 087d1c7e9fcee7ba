/**
 The two machines together.  A scheduled run pushes its task into the server's queue and waits in
 `PushAndGetResult` until the task has a result, so whether a running mark can get stuck is a
 property of the scheduler and the worker protocol at once.
 */
module System {
  import D = Dispatch
  import DR = DispatchRuns
  import DT = DispatchTheorems
  import DK = DispatchPanics
  import DD = DispatchDiscipline
  import DL = DispatchLock
  import DP = DispatchProgress
  import S = Scheduling
  import SR = SchedulingRuns

  datatype State = State(server: D.State, sched: S.State)

  datatype Step =
    | OfServer(d: D.Step)    // workers, handlers, the watcher, and tasks pushed by anybody else
    | OfScheduler(s: S.Step)
    | PushTask(r: S.RunId)   // the run enters `PushAndGetResult`
    | TakeResult(r: S.RunId) // and leaves it

  function Init(start: nat): State {
    State(D.Init(start), S.Init())
  }

  predicate Enabled(x: State, step: Step) {
    match step
    case OfServer(d) => D.Enabled(x.server, d)
    case OfScheduler(s) => !s.Push? && !s.Answer? && S.Enabled(x.sched, s)
    case PushTask(r) => D.Enabled(x.server, D.Step.Push) && S.Enabled(x.sched, S.Step.Push(r, x.server.pool.sequence + 1))
    case TakeResult(r) => S.Enabled(x.sched, S.Answer(r)) && x.sched.runs[r].pc.task in x.server.pool.outcomes
  }

  function Apply(parses: string -> bool, x: State, step: Step): State
    requires Enabled(x, step)
  {
    match step
    case OfServer(d) => x.(server := D.Apply(x.server, d))
    case OfScheduler(s) => x.(sched := S.Apply(parses, x.sched, s))
    case PushTask(r) =>
      State(D.Apply(x.server, D.Step.Push), S.Apply(parses, x.sched, S.Step.Push(r, x.server.pool.sequence + 1)))
    case TakeResult(r) => x.(sched := S.Apply(parses, x.sched, S.Answer(r)))
  }

  /** A whole run of the code as written, from `x` to `x'`. */
  predicate Run(parses: string -> bool, x: State, tr: seq<Step>, x': State)
    decreases |tr|
  {
    if tr == [] then x == x'
    else Enabled(x, tr[0]) && Run(parses, Apply(parses, x, tr[0]), tr[1..], x')
  }

  /** Known reports only, and no step that makes the watcher panic. */
  predicate SoundStep(x: State, step: Step)
    requires Enabled(x, step)
  {
    step.OfServer? ==> DD.KnownReport(x.server, step.d) && !DK.Dooms(x.server, step.d)
  }

  predicate SoundRun(parses: string -> bool, x: State, tr: seq<Step>, x': State)
    requires Run(parses, x, tr, x')
    decreases |tr|
  {
    tr != [] ==> SoundStep(x, tr[0]) && SoundRun(parses, Apply(parses, x, tr[0]), tr[1..], x')
  }

  predicate Disciplined(x: State, step: Step) {
    step.OfServer? ==> DD.Disciplined(x.server, step.d)
  }

  predicate DisciplinedRun(parses: string -> bool, x: State, tr: seq<Step>, x': State)
    requires Run(parses, x, tr, x')
    decreases |tr|
  {
    tr != [] ==> Disciplined(x, tr[0]) && DisciplinedRun(parses, Apply(parses, x, tr[0]), tr[1..], x')
  }

  // ---------------------------------------------------------------- the joint invariant

  predicate WaitsIssued(runs: map<S.RunId, S.Run>, pool: D.Pool) {
    forall r | r in runs && runs[r].pc.Waiting? :: pool.Issued(runs[r].pc.task)
  }

  predicate WaitsApart(runs: map<S.RunId, S.Run>) {
    forall r, r' | r in runs && r' in runs && r != r' && runs[r].pc.Waiting? && runs[r'].pc.Waiting? ::
      runs[r].pc.task != runs[r'].pc.task
  }

  /** Runs wait for distinct, issued tasks. */
  ghost predicate Inv(x: State) {
    D.Inv(x.server) && S.Inv(x.sched) && WaitsIssued(x.sched.runs, x.server.pool) && WaitsApart(x.sched.runs)
  }

  lemma IssuedStays(d: D.State, step: D.Step)
    requires D.Enabled(d, step)
    ensures forall t | d.pool.Issued(t) :: D.Apply(d, step).pool.Issued(t)
  {
  }

  /** Only the push starts a wait. */
  lemma SchedulerKeepsWaits(parses: string -> bool, s: S.State, step: S.Step)
    requires S.Enabled(s, step) && !step.Push?
    ensures var s' := S.Apply(parses, s, step);
            forall r | r in s'.runs && s'.runs[r].pc.Waiting? :: r in s.runs && s'.runs[r] == s.runs[r]
  {
  }

  lemma PushKeepsWaits(x: State, r: S.RunId)
    requires WaitsIssued(x.sched.runs, x.server.pool) && WaitsApart(x.sched.runs)
    requires r in x.sched.runs && x.server.pool.start <= x.server.pool.sequence
    ensures var runs' := x.sched.runs[r := S.Run(x.sched.runs[r].key, S.Waiting(x.server.pool.sequence + 1))];
            WaitsIssued(runs', x.server.pool.Push()) && WaitsApart(runs')
  {
  }

  lemma StepWaits(parses: string -> bool, x: State, step: Step)
    requires Inv(x) && Enabled(x, step)
    ensures var x' := Apply(parses, x, step);
            WaitsIssued(x'.sched.runs, x'.server.pool) && WaitsApart(x'.sched.runs)
  {
    match step
    case OfServer(d) => IssuedStays(x.server, d);
    case OfScheduler(s) => SchedulerKeepsWaits(parses, x.sched, s);
    case PushTask(r) => PushKeepsWaits(x, r);
    case TakeResult(r) => SchedulerKeepsWaits(parses, x.sched, S.Answer(r));
  }

  lemma StepInv(parses: string -> bool, x: State, step: Step)
    requires Inv(x) && Enabled(x, step)
    ensures Inv(Apply(parses, x, step))
  {
    StepWaits(parses, x, step);
    StepServer(parses, x, step);
    StepSched(parses, x, step);
  }

  lemma StepServer(parses: string -> bool, x: State, step: Step)
    requires D.Inv(x.server) && Enabled(x, step)
    ensures D.Inv(Apply(parses, x, step).server)
  {
    match step
    case OfServer(d) => DR.StepInv(x.server, d);
    case PushTask(_) => DR.StepInv(x.server, D.Step.Push);
    case _ =>
  }

  lemma StepSched(parses: string -> bool, x: State, step: Step)
    requires S.Inv(x.sched) && Enabled(x, step)
    ensures S.Inv(Apply(parses, x, step).sched)
  {
    match step
    case OfScheduler(s) => SR.StepInv(parses, x.sched, s);
    case PushTask(r) => SR.StepInv(parses, x.sched, S.Step.Push(r, x.server.pool.sequence + 1));
    case TakeResult(r) => SR.StepInv(parses, x.sched, S.Answer(r));
    case _ =>
  }

  /** Every run of the two machines together, disciplined or not. */
  lemma {:induction false} RunInv(parses: string -> bool, x: State, tr: seq<Step>, x': State)
    requires Inv(x) && Run(parses, x, tr, x')
    ensures Inv(x')
    decreases |tr|
  {
    if tr != [] {
      StepInv(parses, x, tr[0]);
      RunInv(parses, Apply(parses, x, tr[0]), tr[1..], x');
    }
  }

  lemma {:induction false} RunSound(parses: string -> bool, x: State, tr: seq<Step>, x': State)
    requires Run(parses, x, tr, x') && DD.Sound(x.server) && SoundRun(parses, x, tr, x')
    ensures DD.Sound(x'.server)
    decreases |tr|
  {
    if tr != [] {
      match tr[0] {
        case OfServer(d) => DD.StepSound(x.server, d);
        case PushTask(_) => DD.StepSound(x.server, D.Step.Push);
        case _ =>
      }
      RunSound(parses, Apply(parses, x, tr[0]), tr[1..], x');
    }
  }

  lemma {:induction false} RunGood(parses: string -> bool, x: State, tr: seq<Step>, x': State)
    requires Run(parses, x, tr, x') && DD.Good(x.server) && DisciplinedRun(parses, x, tr, x')
    ensures DD.Good(x'.server)
    decreases |tr|
  {
    if tr != [] {
      match tr[0] {
        case OfServer(d) => DD.StepGood(x.server, d);
        case PushTask(_) => DD.StepGood(x.server, D.Step.Push);
        case _ =>
      }
      RunGood(parses, Apply(parses, x, tr[0]), tr[1..], x');
    }
  }

  lemma InitInv(start: nat)
    ensures Inv(Init(start)) && DD.Good(Init(start).server)
  {
    DD.InitGood(start);
  }

  // ---------------------------------------------------------------- what a mark stands for

  /** What stands behind a run in flight; for a waiting run, where its task is. */
  ghost predicate Backed(x: State, r: S.RunId)
    requires r in x.sched.runs
  {
    match x.sched.runs[r].pc
    case Checked => false
    case Marked => true
    case Waiting(t) =>
      t in x.server.pool.outcomes || t in x.server.pool.queue
      || D.InGetter(x.server.getters, t) || D.HeldLive(x.server, t)
    case Answered => true
  }

  lemma WaitIsBacked(x: State, r: S.RunId)
    requires Inv(x) && DD.Good(x.server) && r in x.sched.runs && x.sched.runs[r].pc != S.Checked
    ensures Backed(x, r)
  {
    if x.sched.runs[r].pc.Waiting? {
      assert !D.IsLost(x.server, x.sched.runs[r].pc.task);
    }
  }

  /**
   In every state of a disciplined run a running mark stands for a run in flight that is about to push
   its task, has its result, or waits for a task that is queued, with a get handler, or held by a worker
   whose disconnect is not handled to the end.
   */
  lemma MarkIsBacked(parses: string -> bool, start: nat, tr: seq<Step>, x: State, k: S.Key)
    requires Run(parses, Init(start), tr, x) && DisciplinedRun(parses, Init(start), tr, x)
    requires S.IsMarked(x.sched.books.running, k)
    ensures exists r :: r in S.InFlight(x.sched.runs, k) && Backed(x, r)
  {
    InitInv(start);
    RunInv(parses, Init(start), tr, x);
    RunGood(parses, Init(start), tr, x);
    var r := SomeRun(x, k);
    WaitIsBacked(x, r);
  }

  lemma SomeRun(x: State, k: S.Key) returns (r: S.RunId)
    requires Inv(x) && S.IsMarked(x.sched.books.running, k)
    ensures r in S.InFlight(x.sched.runs, k)
  {
    assert S.Balanced(x.sched, k);
    assert S.InFlight(x.sched.runs, k) != {};
    r :| r in S.InFlight(x.sched.runs, k);
  }

  /** A run whose task has a result takes it and completes, and then its key is not marked. */
  lemma ResultFreesMark(parses: string -> bool, x: State, r: S.RunId)
    requires !x.sched.panicked && r in x.sched.runs && x.sched.runs[r].pc.Waiting?
    requires x.sched.runs[r].pc.task in x.server.pool.outcomes
    ensures Enabled(x, TakeResult(r)) && Completes(parses, Apply(parses, x, TakeResult(r)), r)
  {
  }

  /** The run is about to unmark its key, and does. */
  predicate Completes(parses: string -> bool, x: State, r: S.RunId) {
    && Enabled(x, OfScheduler(S.Complete(r)))
    && var x' := Apply(parses, x, OfScheduler(S.Complete(r)));
       r !in x'.sched.runs && !S.IsMarked(x'.sched.books.running, x.sched.runs[r].key)
  }

  /**
   The death of a worker frees every run that waits on a task it was given: whatever the server does
   during the loop of the drained disconnect, a task the loop has let go of frees its run.
   */
  lemma DeadWorkerFreesRuns(parses: string -> bool, x: State, w: D.Worker, tr: seq<D.Step>, r: S.RunId)
    requires Inv(x) && DD.Sound(x.server) && D.Enabled(x.server, D.Disconnect(w)) && DD.Drained(x.server, w)
    requires D.Legal(D.Apply(x.server, D.Disconnect(w)), tr)
    requires r in x.sched.runs && x.sched.runs[r].pc.Waiting?
    requires D.DeliveredTo(x.server.delivered, x.sched.runs[r].pc.task, w)
    ensures var x' := x.(server := D.After(D.Apply(x.server, D.Disconnect(w)), tr));
            x.sched.runs[r].pc.task in x'.server.closing
            || (Enabled(x', TakeResult(r)) && Completes(parses, Apply(parses, x', TakeResult(r)), r))
  {
    DD.DisconnectCompleteAndSafe(x.server, w, tr, x.sched.runs[r].pc.task);
    var x' := x.(server := D.After(D.Apply(x.server, D.Disconnect(w)), tr));
    if x.sched.runs[r].pc.task in x'.server.pool.outcomes {
      ResultFreesMark(parses, x', r);
    }
  }

  // ---------------------------------------------------------------- which runs can still complete

  /**
   A continuation in which the scheduler does nothing but the steps of run `r`, and workers report only
   what they were handed.
   */
  predicate OwnStep(order: D.Order, x: State, step: Step, r: S.RunId) {
    match step
    case OfServer(d) => DL.Honest(x.server, d) && order.Obeyed(x.server, d)
    case OfScheduler(_) => false
    case PushTask(q) => q == r
    case TakeResult(q) => q == r
  }

  predicate OwnRun(parses: string -> bool, order: D.Order, x: State, tr: seq<Step>, x': State, r: S.RunId)
    decreases |tr|
  {
    if tr == [] then x == x'
    else Enabled(x, tr[0]) && OwnStep(order, x, tr[0], r) && OwnRun(parses, order, Apply(parses, x, tr[0]), tr[1..], x', r)
  }

  /** The run can still reach the end of `runTask`, by itself. */
  ghost predicate CanComplete(parses: string -> bool, order: D.Order, x: State, r: S.RunId) {
    exists tr, x' :: OwnRun(parses, order, x, tr, x', r) && Completes(parses, x', r)
  }

  lemma CompleteLater(parses: string -> bool, order: D.Order, x: State, step: Step, r: S.RunId)
    requires Enabled(x, step) && OwnStep(order, x, step, r) && CanComplete(parses, order, Apply(parses, x, step), r)
    ensures CanComplete(parses, order, x, r)
  {
    var tr, x' :| OwnRun(parses, order, Apply(parses, x, step), tr, x', r) && Completes(parses, x', r);
    assert ([step] + tr)[1..] == tr;
    assert OwnRun(parses, order, x, [step] + tr, x', r);
  }

  lemma {:induction false} CompleteAfterPath(parses: string -> bool, order: D.Order, x: State, path: seq<D.Step>, d: D.State, r: S.RunId)
    requires DP.Path(order, x.server, path, d) && CanComplete(parses, order, x.(server := d), r)
    ensures CanComplete(parses, order, x, r)
    decreases |path|
  {
    if path == [] {
      assert x.(server := d) == x;
    } else {
      var x1 := Apply(parses, x, OfServer(path[0]));
      CompleteAfterPath(parses, order, x1, path[1..], d, r);
      CompleteLater(parses, order, x, OfServer(path[0]), r);
    }
  }

  lemma AnsweredCompletes(parses: string -> bool, order: D.Order, x: State, r: S.RunId)
    requires !x.sched.panicked && r in x.sched.runs && x.sched.runs[r].pc == S.Answered
    ensures CanComplete(parses, order, x, r)
  {
    assert Completes(parses, x, r);
    assert OwnRun(parses, order, x, [], x, r);
  }

  lemma WaitingCompletes(parses: string -> bool, order: D.Order, x: State, r: S.RunId)
    requires order.Admissible() && DP.Hearing(x.server)
    requires Inv(x) && DD.Sound(x.server) && r in x.sched.runs && x.sched.runs[r].pc.Waiting?
    requires !DL.BeyondHelp(x.server, x.sched.runs[r].pc.task)
    ensures CanComplete(parses, order, x, r)
  {
    var d := DP.ResultReachable(order, x.server, x.sched.runs[r].pc.task);
    var path :| DP.Path(order, x.server, path, d);
    var x1 := x.(server := d);
    ResultFreesMark(parses, x1, r);
    AnsweredCompletes(parses, order, Apply(parses, x1, TakeResult(r)), r);
    CompleteLater(parses, order, x1, TakeResult(r), r);
    CompleteAfterPath(parses, order, x, path, d, r);
  }

  ghost predicate HeldUp(x: State, r: S.RunId) {
    r in x.sched.runs && x.sched.runs[r].pc.Waiting? && DL.BeyondHelp(x.server, x.sched.runs[r].pc.task)
  }

  lemma SchedulerHoldsWait(parses: string -> bool, s: S.State, step: S.Step, r: S.RunId)
    requires S.Enabled(s, step) && r in s.runs && s.runs[r].pc.Waiting? && step != S.Answer(r)
    ensures r in S.Apply(parses, s, step).runs && S.Apply(parses, s, step).runs[r] == s.runs[r]
  {
  }

  /** Nobody reports a task that is beyond help. */
  ghost predicate Unguessed(x: State, step: Step) {
    step.OfServer? ==> DL.Unguessed(x.server, step.d)
  }

  ghost predicate UnguessedRun(parses: string -> bool, x: State, tr: seq<Step>, x': State)
    requires Run(parses, x, tr, x')
    decreases |tr|
  {
    tr != [] ==> Unguessed(x, tr[0]) && UnguessedRun(parses, Apply(parses, x, tr[0]), tr[1..], x')
  }

  lemma StepHeldUp(parses: string -> bool, x: State, step: Step, r: S.RunId)
    requires D.Inv(x.server) && Enabled(x, step) && HeldUp(x, r) && Unguessed(x, step)
    ensures HeldUp(Apply(parses, x, step), r)
    ensures Apply(parses, x, step).sched.runs[r] == x.sched.runs[r]
  {
    match step
    case OfServer(d) => DL.StepBeyondHelp(x.server, d, x.sched.runs[r].pc.task);
    case OfScheduler(s) => SchedulerHoldsWait(parses, x.sched, s, r);
    case PushTask(q) =>
      DL.StepBeyondHelp(x.server, D.Step.Push, x.sched.runs[r].pc.task);
      SchedulerHoldsWait(parses, x.sched, S.Step.Push(q, x.server.pool.sequence + 1), r);
    case TakeResult(q) => SchedulerHoldsWait(parses, x.sched, S.Answer(q), r);
  }

  /**
   The endless wait: a run whose task is beyond help waits throughout every run of both machines in
   which nobody reports a task that is beyond help, however long, config updates included.
   */
  lemma {:induction false} HeldUpForGood(parses: string -> bool, x: State, tr: seq<Step>, x': State, r: S.RunId)
    requires Inv(x) && HeldUp(x, r) && Run(parses, x, tr, x')
    requires UnguessedRun(parses, x, tr, x')
    ensures HeldUp(x', r) && x'.sched.runs[r] == x.sched.runs[r] && !Enabled(x', OfScheduler(S.Complete(r)))
    decreases |tr|
  {
    if tr != [] {
      StepHeldUp(parses, x, tr[0], r);
      StepInv(parses, x, tr[0]);
      HeldUpForGood(parses, Apply(parses, x, tr[0]), tr[1..], x', r);
    }
  }

  lemma {:induction false} OwnRunHeldUp(parses: string -> bool, order: D.Order, x: State, tr: seq<Step>, x': State, r: S.RunId)
    requires Inv(x) && HeldUp(x, r) && OwnRun(parses, order, x, tr, x', r)
    ensures HeldUp(x', r)
    decreases |tr|
  {
    if tr != [] {
      if tr[0].OfServer? {
        DL.HonestIsUnguessed(x.server, tr[0].d);
      }
      StepHeldUp(parses, x, tr[0], r);
      StepInv(parses, x, tr[0]);
      OwnRunHeldUp(parses, order, Apply(parses, x, tr[0]), tr[1..], x', r);
    }
  }

  /**
   The exact law of both machines: in every run with known reports whose steps do not make the watcher
   panic, a run in flight can still complete iff it does not wait for a task beyond help.
   */
  lemma CanCompleteIff(parses: string -> bool, order: D.Order, start: nat, tr: seq<Step>, x: State, r: S.RunId)
    requires order.Admissible() && Run(parses, Init(start), tr, x) && SoundRun(parses, Init(start), tr, x)
    requires DP.Hearing(x.server)
    requires r in x.sched.runs && x.sched.runs[r].pc != S.Checked
    ensures CanComplete(parses, order, x, r) <==> !HeldUp(x, r)
  {
    InitInv(start);
    RunInv(parses, Init(start), tr, x);
    RunSound(parses, Init(start), tr, x);
    if HeldUp(x, r) {
      HeldUpCannotComplete(parses, order, x, r);
    } else {
      FlightCompletes(parses, order, x, r);
    }
  }

  lemma HeldUpCannotComplete(parses: string -> bool, order: D.Order, x: State, r: S.RunId)
    requires Inv(x) && HeldUp(x, r)
    ensures !CanComplete(parses, order, x, r)
  {
    if CanComplete(parses, order, x, r) {
      var tr, x' :| OwnRun(parses, order, x, tr, x', r) && Completes(parses, x', r);
      OwnRunHeldUp(parses, order, x, tr, x', r);
      assert false;
    }
  }

  lemma FlightCompletes(parses: string -> bool, order: D.Order, x: State, r: S.RunId)
    requires order.Admissible() && DP.Hearing(x.server)
    requires Inv(x) && DD.Sound(x.server) && r in x.sched.runs && x.sched.runs[r].pc != S.Checked && !HeldUp(x, r)
    ensures CanComplete(parses, order, x, r)
  {
    match x.sched.runs[r].pc
    case Marked =>
      var x1 := Apply(parses, x, PushTask(r));
      StepInv(parses, x, PushTask(r));
      DD.StepSound(x.server, D.Step.Push);
      PushedIsInReach(x);
      WaitingCompletes(parses, order, x1, r);
      CompleteLater(parses, order, x, PushTask(r), r);
    case Waiting(_) => WaitingCompletes(parses, order, x, r);
    case Answered => AnsweredCompletes(parses, order, x, r);
  }

  lemma PushedIsInReach(x: State)
    requires Inv(x) && D.Enabled(x.server, D.Step.Push)
    ensures !DL.BeyondHelp(D.Apply(x.server, D.Step.Push), x.server.pool.sequence + 1)
  {
    var d := D.Apply(x.server, D.Step.Push);
    assert d.pool.queue[|x.server.pool.queue|] == x.server.pool.sequence + 1;
    DR.StepInv(x.server, D.Step.Push);
  }

  /** Under the two rules only the subscription lock can hold up a run. */
  lemma OnlyTheLockHoldsUp(parses: string -> bool, start: nat, tr: seq<Step>, x: State, r: S.RunId)
    requires Run(parses, Init(start), tr, x) && DisciplinedRun(parses, Init(start), tr, x)
    ensures HeldUp(x, r) ==> DL.LockStuck(x.server) && DL.NeedsLock(x.server, x.sched.runs[r].pc.task)
  {
    InitInv(start);
    RunGood(parses, Init(start), tr, x);
    if HeldUp(x, r) {
      DL.BeyondHelpIff(x.server, x.sched.runs[r].pc.task);
    }
  }

  predicate NoStoreSubscribed(tr: seq<Step>) {
    forall i | 0 <= i < |tr| :: tr[i].OfServer? && tr[i].d.Subscribe? ==> !tr[i].d.store
  }

  lemma {:induction false} NeverLockStuck(parses: string -> bool, x: State, tr: seq<Step>, x': State)
    requires Run(parses, x, tr, x') && DL.NoStores(x.server.subs) && NoStoreSubscribed(tr)
    ensures DL.NoStores(x'.server.subs) && !DL.LockStuck(x'.server)
    decreases |tr|
  {
    if tr != [] {
      var x1 := Apply(parses, x, tr[0]);
      match tr[0] {
        case OfServer(d) => DL.StepNoStores(x.server, d);
        case _ =>
      }
      assert forall i | 0 <= i < |tr[1..]| :: tr[1..][i] == tr[i + 1];
      NeverLockStuck(parses, x1, tr[1..], x');
    }
  }

  /**
   Under the two rules and without subscriptions to stores no run is ever stuck: from every reachable
   state every run in flight, so every run a mark stands for, can still complete by itself.
   */
  lemma NoRunIsStuck(parses: string -> bool, order: D.Order, start: nat, tr: seq<Step>, x: State)
    requires order.Admissible() && Run(parses, Init(start), tr, x)
    requires DisciplinedRun(parses, Init(start), tr, x) && NoStoreSubscribed(tr)
    ensures forall r | r in x.sched.runs && x.sched.runs[r].pc != S.Checked :: CanComplete(parses, order, x, r)
    ensures forall k | S.IsMarked(x.sched.books.running, k) ::
              exists r :: r in S.InFlight(x.sched.runs, k) && CanComplete(parses, order, x, r)
  {
    InitInv(start);
    RunInv(parses, Init(start), tr, x);
    RunGood(parses, Init(start), tr, x);
    NeverLockStuck(parses, Init(start), tr, x);
    forall r | r in x.sched.runs && x.sched.runs[r].pc != S.Checked
      ensures CanComplete(parses, order, x, r)
    {
      OnlyTheLockHoldsUp(parses, start, tr, x, r);
      FlightCompletes(parses, order, x, r);
    }
    forall k | S.IsMarked(x.sched.books.running, k)
      ensures exists r :: r in S.InFlight(x.sched.runs, k) && CanComplete(parses, order, x, r)
    {
      var r := SomeRun(x, k);
    }
  }
}
