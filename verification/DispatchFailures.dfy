/**
 What goes wrong.  Without one of the two rules tasks get lost and the watcher panics; each of these runs
 keeps the other rule.  With both rules subscriptions to stores can deadlock.  All of this happens in
 whatever order tasks and the subscription lock are handed out.
 */
module DispatchFailures {
  import opened Wrappers
  import opened Dispatch
  import opened DispatchRuns
  import opened DispatchTheorems
  import opened DispatchPanics
  import opened DispatchLock

  datatype Rule = DrainedDisconnects | KnownReports | BothRules

  /** Steps that cannot break the rule: no disconnects at all, or no reports at all, or neither. */
  predicate Keeps(step: Step, kept: Rule) {
    match kept
    case DrainedDisconnects => !step.Disconnect?
    case KnownReports => !step.Receive? && !step.Done?
    case BothRules => !step.Disconnect? && !step.Receive? && !step.Done?
  }

  ghost predicate Ends(order: Order, s: State, tr: seq<Step>, kept: Rule, s': State)
    decreases |tr|
  {
    if tr == [] then s == s'
    else
      && Enabled(s, tr[0]) && order.Obeyed(s, tr[0]) && Keeps(tr[0], kept)
      && Ends(order, Apply(s, tr[0]), tr[1..], kept, s')
  }

  ghost predicate CanEnd(order: Order, s: State, kept: Rule, s': State) {
    exists tr :: Ends(order, s, tr, kept, s')
  }

  /** A run without a step against `kept` loses task `t`, */
  ghost predicate CanLose(order: Order, s: State, t: TaskId, kept: Rule) {
    exists s' :: CanEnd(order, s, kept, s') && IsLost(s', t)
  }

  /** or makes the panic of the watcher certain. */
  ghost predicate CanPanic(order: Order, s: State, kept: Rule) {
    exists s' :: CanEnd(order, s, kept, s') && PanicsOnItsOwn(s')
  }

  lemma Here(order: Order, s: State, kept: Rule)
    ensures CanEnd(order, s, kept, s)
  {
    assert Ends(order, s, [], kept, s);
  }

  lemma First(order: Order, s: State, step: Step, kept: Rule, s': State)
    requires Enabled(s, step) && order.Obeyed(s, step) && Keeps(step, kept)
    requires CanEnd(order, Apply(s, step), kept, s')
    ensures CanEnd(order, s, kept, s')
  {
    var tr :| Ends(order, Apply(s, step), tr, kept, s');
    assert ([step] + tr)[1..] == tr;
    assert Ends(order, s, [step] + tr, kept, s');
  }

  lemma {:induction false} EndsInv(order: Order, s: State, tr: seq<Step>, kept: Rule, s': State)
    requires Inv(s) && Ends(order, s, tr, kept, s')
    ensures Inv(s')
    decreases |tr|
  {
    if tr != [] {
      StepInv(s, tr[0]);
      EndsInv(order, Apply(s, tr[0]), tr[1..], kept, s');
    }
  }

  lemma EndInv(order: Order, s: State, kept: Rule, s': State)
    requires Inv(s) && CanEnd(order, s, kept, s')
    ensures Inv(s')
  {
    var tr :| Ends(order, s, tr, kept, s');
    EndsInv(order, s, tr, kept, s');
  }

  lemma LoseLater(order: Order, s: State, step: Step, t: TaskId, kept: Rule)
    requires Enabled(s, step) && order.Obeyed(s, step) && Keeps(step, kept)
    requires CanLose(order, Apply(s, step), t, kept)
    ensures CanLose(order, s, t, kept)
  {
    var s' :| CanEnd(order, Apply(s, step), kept, s') && IsLost(s', t);
    First(order, s, step, kept, s');
  }

  lemma PanicLater(order: Order, s: State, step: Step, kept: Rule)
    requires Enabled(s, step) && order.Obeyed(s, step) && Keeps(step, kept)
    requires CanPanic(order, Apply(s, step), kept)
    ensures CanPanic(order, s, kept)
  {
    var s' :| CanEnd(order, Apply(s, step), kept, s') && PanicsOnItsOwn(s');
    First(order, s, step, kept, s');
  }

  // ---------------------------------------------------------------- the rest of taskGetHandler

  /** The next task goes to a get handler of the open connection `w`. */
  predicate Gives(order: Order, s: State, w: Worker, t: TaskId) {
    && !s.crashed && order.next(s) < |s.pool.queue| && s.pool.queue[order.next(s)] == t
    && order.taker(s) in s.askers && s.askers[order.taker(s)] == w && w in s.links && s.links[w] == Open
  }

  /** The handler has registered it; the watcher does not know yet. */
  function Taken(order: Order, s: State, w: Worker, t: TaskId): State
    requires Gives(order, s, w, t) && w in s.held
  {
    s.(pool := s.pool.Shift(order.next(s)), askers := s.askers - {order.taker(s)},
       chan := s.chan + [Keeper(w, t, false)],
       held := s.held[w := s.held[w] + {t}], delivered := s.delivered[t := w])
  }

  lemma TakeRun(order: Order, s: State, w: Worker, t: TaskId, kept: Rule, s': State)
    requires Gives(order, s, w, t) && w in s.held && AskersApart(s.askers, s.getters)
    requires CanEnd(order, Taken(order, s, w, t), kept, s')
    ensures CanEnd(order, s, kept, s')
  {
    var i, h := order.next(s), order.taker(s);
    var s1 := Apply(s, Shift(h, i));
    var s2 := Apply(s1, Check(h));
    assert h !in s.getters;
    assert Apply(s2, Register(h)).getters == s.getters;
    assert Apply(s2, Register(h)) == Taken(order, s, w, t);
    First(order, s2, Register(h), kept, s');
    First(order, s1, Check(h), kept, s');
    First(order, s, Shift(h, i), kept, s');
  }

  lemma TakenInv(order: Order, s: State, w: Worker, t: TaskId)
    requires Inv(s) && Gives(order, s, w, t)
    ensures w in s.held && Inv(Taken(order, s, w, t))
  {
    Here(order, Taken(order, s, w, t), KnownReports);
    TakeRun(order, s, w, t, KnownReports, Taken(order, s, w, t));
    EndInv(order, s, KnownReports, Taken(order, s, w, t));
  }

  // ---------------------------------------------------------------- early disconnects

  /** The watcher is at its select, no connection is on its way out, and nobody has or wants the lock. */
  predicate Idle(s: State) {
    !s.crashed && s.closing == {} && s.subs == map[] && Waiters(s) == {} && Leavers(s) == {}
  }

  /** The connection is lost, and its close callback waits for the watcher. */
  function Gone(s: State, w: Worker): State {
    s.(links := s.links[w := Leaving])
  }

  lemma LeavesGone(s: State, w: Worker)
    requires Idle(s) && Reading(s, w)
    ensures var s1 := Apply(s, Lose(w)); Enabled(s1, Leave(w)) && Apply(s1, Leave(w)) == Gone(s, w)
  {
    assert Apply(Apply(s, Lose(w)), Leave(w)).links == Gone(s, w).links;
  }

  lemma OnlyLeaver(s: State, w: Worker)
    requires Idle(s) && Reading(s, w)
    ensures Leavers(Gone(s, w)) == {w}
  {
    forall v
      ensures v in Leavers(Gone(s, w)) <==> v == w
    {
      assert v !in Leavers(s);
    }
  }

  lemma OnlyWaiter(s: State, w: Worker)
    requires Idle(s) && Reading(s, w)
    ensures Waiters(Apply(s, Lose(w))) == {w}
  {
    var s1 := Apply(s, Lose(w));
    forall v
      ensures v in Waiters(s1) <==> v == w
    {
      assert v !in Waiters(s);
    }
  }

  lemma GoneRun(order: Order, s: State, w: Worker, kept: Rule, s': State)
    requires order.Admissible() && Idle(s) && Reading(s, w)
    requires CanEnd(order, Gone(s, w), kept, s')
    ensures CanEnd(order, s, kept, s')
  {
    var s1 := Apply(s, Lose(w));
    OnlyWaiter(s, w);
    assert order.lock(s1) == w;
    LeavesGone(s, w);
    First(order, s1, Leave(w), kept, s');
    First(order, s, Lose(w), kept, s');
  }

  lemma GoneInv(order: Order, s: State, w: Worker)
    requires order.Admissible() && Inv(s) && Idle(s) && Reading(s, w)
    ensures Inv(Gone(s, w)) && Enabled(Gone(s, w), Disconnect(w)) && order.leaver(Gone(s, w)) == w
  {
    OnlyLeaver(s, w);
    assert order.leaver(Gone(s, w)) in Leavers(Gone(s, w));
    Here(order, Gone(s, w), KnownReports);
    GoneRun(order, s, w, KnownReports, Gone(s, w));
    EndInv(order, s, KnownReports, Gone(s, w));
  }

  /** The select takes the disconnect before the registration sent earlier: the task given to `w` is lost, */
  lemma EarlyDisconnectLosesATask(order: Order, s: State, w: Worker, t: TaskId)
    requires order.Admissible() && Inv(s) && Idle(s) && Reading(s, w) && Gives(order, s, w, t)
    requires t !in s.pool.outcomes
    ensures CanLose(order, s, t, KnownReports)
  {
    TakenInv(order, s, w, t);
    var s1 := Taken(order, s, w, t);
    GoneInv(order, s1, w);
    var s2 := Gone(s1, w);
    assert s2.chan[|s.chan|] == Keeper(w, t, false);
    OvertakenIsLost(s2, w, t);
    var s3 := Apply(s2, Disconnect(w));
    Here(order, s3, KnownReports);
    First(order, s2, Disconnect(w), KnownReports, s3);
    GoneRun(order, s1, w, KnownReports, s3);
    TakeRun(order, s, w, t, KnownReports, s3);
  }

  lemma OvertakenIsLost(s: State, w: Worker, t: TaskId)
    requires Inv(s) && Enabled(s, Disconnect(w)) && t !in s.pool.outcomes && t in TasksOf(s.held, w)
    requires Buffered(s.chan, w, t)
    ensures IsLost(Apply(s, Disconnect(w)), t)
  {
    LossLaw(s, Disconnect(w), t);
  }

  /** and if the watcher knew of another task of the worker, handling the registration panics. */
  lemma EarlyDisconnectPanics(order: Order, s: State, w: Worker, t: TaskId)
    requires order.Admissible() && Inv(s) && Idle(s) && Reading(s, w) && Gives(order, s, w, t)
    requires TasksOf(s.table, w) != {}
    ensures CanPanic(order, s, KnownReports)
  {
    TakenInv(order, s, w, t);
    var s1 := Taken(order, s, w, t);
    GoneInv(order, s1, w);
    var s2 := Gone(s1, w);
    assert s2.chan[|s.chan|] == Keeper(w, t, false);
    PanicLaw(s2, Disconnect(w));
    StepInv(s2, Disconnect(w));
    var s3 := Apply(s2, Disconnect(w));
    DoomedIff(s3);
    Here(order, s3, KnownReports);
    First(order, s2, Disconnect(w), KnownReports, s3);
    GoneRun(order, s1, w, KnownReports, s3);
    TakeRun(order, s, w, t, KnownReports, s3);
  }

  /** Every waiting get handler belongs to a connection that is read. */
  predicate AllRead(s: State) {
    forall h | h in s.askers :: Reading(s, s.askers[h])
  }

  /** Other get handlers take what is ahead of it in the queue: so any queued task can be lost. */
  lemma {:induction false} AnyQueuedTaskCanBeLost(order: Order, s: State, w: Worker, t: TaskId)
    requires order.Admissible() && Inv(s) && Idle(s) && Reading(s, w) && AllRead(s)
    requires t in s.pool.queue && t !in s.pool.outcomes
    ensures CanLose(order, s, t, KnownReports)
    decreases |s.pool.queue|, if s.askers == map[] then 1 else 0
  {
    if s.askers == map[] {
      var h := FreshHandler(s);
      StepInv(s, Ask(h, w));
      AsksIdle(s, w, h);
      AnyQueuedTaskCanBeLost(order, Apply(s, Ask(h, w)), w, t);
      LoseLater(order, s, Ask(h, w), t, KnownReports);
    } else {
      var i, h := order.next(s), order.taker(s);
      if s.pool.queue[i] == t {
        EarlyDisconnectLosesATask(order, s, s.askers[h], t);
      } else {
        StepInv(s, Shift(h, i));
        ShiftLeaves(s.pool.queue, i, t);
        StaysIdle(s, w, h, i);
        AnyQueuedTaskCanBeLost(order, Apply(s, Shift(h, i)), w, t);
        LoseLater(order, s, Shift(h, i), t, KnownReports);
      }
    }
  }

  lemma AsksIdle(s: State, w: Worker, h: Handler)
    requires Idle(s) && AllRead(s) && Enabled(s, Ask(h, w))
    ensures var s' := Apply(s, Ask(h, w));
            Idle(s') && AllRead(s') && Reading(s', w) && s'.askers != map[] && s'.pool == s.pool
  {
    assert h in Apply(s, Ask(h, w)).askers;
  }

  lemma StaysIdle(s: State, w: Worker, h: Handler, i: nat)
    requires Idle(s) && AllRead(s) && Reading(s, w) && Enabled(s, Shift(h, i))
    ensures var s' := Apply(s, Shift(h, i));
            && Idle(s') && AllRead(s') && Reading(s', w) && |s'.pool.queue| < |s.pool.queue|
            && s'.pool.outcomes == s.pool.outcomes
  {
  }

  /** The server with `n` tasks in its queue and one worker, which has asked twice. */
  function Served(n: nat): State {
    State(Pool(0, n, seq(n, i => i + 1), map[]), map[1 := 1, 2 := 1], map[], map[], [], map[1 := Open], map[],
          map[1 := {}], {}, false, map[1 := {}], map[])
  }

  function Issued(n: nat): State {
    Init(0).(pool := Pool(0, n, seq(n, i => i + 1), map[]))
  }

  lemma {:induction false} IssuedRun(order: Order, n: nat, m: nat, s': State)
    requires n <= m && CanEnd(order, Issued(m), KnownReports, s')
    ensures CanEnd(order, Issued(n), KnownReports, s')
    decreases m - n
  {
    if n < m {
      IssuedRun(order, n + 1, m, s');
      assert Apply(Issued(n), Push) == Issued(n + 1);
      First(order, Issued(n), Push, KnownReports, s');
    }
  }

  lemma ServedRun(order: Order, n: nat, s': State)
    requires CanEnd(order, Served(n), KnownReports, s')
    ensures CanEnd(order, Init(0), KnownReports, s')
  {
    var s1 := Served(n).(askers := map[]);
    AsksTwice(order, s1, s');
    assert Apply(Issued(n), Connect(1)) == s1;
    First(order, Issued(n), Connect(1), KnownReports, s');
    IssuedRun(order, 0, n, s');
    assert Issued(0) == Init(0);
  }

  lemma AsksTwice(order: Order, s: State, s': State)
    requires !s.crashed && s.askers == map[] && s.getters == map[] && s.reporters == map[] && Reading(s, 1)
    requires CanEnd(order, s.(askers := map[1 := 1, 2 := 1]), KnownReports, s')
    ensures CanEnd(order, s, KnownReports, s')
  {
    var s1 := s.(askers := map[1 := 1]);
    assert Apply(s1, Ask(2, 1)) == s.(askers := map[1 := 1, 2 := 1]);
    First(order, s1, Ask(2, 1), KnownReports, s');
    assert Apply(s, Ask(1, 1)) == s1;
    First(order, s, Ask(1, 1), KnownReports, s');
  }

  lemma ServedInv(order: Order, n: nat)
    ensures Inv(Served(n)) && Idle(Served(n)) && Reading(Served(n), 1)
  {
    InitInv(0);
    Here(order, Served(n), KnownReports);
    ServedRun(order, n, Served(n));
    EndInv(order, Init(0), KnownReports, Served(n));
  }

  /** The loss from the empty server, with one task and one worker. */
  lemma ATaskCanBeLost(order: Order)
    requires order.Admissible()
    ensures CanLose(order, Init(0), 1, KnownReports)
  {
    ServedInv(order, 1);
    assert order.next(Served(1)) == 0 && order.taker(Served(1)) in Served(1).askers;
    EarlyDisconnectLosesATask(order, Served(1), 1, 1);
    var s' :| CanEnd(order, Served(1), KnownReports, s') && IsLost(s', 1);
    ServedRun(order, 1, s');
  }

  /** The panic from the empty server, with two tasks and one worker. */
  lemma TheWatcherCanPanic(order: Order)
    requires order.Admissible()
    ensures CanPanic(order, Init(0), KnownReports)
  {
    ServedInv(order, 2);
    KnownTaskPanics(order, Served(2), 1);
    var s' :| CanEnd(order, Served(2), KnownReports, s') && PanicsOnItsOwn(s');
    ServedRun(order, 2, s');
  }

  /** The worker takes two tasks, and the watcher handles the registration of the first only. */
  lemma KnownTaskPanics(order: Order, s: State, w: Worker)
    requires order.Admissible() && Inv(s) && Idle(s) && Reading(s, w) && |s.pool.queue| == 2 && s.chan == []
    requires |s.askers| == 2 && forall h | h in s.askers :: s.askers[h] == w
    ensures CanPanic(order, s, KnownReports)
  {
    assert order.taker(s) in s.askers;
    var t := s.pool.queue[order.next(s)];
    TakenInv(order, s, w, t);
    var s1 := Taken(order, s, w, t);
    OneAskerLess(s.askers, order.taker(s));
    WatchedTaskPanics(order, s1, w, t);
    PanicLater(order, s1, WatchTask, KnownReports);
    var s' :| CanEnd(order, s1, KnownReports, s') && PanicsOnItsOwn(s');
    TakeRun(order, s, w, t, KnownReports, s');
  }

  lemma WatchedTaskPanics(order: Order, s: State, w: Worker, t: TaskId)
    requires order.Admissible() && Inv(s) && Idle(s) && Reading(s, w) && s.pool.queue != []
    requires s.chan == [Keeper(w, t, false)] && s.askers != map[] && forall h | h in s.askers :: s.askers[h] == w
    ensures Enabled(s, WatchTask) && CanPanic(order, Apply(s, WatchTask), KnownReports)
  {
    StepInv(s, WatchTask);
    var s' := Apply(s, WatchTask);
    assert order.taker(s') in s'.askers && order.next(s') < |s'.pool.queue|;
    assert t in TasksOf(s'.table, w);
    EarlyDisconnectPanics(order, s', w, s'.pool.queue[order.next(s')]);
  }

  lemma OneAskerLess(askers: map<Handler, Worker>, h: Handler)
    requires h in askers && |askers| == 2
    ensures askers - {h} != map[]
  {
    assert (askers - {h}).Keys == askers.Keys - {h};
    assert |askers.Keys - {h}| == 1;
  }

  // ---------------------------------------------------------------- reports of ids to come

  /**
   A report of an id still to be issued has had no effect, and its done message is not sent yet.  Nobody
   but its worker asks for tasks.
   */
  predicate Premature(s: State, w: Worker, t: TaskId, h: Handler) {
    !s.crashed && Reading(s, w) && h in s.reporters && s.reporters[h] == Reporter(w, t, Delivered)
    && t !in s.pool.outcomes
    && forall g | g in s.askers :: s.askers[g] == w
  }

  lemma ReportLoses(s: State, h: Handler)
    requires Inv(s) && Enabled(s, Report(h))
    requires var r := s.reporters[h];
             r.task !in s.pool.outcomes && r.task in TasksOf(s.held, r.worker) && Live(s.links, r.worker)
    ensures IsLost(Apply(s, Report(h)), s.reporters[h].task)
  {
    LossLaw(s, Report(h), s.reporters[h].task);
  }

  /** `w` is given the task, and then the done message of its early report erases it. */
  lemma {:induction false} Erased(order: Order, s: State, w: Worker, t: TaskId, h: Handler)
    requires order.Admissible() && Inv(s) && Premature(s, w, t, h) && t in s.pool.queue
    ensures CanLose(order, s, t, DrainedDisconnects)
    decreases |s.pool.queue|, if s.askers == map[] then 1 else 0
  {
    if s.askers == map[] {
      var g := FreshHandler(s);
      StepInv(s, Ask(g, w));
      AsksPremature(s, w, t, h, g);
      Erased(order, Apply(s, Ask(g, w)), w, t, h);
      LoseLater(order, s, Ask(g, w), t, DrainedDisconnects);
    } else {
      var i, g := order.next(s), order.taker(s);
      if s.pool.queue[i] == t {
        ErasedNow(order, s, w, t, h);
      } else {
        StepInv(s, Shift(g, i));
        ShiftLeaves(s.pool.queue, i, t);
        StaysPremature(s, w, t, h, g, i);
        Erased(order, Apply(s, Shift(g, i)), w, t, h);
        LoseLater(order, s, Shift(g, i), t, DrainedDisconnects);
      }
    }
  }

  lemma AsksPremature(s: State, w: Worker, t: TaskId, h: Handler, g: Handler)
    requires Premature(s, w, t, h) && Enabled(s, Ask(g, w))
    ensures var s' := Apply(s, Ask(g, w)); Premature(s', w, t, h) && s'.askers != map[] && s'.pool == s.pool
  {
    assert g in Apply(s, Ask(g, w)).askers;
  }

  lemma StaysPremature(s: State, w: Worker, t: TaskId, h: Handler, g: Handler, i: nat)
    requires Premature(s, w, t, h) && Enabled(s, Shift(g, i))
    ensures Premature(Apply(s, Shift(g, i)), w, t, h) && |Apply(s, Shift(g, i)).pool.queue| < |s.pool.queue|
  {
  }

  lemma ErasedNow(order: Order, s: State, w: Worker, t: TaskId, h: Handler)
    requires Inv(s) && Gives(order, s, w, t) && Premature(s, w, t, h)
    ensures CanLose(order, s, t, DrainedDisconnects)
  {
    TakenInv(order, s, w, t);
    var s1 := Taken(order, s, w, t);
    ReportLoses(s1, h);
    var s2 := Apply(s1, Report(h));
    Here(order, s2, DrainedDisconnects);
    First(order, s1, Report(h), DrainedDisconnects, s2);
    TakeRun(order, s, w, t, DrainedDisconnects, s2);
  }

  lemma {:induction false} IssuedLater(order: Order, s: State, w: Worker, t: TaskId, h: Handler)
    requires order.Admissible() && Inv(s) && Premature(s, w, t, h) && t > s.pool.sequence
    ensures CanLose(order, s, t, DrainedDisconnects)
    decreases t - s.pool.sequence
  {
    var s1 := Apply(s, Push);
    StepInv(s, Push);
    if t == s.pool.sequence + 1 {
      assert s1.pool.queue[|s.pool.queue|] == t;
      Erased(order, s1, w, t, h);
    } else {
      IssuedLater(order, s1, w, t, h);
    }
    LoseLater(order, s, Push, t, DrainedDisconnects);
  }

  lemma DoneTooEarly(s: State, h: Handler)
    requires Inv(s) && Enabled(s, Step.Done(h)) && s.reporters[h].task > s.pool.sequence
    ensures var s', r := Apply(s, Step.Done(h)), s.reporters[h];
            Inv(s') && s' == s.(reporters := s.reporters[h := Reporter(r.worker, r.task, Delivered)])
    ensures s.reporters[h].task !in s.pool.outcomes
  {
    StepInv(s, Step.Done(h));
  }

  /**
   Any id still to come can be spoiled: reported by `w` now, issued after some pushes and handed to `w`,
   it is erased by the done message of that early report, and the task is lost.
   */
  lemma PrematureReportLosesATask(order: Order, s: State, w: Worker, t: TaskId, o: Outcome)
    requires order.Admissible() && Inv(s) && !s.crashed && Reading(s, w) && t > s.pool.sequence
    requires forall g | g in s.askers :: s.askers[g] == w
    ensures CanLose(order, s, t, DrainedDisconnects)
  {
    var h := FreshHandler(s);
    var s1 := Apply(s, Receive(h, w, t, o));
    StepInv(s, Receive(h, w, t, o));
    assert s1.pool == s.pool && s1.askers == s.askers;
    DoneTooEarly(s1, h);
    IssuedLater(order, Apply(s1, Step.Done(h)), w, t, h);
    LoseLater(order, s1, Step.Done(h), t, DrainedDisconnects);
    LoseLater(order, s, Receive(h, w, t, o), t, DrainedDisconnects);
  }

  // ---------------------------------------------------------------- subscriptions to stores

  /** `c` has entered its subscription to a store. */
  function Subscribed(s: State, c: Worker): State {
    s.(pool := s.pool.Push(), subs := s.subs[c := Pending(s.pool.sequence + 1)])
  }

  lemma SubscribedRun(order: Order, s: State, c: Worker, s': State)
    requires order.Admissible() && Idle(s) && Reading(s, c)
    requires CanEnd(order, Subscribed(s, c), BothRules, s')
    ensures CanEnd(order, s, BothRules, s')
  {
    var s1 := Apply(s, Subscribe(c, true));
    OnlySubscriber(s, c);
    assert order.lock(s1) == c;
    EnterSubscribes(s, c);
    First(order, s1, Enter(c), BothRules, s');
    First(order, s, Subscribe(c, true), BothRules, s');
  }

  lemma EnterSubscribes(s: State, c: Worker)
    requires Idle(s) && Reading(s, c)
    ensures var s1 := Apply(s, Subscribe(c, true));
            Enabled(s1, Enter(c)) && Apply(s1, Enter(c)) == Subscribed(s, c)
  {
    var s1 := Apply(s, Subscribe(c, true));
    assert Apply(s1, Enter(c)).subs == Subscribed(s, c).subs;
  }

  lemma OnlySubscriber(s: State, c: Worker)
    requires Idle(s) && Reading(s, c)
    ensures Waiters(Apply(s, Subscribe(c, true))) == {c}
  {
    var s1 := Apply(s, Subscribe(c, true));
    forall v
      ensures v in Waiters(s1) <==> v == c
    {
      assert v !in Waiters(s);
    }
  }

  /** `c` holds the lock for a task that nobody has reported, and that is given to `w` next. */
  predicate AsksNext(order: Order, s: State, c: Worker, w: Worker, p: TaskId) {
    && Gives(order, s, w, p) && c in s.subs && s.subs[c] == Pending(p)
    && p !in s.pool.outcomes && !ReportRead(s.reporters, p)
  }

  /** A worker that gets the task of its own subscription waits for itself: its report is never read. */
  lemma OwnSubscriptionDeadlocks(order: Order, s: State, c: Worker, p: TaskId)
    requires Inv(s) && AsksNext(order, s, c, c, p)
    ensures CanStick(order, s, p)
  {
    var s1 := Taken(order, s, c, p);
    assert Stalled(s1, p);
    Here(order, s1, BothRules);
    TakeRun(order, s, c, p, BothRules, s1);
  }

  /** A run within both rules puts task `t` beyond help. */
  ghost predicate CanStick(order: Order, s: State, t: TaskId) {
    exists s' :: CanEnd(order, s, BothRules, s') && BeyondHelp(s', t)
  }

  /**
   If the task is with another worker when its connection breaks, the subscriber waits for a task that
   fails only after a disconnect that waits for the subscriber: no task of that worker gets a result.
   */
  lemma LostWorkerDeadlocks(order: Order, s: State, c: Worker, w: Worker, p: TaskId)
    requires Inv(s) && AsksNext(order, s, c, w, p) && Reading(s, w)
    ensures exists s' :: CanEnd(order, s, BothRules, s') && BeyondHelp(s', p)
                         && forall t | DeliveredTo(s.delivered, t, w) && t !in s.pool.outcomes
                                       && !ReportRead(s.reporters, t) :: BeyondHelp(s', t)
  {
    var s1 := Taken(order, s, w, p);
    var s2 := Apply(s1, Lose(w));
    assert DeliveredTo(s2.delivered, p, w) && Stalled(s2, p);
    assert s2.subs[c] == Pending(p);
    assert LockStuck(s2);
    forall t | DeliveredTo(s.delivered, t, w) && t !in s.pool.outcomes && !ReportRead(s.reporters, t)
      ensures BeyondHelp(s2, t)
    {
      assert DeliveredTo(s2.delivered, t, w);
    }
    Here(order, s2, BothRules);
    First(order, s1, Lose(w), BothRules, s2);
    TakeRun(order, s, w, p, BothRules, s2);
  }

  /** Both from the empty server: with one worker, */
  lemma AWorkerCanDeadlock(order: Order)
    requires order.Admissible()
    ensures CanStick(order, Init(0), 1)
  {
    var s := Subscribed(OneWorker(), 1);
    OneWorkerRun(order, s);
    SubscribedInv(order, OneWorker(), 1);
    OwnSubscriptionDeadlocks(order, s, 1, 1);
    var s' :| CanEnd(order, s, BothRules, s') && BeyondHelp(s', 1);
    SubscribedRun(order, OneWorker(), 1, s');
    OneWorkerRun(order, s');
  }

  /** and with two. */
  lemma TheServerCanDeadlock(order: Order)
    requires order.Admissible()
    ensures CanStick(order, Init(0), 1)
  {
    var s := Subscribed(TwoWorkers(), 1);
    TwoWorkersRun(order, s);
    SubscribedInv(order, TwoWorkers(), 2);
    LostWorkerDeadlocks(order, s, 1, 2, 1);
    var s' :| CanEnd(order, s, BothRules, s') && BeyondHelp(s', 1);
    SubscribedRun(order, TwoWorkers(), 1, s');
    TwoWorkersRun(order, s');
  }

  /** One worker, which has asked for a task. */
  function OneWorker(): State {
    Apply(Apply(Init(0), Connect(1)), Ask(1, 1))
  }

  /** Two workers; the second one has asked. */
  function TwoWorkers(): State {
    Apply(Apply(Apply(Init(0), Connect(1)), Connect(2)), Ask(1, 2))
  }

  /** Nothing has happened but connections and one call for a task. */
  predicate Quiet(s: State, w: Worker) {
    && Idle(s) && Reading(s, 1) && Reading(s, w)
    && s.pool == Init(0).pool && s.reporters == map[] && s.askers == map[1 := w]
  }

  lemma OneWorkerRun(order: Order, s': State)
    ensures Quiet(OneWorker(), 1)
    ensures CanEnd(order, OneWorker(), BothRules, s') ==> CanEnd(order, Init(0), BothRules, s')
  {
    if CanEnd(order, OneWorker(), BothRules, s') {
      First(order, Apply(Init(0), Connect(1)), Ask(1, 1), BothRules, s');
      First(order, Init(0), Connect(1), BothRules, s');
    }
  }

  lemma TwoWorkersRun(order: Order, s': State)
    ensures Quiet(TwoWorkers(), 2)
    ensures CanEnd(order, TwoWorkers(), BothRules, s') ==> CanEnd(order, Init(0), BothRules, s')
  {
    TwoWorkersQuiet();
    var s1 := Apply(Init(0), Connect(1));
    if CanEnd(order, TwoWorkers(), BothRules, s') {
      First(order, Apply(s1, Connect(2)), Ask(1, 2), BothRules, s');
      First(order, s1, Connect(2), BothRules, s');
      First(order, Init(0), Connect(1), BothRules, s');
    }
  }

  lemma TwoWorkersQuiet()
    ensures Quiet(TwoWorkers(), 2)
  {
  }

  lemma SubscribedInv(order: Order, s: State, w: Worker)
    requires order.Admissible() && Quiet(s, w)
    requires CanEnd(order, s, BothRules, Subscribed(s, 1)) ==> CanEnd(order, Init(0), BothRules, Subscribed(s, 1))
    ensures Inv(Subscribed(s, 1)) && AsksNext(order, Subscribed(s, 1), 1, w, 1)
  {
    var s1 := Subscribed(s, 1);
    Here(order, s1, BothRules);
    SubscribedRun(order, s, 1, s1);
    InitInv(0);
    EndInv(order, Init(0), BothRules, s1);
    SubscribedAsks(order, s, w);
  }

  lemma SubscribedAsks(order: Order, s: State, w: Worker)
    requires order.Admissible() && Quiet(s, w)
    ensures AsksNext(order, Subscribed(s, 1), 1, w, 1)
  {
    var s1 := Subscribed(s, 1);
    assert s1.pool.queue == [1];
    assert order.next(s1) < |s1.pool.queue| && order.taker(s1) in s1.askers;
  }
}
