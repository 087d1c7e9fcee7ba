/**
 The subscription lock, and which tasks are beyond help.  A subscription to a store pushes a task and
 waits for its result in the goroutine that reads the calls of its connection, with a lock in its hands
 that every lost connection needs before it is announced to the watcher.  So the result of one task can
 depend on the result of another one, or on its own.
 */
module DispatchLock {
  import opened Dispatch
  import opened DispatchRuns
  import opened DispatchTheorems
  import opened DispatchDiscipline

  // ---------------------------------------------------------------- beyond help

  /** In the hands of a get handler that will register it with a connection already closed. */
  predicate TooLate(s: State, t: TaskId) {
    exists h | h in s.getters ::
      s.getters[h].task == t && s.getters[h].pc == Checked && !Live(s.links, s.getters[h].worker)
  }

  ghost predicate WrittenOff(s: State, t: TaskId) {
    Abandoned(s, t) || TooLate(s, t)
  }

  /** Nothing more is read from `w`, and its end is not announced, before the lock changes hands. */
  predicate Deaf(s: State, w: Worker) {
    w in s.subs || (w in s.links && s.links[w] == Lost)
  }

  /** Given to such a connection, or about to be given to it. */
  predicate NeedsLock(s: State, t: TaskId) {
    || (t in s.delivered && Deaf(s, s.delivered[t]))
    || (exists h :: h in s.getters && s.getters[h].task == t && Bound(s, s.getters[h]))
  }

  predicate Bound(s: State, g: Getter) {
    (g.pc == Checked && Deaf(s, g.worker)) || (g.pc == Shifted && g.worker in s.subs)
  }

  /** No result of `t` can come about while the lock is where it is. */
  ghost predicate Stalled(s: State, t: TaskId) {
    t !in s.pool.outcomes && !ReportRead(s.reporters, t) && (WrittenOff(s, t) || NeedsLock(s, t))
  }

  /** The lock is held for a task that is stalled itself. */
  ghost predicate LockStuck(s: State) {
    exists c :: c in s.subs && s.subs[c].Pending? && Stalled(s, s.subs[c].task)
  }

  ghost predicate BeyondHelp(s: State, t: TaskId) {
    && t !in s.pool.outcomes && !ReportRead(s.reporters, t)
    && (WrittenOff(s, t) || (LockStuck(s) && NeedsLock(s, t)))
  }

  // ---------------------------------------------------------------- it is for good

  /** Nobody reports a task that is beyond help. */
  ghost predicate Unguessed(s: State, step: Step) {
    step.Receive? ==> !BeyondHelp(s, step.task)
  }

  /** A worker reports only a task it was handed. */
  predicate Honest(s: State, step: Step) {
    step.Receive? ==> DeliveredTo(s.delivered, step.task, step.w)
  }

  /** Such a task was never given to a connection that is read, so no honest worker reports it. */
  lemma HonestIsUnguessed(s: State, step: Step)
    requires Inv(s) && Enabled(s, step) && Honest(s, step)
    ensures Unguessed(s, step)
  {
  }

  lemma StepTooLate(s: State, step: Step, t: TaskId)
    requires Inv(s) && Enabled(s, step) && t !in s.pool.outcomes && t !in Apply(s, step).pool.outcomes
    requires TooLate(s, t)
    ensures WrittenOff(Apply(s, step), t)
  {
    var h :| h in s.getters && s.getters[h].task == t && s.getters[h].pc == Checked
             && !Live(s.links, s.getters[h].worker);
    if step == Register(h) {
      LossLaw(s, step, t);
      StepDelivered(s, step);
    } else {
      StaysTooLate(s, step, h);
    }
  }

  lemma StaysTooLate(s: State, step: Step, h: Handler)
    requires Enabled(s, step) && step != Register(h) && GettersKnown(s.links.Keys, s.getters)
    requires AskersApart(s.askers, s.getters)
    requires h in s.getters && s.getters[h].pc == Checked && !Live(s.links, s.getters[h].worker)
    ensures h in Apply(s, step).getters && Apply(s, step).getters[h] == s.getters[h]
    ensures !Live(Apply(s, step).links, s.getters[h].worker)
  {
    LinkStep(s, step, s.getters[h].worker);
  }

  /** Without a report, a stalled task gets no result. */
  lemma StalledGetsNothing(s: State, step: Step, t: TaskId)
    requires Inv(s) && Enabled(s, step) && Stalled(s, t)
    ensures t !in Apply(s, step).pool.outcomes
  {
    if t in Apply(s, step).pool.outcomes {
      ResultOrigin(s, step, t);
    }
  }

  lemma StepWrittenOff(s: State, step: Step, t: TaskId)
    requires Inv(s) && Enabled(s, step) && Stalled(s, t) && WrittenOff(s, t)
    ensures WrittenOff(Apply(s, step), t)
  {
    StalledGetsNothing(s, step, t);
    if TooLate(s, t) {
      StepTooLate(s, step, t);
    } else {
      AbandonedForGood(s, step, t);
    }
  }

  /** While the lock is held, nobody that waits for it hears anything; */
  lemma StaysDeaf(s: State, step: Step, c: Worker, w: Worker)
    requires Enabled(s, step) && SubsFit(s.links, s.subs) && Deaf(s, w)
    requires c in s.subs && s.subs[c].Pending? && s.subs[c].task !in s.pool.outcomes
    ensures Deaf(Apply(s, step), w) && (w in s.subs ==> w in Apply(s, step).subs)
    ensures c in Apply(s, step).subs && Apply(s, step).subs[c] == s.subs[c]
  {
  }

  /** and what is bound for them stays so. */
  lemma StepNeedsLock(s: State, step: Step, c: Worker, t: TaskId)
    requires Inv(s) && Enabled(s, step) && NeedsLock(s, t)
    requires c in s.subs && s.subs[c].Pending? && s.subs[c].task !in s.pool.outcomes
    ensures NeedsLock(Apply(s, step), t)
  {
    if t in s.delivered {
      StepDelivered(s, step);
      if Deaf(s, s.delivered[t]) {
        StaysDeaf(s, step, c, s.delivered[t]);
      }
    }
    if h :| h in s.getters && s.getters[h].task == t && Bound(s, s.getters[h]) {
      StaysDeaf(s, step, c, s.getters[h].worker);
      StaysBound(s, step, h);
    }
  }

  lemma StaysBound(s: State, step: Step, h: Handler)
    requires Enabled(s, step) && h in s.getters && Bound(s, s.getters[h]) && SubsFit(s.links, s.subs)
    requires AskersApart(s.askers, s.getters)
    requires Deaf(Apply(s, step), s.getters[h].worker)
    requires s.getters[h].worker in s.subs ==> s.getters[h].worker in Apply(s, step).subs
    ensures var s' := Apply(s, step);
            || DeliveredTo(s'.delivered, s.getters[h].task, s.getters[h].worker)
            || (h in s'.getters && s'.getters[h].task == s.getters[h].task && Bound(s', s'.getters[h]))
  {
  }

  lemma StepLockStuck(s: State, step: Step)
    requires Inv(s) && Enabled(s, step) && Unguessed(s, step) && LockStuck(s)
    ensures LockStuck(Apply(s, step))
  {
    var c :| c in s.subs && s.subs[c].Pending? && Stalled(s, s.subs[c].task);
    var p := s.subs[c].task;
    StaysDeaf(s, step, c, c);
    StalledGetsNothing(s, step, p);
    StepReportRead(s, step, p);
    if WrittenOff(s, p) {
      StepWrittenOff(s, step, p);
    } else {
      StepNeedsLock(s, step, c, p);
    }
  }

  /** Whatever else happens, only a report by somebody who was not handed the task could help. */
  lemma StepBeyondHelp(s: State, step: Step, t: TaskId)
    requires Inv(s) && Enabled(s, step) && Unguessed(s, step) && BeyondHelp(s, t)
    ensures BeyondHelp(Apply(s, step), t)
  {
    StalledGetsNothing(s, step, t);
    StepReportRead(s, step, t);
    if WrittenOff(s, t) {
      StepWrittenOff(s, step, t);
    } else {
      StepLockStuck(s, step);
      var c :| c in s.subs && s.subs[c].Pending? && Stalled(s, s.subs[c].task);
      StepNeedsLock(s, step, c, t);
    }
  }

  // ---------------------------------------------------------------- under the discipline

  /** Disciplined steps write nothing off. */
  lemma DisciplineWritesNothingOff(s: State, step: Step, t: TaskId)
    requires Sound(s) && Enabled(s, step) && Disciplined(s, step) && WrittenOff(Apply(s, step), t)
    ensures WrittenOff(s, t)
  {
    if Abandoned(Apply(s, step), t) {
      LossLaw(s, step, t);
      LostIsAbandoned(s, t);
      if Strands(s, step, t) {
        OnlyLateHandlersStrand(s, step, t);
      }
    } else {
      OnlyLateHandlersStay(s, step, t);
    }
  }

  lemma OnlyLateHandlersStrand(s: State, step: Step, t: TaskId)
    requires Sound(s) && Enabled(s, step) && Disciplined(s, step) && Strands(s, step, t)
    ensures TooLate(s, t)
  {
  }

  lemma OnlyLateHandlersStay(s: State, step: Step, t: TaskId)
    requires Enabled(s, step) && Disciplined(s, step) && TooLate(Apply(s, step), t)
    requires GettersKnown(s.links.Keys, s.getters)
    ensures TooLate(s, t)
  {
    var s' := Apply(s, step);
    var h :| h in s'.getters && s'.getters[h].task == t && s'.getters[h].pc == Checked
             && !Live(s'.links, s'.getters[h].worker);
    WasLate(s, step, h);
  }

  lemma WasLate(s: State, step: Step, h: Handler)
    requires Enabled(s, step) && Disciplined(s, step) && GettersKnown(s.links.Keys, s.getters)
    requires var s' := Apply(s, step);
             h in s'.getters && s'.getters[h].pc == Checked && !Live(s'.links, s'.getters[h].worker)
    ensures h in s.getters && s.getters[h] == Apply(s, step).getters[h] && !Live(s.links, s.getters[h].worker)
  {
    CheckedStep(s, step, h);
    LinkStep(s, step, s.getters[h].worker);
  }

  lemma LinkStep(s: State, step: Step, w: Worker)
    requires Enabled(s, step) && w in s.links
    ensures Live(Apply(s, step).links, w) <==> Live(s.links, w) && step != Disconnect(w)
  {
    match step
    case Connect(_) =>
    case Lose(_) =>
    case Leave(_) =>
    case Disconnect(v) => assert Apply(s, step).links == s.links[v := Closed];
    case _ => assert Apply(s, step).links == s.links;
  }

  lemma CheckedStep(s: State, step: Step, h: Handler)
    requires Enabled(s, step) && h in Apply(s, step).getters && Apply(s, step).getters[h].pc == Checked
    ensures h in s.getters && Apply(s, step).getters[h].worker == s.getters[h].worker
    ensures s.getters[h] == Apply(s, step).getters[h] || (step == Check(h) && s.links[s.getters[h].worker] == Open)
  {
  }

  lemma GoodWritesNothingOff(s: State, t: TaskId)
    requires Good(s)
    ensures !WrittenOff(s, t)
  {
  }

  /** In disciplined runs only the lock can put a task beyond help. */
  lemma BeyondHelpIff(s: State, t: TaskId)
    requires Good(s)
    ensures BeyondHelp(s, t) <==>
            t !in s.pool.outcomes && !ReportRead(s.reporters, t) && LockStuck(s) && NeedsLock(s, t)
  {
    GoodWritesNothingOff(s, t);
  }

  // ---------------------------------------------------------------- without subscriptions to stores

  predicate NoStores(subs: map<Worker, Sub>) {
    forall w | w in subs :: subs[w] == Waiting(false)
  }

  predicate NoStoreSubscribed(tr: seq<Step>) {
    forall i | 0 <= i < |tr| :: tr[i].Subscribe? ==> !tr[i].store
  }

  lemma StepNoStores(s: State, step: Step)
    requires Enabled(s, step) && NoStores(s.subs) && (step.Subscribe? ==> !step.store)
    ensures NoStores(Apply(s, step).subs)
  {
  }

  lemma {:induction false} NeverStuck(s: State, tr: seq<Step>)
    requires Legal(s, tr) && NoStores(s.subs) && NoStoreSubscribed(tr)
    ensures NoStores(After(s, tr).subs) && !LockStuck(After(s, tr))
    decreases |tr|
  {
    if tr != [] {
      StepNoStores(s, tr[0]);
      assert forall i | 0 <= i < |tr[1..]| :: tr[1..][i] == tr[i + 1];
      NeverStuck(Apply(s, tr[0]), tr[1..]);
    }
  }
}
