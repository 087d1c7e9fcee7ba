/**
 Tasks pushed with a timeout.  A caller that gives up leaves nobody to receive the result: whoever calls
 `taskq.Done` for the task first is blocked for good.  That can be a report handler, which does no harm,
 or the watcher in its disconnect loop.
 */
module DispatchTimeouts {
  import D = Dispatch
  import DR = DispatchRuns
  import DT = DispatchTheorems

  const TIMEOUT := D.Error("timeout")

  /**
   `rotten` are the tasks given up; the queue keeps them here, where the code throws them away, but never
   hands them out.  `stale` are those of them whose result channel nobody has used since.
   */
  datatype State = State(d: D.State, rotten: set<D.TaskId>, stale: set<D.TaskId>, hung: bool)

  datatype Step = Serve(step: D.Step) | GiveUp(task: D.TaskId)

  function Init(start: nat): State {
    State(D.Init(start), {}, {}, false)
  }

  predicate ByWatcher(step: D.Step) {
    step.WatchTask? || step.Connect? || step.Disconnect? || step.Fail?
  }

  predicate Enabled(x: State, step: Step) {
    match step
    case Serve(d) =>
      && D.Enabled(x.d, d)
      && (x.hung ==> !ByWatcher(d))
      && (d.Shift? ==> x.d.pool.queue[d.i] !in x.rotten)
    case GiveUp(t) => !x.d.crashed && x.d.pool.Issued(t) && t !in x.d.pool.outcomes
  }

  /** The step calls `taskq.Done` for a task that nobody waits for any more. */
  predicate Blocks(x: State, d: D.Step)
    requires D.Enabled(x.d, d)
  {
    (d.Done? && x.d.reporters[d.h].task in x.stale) || (d.Fail? && d.task in x.stale)
  }

  function Apply(x: State, step: Step): State
    requires Enabled(x, step)
  {
    match step
    case Serve(d) =>
      if !Blocks(x, d) then x.(d := D.Apply(x.d, d))
      else if d.Done? then
        // the handler never sends its done message
        x.(d := x.d.(reporters := x.d.reporters - {d.h}), stale := x.stale - {x.d.reporters[d.h].task})
      else x.(stale := x.stale - {d.task}, hung := true)
    case GiveUp(t) =>
      State(x.d.(pool := x.d.pool.(outcomes := x.d.pool.outcomes[t := TIMEOUT])),
            x.rotten + {t}, x.stale + {t}, x.hung)
  }

  predicate Legal(x: State, tr: seq<Step>)
    decreases |tr|
  {
    tr == [] || (Enabled(x, tr[0]) && Legal(Apply(x, tr[0]), tr[1..]))
  }

  function After(x: State, tr: seq<Step>): State
    requires Legal(x, tr)
    decreases |tr|
  {
    if tr == [] then x else After(Apply(x, tr[0]), tr[1..])
  }

  // ---------------------------------------------------------------- timeouts break no invariant

  ghost predicate Inv(x: State) {
    D.Inv(x.d) && x.stale <= x.rotten && forall t | t in x.rotten :: t in x.d.pool.outcomes
  }

  lemma HandlerGone(d: D.State, h: D.Handler)
    requires D.Inv(d)
    ensures D.Inv(d.(reporters := d.reporters - {h}))
  {
  }

  lemma ResultSet(d: D.State, t: D.TaskId, o: D.Outcome)
    requires D.Inv(d) && d.pool.Issued(t)
    ensures D.Inv(d.(pool := d.pool.(outcomes := d.pool.outcomes[t := o])))
  {
  }

  lemma StepInv(x: State, step: Step)
    requires Inv(x) && Enabled(x, step)
    ensures Inv(Apply(x, step))
  {
    match step
    case GiveUp(t) => ResultSet(x.d, t, TIMEOUT);
    case Serve(d) =>
      if !Blocks(x, d) {
        DR.StepInv(x.d, d);
        DT.StepKeepsOutcomes(x.d, d);
      } else if d.Done? {
        HandlerGone(x.d, d.h);
      }
  }

  /** Every run with timeouts keeps the invariant of the protocol. */
  lemma {:induction false} RunInv(x: State, tr: seq<Step>)
    requires Inv(x) && Legal(x, tr)
    ensures Inv(After(x, tr))
    decreases |tr|
  {
    if tr != [] {
      StepInv(x, tr[0]);
      RunInv(Apply(x, tr[0]), tr[1..]);
    }
  }

  // ---------------------------------------------------------------- the blocked watcher, exactly

  /** The watcher is blocked, or will be when its loop comes to a task given up. */
  predicate Hanging(x: State) {
    x.hung || x.d.closing * x.stale != {}
  }

  /** The two ways a step makes it so: */
  predicate Binds(x: State, step: Step)
    requires Enabled(x, step)
  {
    match step
    case Serve(d) => d.Disconnect? && D.TasksOf(x.d.table, d.w) * x.stale != {}
    case GiveUp(t) => t in x.d.closing
  }

  /** and the one way out: a report handler is blocked instead. */
  predicate Rescues(x: State, step: Step)
    requires Enabled(x, step)
  {
    && !x.hung && step.Serve? && step.step.Done?
    && x.d.closing * x.stale == {x.d.reporters[step.step.h].task}
  }

  /** The exact law, for every step of every run. */
  lemma HangLaw(x: State, step: Step)
    requires Inv(x) && Enabled(x, step)
    ensures Hanging(Apply(x, step)) <==> (Hanging(x) && !Rescues(x, step)) || Binds(x, step)
  {
    match step
    case GiveUp(t) =>
      assert x.d.closing * (x.stale + {t}) == x.d.closing * x.stale + if t in x.d.closing then {t} else {};
    case Serve(d) =>
      if d.Done? {
        DoneHangs(x, d.h);
      } else if d.Fail? {
        FailHangs(x, d.task);
      } else {
        ServeHangs(x, d);
      }
  }

  lemma DoneHangs(x: State, h: D.Handler)
    requires Inv(x) && Enabled(x, Serve(D.Step.Done(h)))
    ensures var step := Serve(D.Step.Done(h)); Hanging(Apply(x, step)) <==> Hanging(x) && !Rescues(x, step)
  {
    var t := x.d.reporters[h].task;
    var x' := Apply(x, Serve(D.Step.Done(h)));
    assert x'.d.closing == x.d.closing && x'.stale == x.stale - {t};
    assert x.d.closing * (x.stale - {t}) == x.d.closing * x.stale - {t};
  }

  lemma FailHangs(x: State, t: D.TaskId)
    requires Inv(x) && Enabled(x, Serve(D.Step.Fail(t)))
    ensures Hanging(Apply(x, Serve(D.Step.Fail(t)))) <==> Hanging(x)
  {
    if t in x.stale {
      assert t in x.d.closing * x.stale;
    } else {
      assert (x.d.closing - {t}) * x.stale == x.d.closing * x.stale;
    }
  }

  lemma ServeHangs(x: State, d: D.Step)
    requires Enabled(x, Serve(d)) && !d.Done? && !d.Fail?
    ensures Hanging(Apply(x, Serve(d))) <==> Hanging(x) || Binds(x, Serve(d))
  {
    if !d.Disconnect? {
      assert Apply(x, Serve(d)).d.closing == x.d.closing;
    }
  }

  predicate InLoop(tr: seq<Step>) {
    forall i | 0 <= i < |tr| :: tr[i].Serve? && tr[i].step.Fail?
  }

  /** Left alone in its loop, the watcher gets blocked. */
  ghost predicate HangsOnItsOwn(x: State) {
    exists tr :: InLoop(tr) && Legal(x, tr) && After(x, tr).hung
  }

  lemma {:induction false} LoopHangs(x: State, tr: seq<Step>)
    requires Inv(x) && Legal(x, tr) && After(x, tr).hung
    requires InLoop(tr)
    ensures Hanging(x)
    decreases |tr|
  {
    if tr != [] {
      assert tr[0].Serve? && tr[0].step.Fail?;
      StepInv(x, tr[0]);
      assert forall i | 0 <= i < |tr[1..]| :: tr[1..][i] == tr[i + 1];
      LoopHangs(Apply(x, tr[0]), tr[1..]);
      FailHangs(x, tr[0].step.task);
    }
  }

  lemma HangingIff(x: State)
    requires Inv(x) && !x.d.crashed
    ensures Hanging(x) <==> HangsOnItsOwn(x)
  {
    if x.hung {
      assert InLoop([]) && Legal(x, []) && After(x, []).hung;
    } else if Hanging(x) {
      var t :| t in x.d.closing * x.stale;
      var tr := [Serve(D.Step.Fail(t))];
      assert InLoop(tr) && Legal(x, tr) && After(x, tr) == Apply(x, tr[0]);
    }
    if HangsOnItsOwn(x) {
      var tr :| InLoop(tr) && Legal(x, tr) && After(x, tr).hung;
      LoopHangs(x, tr);
    }
  }

  /** Then no connection is opened any more, no message and no disconnect is handled, and no task fails. */
  lemma {:induction false} HungForGood(x: State, tr: seq<Step>)
    requires Legal(x, tr) && x.hung
    ensures var x' := After(x, tr);
            && x'.hung && x'.d.table == x.d.table && x'.d.closing == x.d.closing && x'.d.links.Keys == x.d.links.Keys
            && (forall w | w in x.d.links :: x'.d.links[w] == D.Closed <==> x.d.links[w] == D.Closed)
    decreases |tr|
  {
    if tr != [] {
      StepHung(x, tr[0]);
      HungForGood(Apply(x, tr[0]), tr[1..]);
    }
  }

  lemma StepHung(x: State, step: Step)
    requires Enabled(x, step) && x.hung
    ensures var x' := Apply(x, step);
            && x'.hung && x'.d.table == x.d.table && x'.d.closing == x.d.closing && x'.d.links.Keys == x.d.links.Keys
            && (forall w | w in x.d.links :: x'.d.links[w] == D.Closed <==> x.d.links[w] == D.Closed)
  {
    match step
    case GiveUp(_) =>
    case Serve(d) =>
      if !d.Lose? && !d.Leave? {
        assert Apply(x, step).d.links == x.d.links;
      }
  }

  // ---------------------------------------------------------------- from the empty server

  predicate NeverBinds(x: State, tr: seq<Step>)
    requires Legal(x, tr)
    decreases |tr|
  {
    tr != [] ==> !Binds(x, tr[0]) && NeverBinds(Apply(x, tr[0]), tr[1..])
  }

  lemma {:induction false} RunHangs(x: State, tr: seq<Step>)
    requires Inv(x) && Legal(x, tr) && !Hanging(x) && NeverBinds(x, tr)
    ensures !Hanging(After(x, tr))
    decreases |tr|
  {
    if tr != [] {
      HangLaw(x, tr[0]);
      StepInv(x, tr[0]);
      RunHangs(Apply(x, tr[0]), tr[1..]);
    }
  }

  /**
   Every run from the empty server keeps the invariants of the protocol, and unless one of its steps
   starts the loop over a task given up, or gives one up in the loop, the watcher is not blocked.
   */
  lemma FromTheStart(start: nat, tr: seq<Step>)
    requires Legal(Init(start), tr)
    ensures D.Inv(After(Init(start), tr).d)
    ensures NeverBinds(Init(start), tr) ==> !Hanging(After(Init(start), tr))
  {
    DT.InitInv(start);
    RunInv(Init(start), tr);
    if NeverBinds(Init(start), tr) {
      RunHangs(Init(start), tr);
    }
  }

  /** Until the program ends, every caller that waits can give up, and gets this error. */
  lemma AnyCallCanTimeOut(x: State, t: D.TaskId)
    requires !x.d.crashed && x.d.pool.Issued(t) && t !in x.d.pool.outcomes
    ensures Enabled(x, GiveUp(t))
    ensures var x' := Apply(x, GiveUp(t));
            t in x'.d.pool.outcomes && x'.d.pool.outcomes[t] == D.Error("timeout") && t in x'.rotten && t in x'.stale
  {
  }

  /** A task given up in the queue is never handed out. */
  lemma {:induction false} NeverHandedOut(x: State, tr: seq<Step>, t: D.TaskId)
    requires Inv(x) && Legal(x, tr) && t in x.rotten && t in x.d.pool.queue
    ensures t in After(x, tr).d.pool.queue && t !in After(x, tr).d.delivered
    decreases |tr|
  {
    if tr != [] {
      StepInv(x, tr[0]);
      StaysQueued(x, tr[0], t);
      NeverHandedOut(Apply(x, tr[0]), tr[1..], t);
    }
  }

  lemma StaysQueued(x: State, step: Step, t: D.TaskId)
    requires Enabled(x, step) && t in x.rotten && t in x.d.pool.queue
    ensures t in Apply(x, step).rotten && t in Apply(x, step).d.pool.queue
  {
    if step.Serve? && !Blocks(x, step.step) {
      DR.StaysInQueue(x.d, step.step, t);
    }
  }

  /** The task whose result `taskq.Done` cannot get rid of in this step. */
  predicate BlocksOn(x: State, step: Step, t: D.TaskId)
    requires Enabled(x, step)
  {
    && step.Serve? && t in x.stale
    && ((step.step.Done? && x.d.reporters[step.step.h].task == t) || step.step == D.Step.Fail(t))
  }

  predicate NeverBlocksOn(x: State, tr: seq<Step>, t: D.TaskId)
    requires Legal(x, tr)
    decreases |tr|
  {
    tr != [] ==> !BlocksOn(x, tr[0], t) && NeverBlocksOn(Apply(x, tr[0]), tr[1..], t)
  }

  lemma {:induction false} UsedUp(x: State, tr: seq<Step>, t: D.TaskId)
    requires Inv(x) && Legal(x, tr) && t in x.rotten && t !in x.stale
    ensures NeverBlocksOn(x, tr, t)
    decreases |tr|
  {
    if tr != [] {
      StepInv(x, tr[0]);
      UsedUp(Apply(x, tr[0]), tr[1..], t);
    }
  }

  /** Only the first `Done` of a task given up is blocked, in every run. */
  lemma BlocksOnce(x: State, step: Step, tr: seq<Step>, t: D.TaskId)
    requires Inv(x) && Enabled(x, step) && BlocksOn(x, step, t) && Legal(Apply(x, step), tr)
    ensures NeverBlocksOn(Apply(x, step), tr, t)
  {
    StepInv(x, step);
    UsedUp(Apply(x, step), tr, t);
  }
}
