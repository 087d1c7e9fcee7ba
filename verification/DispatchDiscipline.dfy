/**
 Runs that lose nothing.  The code loses no task exactly in the runs without a stranding step; two
 rules, both about the environment, rule such steps out: a disconnect is handled only when it is
 drained, and workers report no id that is still to be issued.
 */
module DispatchDiscipline {
  import opened Dispatch
  import opened DispatchRuns
  import opened DispatchTheorems
  import opened DispatchPanics

  // ---------------------------------------------------------------- whole runs, exactly

  ghost predicate NeverLoses(s: State, tr: seq<Step>)
    requires Legal(s, tr)
    decreases |tr|
  {
    NoneLost(s) && (tr != [] ==> NeverLoses(Apply(s, tr[0]), tr[1..]))
  }

  ghost predicate NeverStrands(s: State, tr: seq<Step>)
    requires Legal(s, tr)
    decreases |tr|
  {
    tr != [] ==> (forall t: TaskId :: !Strands(s, tr[0], t)) && NeverStrands(Apply(s, tr[0]), tr[1..])
  }

  lemma {:induction false} LosesIffStrands(s: State, tr: seq<Step>)
    requires Inv(s) && NoneLost(s) && Legal(s, tr)
    ensures NeverLoses(s, tr) <==> NeverStrands(s, tr)
    decreases |tr|
  {
    if tr != [] {
      var s' := Apply(s, tr[0]);
      forall t: TaskId
        ensures IsLost(s', t) <==> Strands(s, tr[0], t)
      {
        LossLaw(s, tr[0], t);
      }
      StepInv(s, tr[0]);
      if NoneLost(s') {
        LosesIffStrands(s', tr[1..]);
      }
    }
  }

  /** From the empty server: every run keeps all tasks in their places iff no step of it strands one. */
  lemma RunLosesIffStrands(start: nat, tr: seq<Step>)
    requires Legal(Init(start), tr)
    ensures NeverLoses(Init(start), tr) <==> NeverStrands(Init(start), tr)
  {
    InitInv(start);
    LosesIffStrands(Init(start), tr);
  }

  /**
   One disconnect, exactly: handling it loses nothing iff no registration of `w` that still waits in
   the channel is of a task without a result.
   */
  lemma DisconnectLosesIff(s: State, w: Worker)
    requires Inv(s) && NoneLost(s) && Enabled(s, Disconnect(w))
    ensures NoneLost(Apply(s, Disconnect(w))) <==>
            forall i | 0 <= i < |s.chan| && s.chan[i].worker == w && !s.chan[i].done ::
              s.chan[i].task in s.pool.outcomes
  {
    var s' := Apply(s, Disconnect(w));
    forall t: TaskId
      ensures IsLost(s', t) <==> Strands(s, Disconnect(w), t)
    {
      LossLaw(s, Disconnect(w), t);
    }
    forall i | 0 <= i < |s.chan| && s.chan[i].worker == w && !s.chan[i].done
      ensures s.chan[i].task !in s.pool.outcomes ==> IsLost(s', s.chan[i].task)
    {
      var t := s.chan[i].task;
      assert s.chan[i] == Keeper(w, t, false);
      LostIsDelivered(s, t);
      assert !IsLost(s, t);
    }
  }

  // ---------------------------------------------------------------- reports of known ids

  /** No report is of an id that is still to be issued; ids of earlier server runs do no harm. */
  predicate KnownReport(s: State, step: Step) {
    step.Done? && step.h in s.reporters ==> s.reporters[step.h].task <= s.pool.sequence
  }

  predicate ReportersSettled(p: Pool, reporters: map<Handler, Reporter>) {
    forall h | h in reporters && reporters[h].pc.Delivered? ::
      reporters[h].task <= p.start || reporters[h].task in p.outcomes
  }

  predicate ChanSettled(p: Pool, chan: seq<Keeper>) {
    forall i | 0 <= i < |chan| && chan[i].done :: chan[i].task <= p.start || chan[i].task in p.outcomes
  }

  /** Who was given a task holds it until it has a result. */
  predicate Owed(p: Pool, delivered: map<TaskId, Worker>, held: Tasks) {
    forall t | t in delivered :: t in p.outcomes || t in TasksOf(held, delivered[t])
  }

  /** What known reports keep while nothing makes the watcher panic, lost tasks or not. */
  ghost predicate Sound(s: State) {
    && Inv(s) && !Doomed(s)
    && ReportersSettled(s.pool, s.reporters)
    && ChanSettled(s.pool, s.chan)
    && Owed(s.pool, s.delivered, s.held)
  }

  lemma StepReporters(s: State, step: Step)
    requires Outcomes(s.pool) && s.pool.start <= s.pool.sequence
    requires Enabled(s, step) && KnownReport(s, step) && ReportersSettled(s.pool, s.reporters)
    ensures ReportersSettled(Apply(s, step).pool, Apply(s, step).reporters)
  {
    StepKeepsOutcomes(s, step);
  }

  lemma StepDoneMessages(s: State, step: Step)
    requires Enabled(s, step) && ReportersSettled(s.pool, s.reporters) && ChanSettled(s.pool, s.chan)
    ensures ChanSettled(Apply(s, step).pool, Apply(s, step).chan)
  {
    StepKeepsOutcomes(s, step);
  }

  lemma StepOwed(s: State, step: Step)
    requires Enabled(s, step) && ReportersSettled(s.pool, s.reporters) && Owed(s.pool, s.delivered, s.held)
    requires TablesKnown(s.links.Keys, s.held, s.table) && forall t | t in s.delivered :: s.pool.Issued(t)
    ensures Owed(Apply(s, step).pool, Apply(s, step).delivered, Apply(s, step).held)
  {
    StepKeepsOutcomes(s, step);
  }

  lemma StepSound(s: State, step: Step)
    requires Sound(s) && Enabled(s, step) && KnownReport(s, step) && !Dooms(s, step)
    ensures Sound(Apply(s, step))
  {
    StepInv(s, step);
    PanicLaw(s, step);
    StepReporters(s, step);
    StepDoneMessages(s, step);
    StepOwed(s, step);
  }

  predicate SoundRun(s: State, tr: seq<Step>)
    requires Legal(s, tr)
    decreases |tr|
  {
    tr != [] ==> KnownReport(s, tr[0]) && !Dooms(s, tr[0]) && SoundRun(Apply(s, tr[0]), tr[1..])
  }

  lemma {:induction false} RunSound(s: State, tr: seq<Step>)
    requires Sound(s) && Legal(s, tr) && SoundRun(s, tr)
    ensures Sound(After(s, tr))
    decreases |tr|
  {
    if tr != [] {
      StepSound(s, tr[0]);
      RunSound(Apply(s, tr[0]), tr[1..]);
    }
  }

  // ---------------------------------------------------------------- the discipline

  /** No registration of `w` waits in the channel and no get handler of `w` is past its check. */
  predicate Drained(s: State, w: Worker) {
    && (forall i | 0 <= i < |s.chan| && s.chan[i].worker == w :: s.chan[i].done)
    && (forall h | h in s.getters && s.getters[h].worker == w :: s.getters[h].pc != Checked)
  }

  predicate Disciplined(s: State, step: Step) {
    KnownReport(s, step) && (step.Disconnect? ==> Drained(s, step.w))
  }

  predicate DisciplinedRun(s: State, tr: seq<Step>)
    requires Legal(s, tr)
    decreases |tr|
  {
    tr != [] ==> Disciplined(s, tr[0]) && DisciplinedRun(Apply(s, tr[0]), tr[1..])
  }

  predicate GettersLive(links: map<Worker, Link>, getters: map<Handler, Getter>) {
    forall h | h in getters && getters[h].pc == Checked :: Live(links, getters[h].worker)
  }

  /** Sound, nothing lost, and no get handler past its check outlives its connection. */
  ghost predicate Good(s: State) {
    Sound(s) && NoneLost(s) && GettersLive(s.links, s.getters)
  }

  lemma InitGood(start: nat)
    ensures Good(Init(start))
  {
    InitInv(start);
  }

  lemma DisciplineStrandsNothing(s: State, step: Step, t: TaskId)
    requires Good(s) && Enabled(s, step) && Disciplined(s, step)
    ensures !Strands(s, step, t)
  {
  }

  lemma DisciplineDoomsNothing(s: State, step: Step)
    requires Good(s) && Enabled(s, step) && Disciplined(s, step)
    ensures !Dooms(s, step)
  {
  }

  lemma StepGettersLive(s: State, step: Step)
    requires Enabled(s, step) && Disciplined(s, step) && GettersLive(s.links, s.getters)
    ensures GettersLive(Apply(s, step).links, Apply(s, step).getters)
  {
  }

  lemma StepGood(s: State, step: Step)
    requires Good(s) && Enabled(s, step) && Disciplined(s, step)
    ensures Good(Apply(s, step))
  {
    DisciplineDoomsNothing(s, step);
    StepSound(s, step);
    StepGettersLive(s, step);
    forall t: TaskId
      ensures !IsLost(Apply(s, step), t)
    {
      LossLaw(s, step, t);
      DisciplineStrandsNothing(s, step, t);
    }
  }

  lemma {:induction false} RunGood(s: State, tr: seq<Step>)
    requires Good(s) && Legal(s, tr) && DisciplinedRun(s, tr)
    ensures Good(After(s, tr))
    decreases |tr|
  {
    if tr != [] {
      StepGood(s, tr[0]);
      RunGood(Apply(s, tr[0]), tr[1..]);
    }
  }

  /**
   No lost task: in every state of a disciplined run the watcher has not panicked and is not bound to,
   and each issued task without a result is in exactly one place: the queue, one get handler, or held
   by one worker whose disconnect is not handled to the end.
   */
  lemma NoLostTask(start: nat, tr: seq<Step>, t: TaskId)
    requires Legal(Init(start), tr) && DisciplinedRun(Init(start), tr)
    ensures var s := After(Init(start), tr);
            && !s.crashed && !PanicsOnItsOwn(s)
            && (s.pool.Issued(t) && t !in s.pool.outcomes ==>
                  || (t in s.pool.queue && !InGetter(s.getters, t) && !HeldLive(s, t))
                  || (t !in s.pool.queue && InGetter(s.getters, t) && !HeldLive(s, t))
                  || (t !in s.pool.queue && !InGetter(s.getters, t) && HeldLive(s, t)))
  {
    InitGood(start);
    RunGood(Init(start), tr);
    var s := After(Init(start), tr);
    DoomedIff(s);
    assert !IsLost(s, t);
    if s.pool.Issued(t) {
      OnePlace(start, tr, t);
    }
  }

  // ---------------------------------------------------------------- a drained disconnect

  /** With nothing of `w` buffered, the watcher knows every task `w` still owes. */
  lemma OwedIsInTable(s: State, w: Worker, t: TaskId)
    requires Sound(s) && Enabled(s, Disconnect(w)) && Drained(s, w)
    requires DeliveredTo(s.delivered, t, w) && t !in s.pool.outcomes
    ensures t in TasksOf(s.table, w)
  {
    DisconnectSplit(s, w, t);
  }

  /** The loop lets go of a task only with a result. */
  lemma {:induction false} LoopEnds(s: State, tr: seq<Step>, t: TaskId)
    requires Inv(s) && Legal(s, tr) && (t in s.closing || t in s.pool.outcomes)
    ensures t in After(s, tr).closing || t in After(s, tr).pool.outcomes
    decreases |tr|
  {
    if tr != [] {
      StepInv(s, tr[0]);
      LoopStep(s, tr[0], t);
      LoopEnds(Apply(s, tr[0]), tr[1..], t);
    }
  }

  lemma LoopStep(s: State, step: Step, t: TaskId)
    requires Enabled(s, step) && (t in s.closing || t in s.pool.outcomes)
    requires t in s.closing ==> s.pool.Issued(t)
    ensures t in Apply(s, step).closing || t in Apply(s, step).pool.outcomes
  {
    if step.Disconnect? {
      assert s.closing == {};
    }
    StepKeepsOutcomes(s, step);
  }

  /**
   A drained disconnect is complete and safe, whatever runs between two rounds of its loop.  Every task
   given to `w` has a result when the loop has let go of it: the worker's own, if it was reported before
   or reaches the task first, else the fixed error.  Results already delivered stay, and the disconnect
   touches nothing of another worker.
   */
  lemma DisconnectCompleteAndSafe(s: State, w: Worker, tr: seq<Step>, t: TaskId)
    requires Sound(s) && Enabled(s, Disconnect(w)) && Drained(s, w) && Legal(Apply(s, Disconnect(w)), tr)
    ensures var s' := After(Apply(s, Disconnect(w)), tr);
            && (DeliveredTo(s.delivered, t, w) ==> t in s'.closing || t in s'.pool.outcomes)
            && (t !in s.pool.outcomes && t in s'.pool.outcomes
                && !ReportRead(s.reporters, t) && !Reported(tr, t) ==>
                  s'.pool.outcomes[t] == WORKER_LOST)
            && (t in s.pool.outcomes ==> t in s'.pool.outcomes && s'.pool.outcomes[t] == s.pool.outcomes[t])
    ensures Apply(s, Disconnect(w)).pool == s.pool
    ensures t in Apply(s, Disconnect(w)).closing ==> DeliveredTo(s.delivered, t, w)
  {
    var s1 := Apply(s, Disconnect(w));
    DisconnectTakes(s, w, t);
    StepInv(s, Disconnect(w));
    OutcomesAreFinal(s1, tr);
    if DeliveredTo(s.delivered, t, w) {
      if t !in s.pool.outcomes {
        OwedIsInTable(s, w, t);
      }
      LoopEnds(s1, tr, t);
    }
    if t !in s.pool.outcomes && t in After(s1, tr).pool.outcomes && !ReportRead(s.reporters, t) && !Reported(tr, t) {
      RunResultOrigin(s1, tr, t);
    }
  }

  /** What the disconnect does before its loop: nothing of another worker is touched. */
  lemma DisconnectTakes(s: State, w: Worker, t: TaskId)
    requires Enabled(s, Disconnect(w)) && Deliveries(s.delivered, s.held, s.table, s.chan)
    ensures var s1 := Apply(s, Disconnect(w));
            && (t in s1.closing <==> t in TasksOf(s.table, w))
            && (t in s1.closing ==> DeliveredTo(s.delivered, t, w))
            && s1.pool == s.pool && s1.getters == s.getters && s1.reporters == s.reporters
            && (forall v | v != w :: TasksOf(s1.table, v) == TasksOf(s.table, v))
  {
  }

  // ---------------------------------------------------------------- beyond help

  /** A lost task whose receiver's disconnect has been handled. */
  ghost predicate Abandoned(s: State, t: TaskId) {
    IsLost(s, t) && t in s.delivered && s.delivered[t] in s.links && s.links[s.delivered[t]] == Closed
  }

  /** It stays lost: only a report of its id could ever end the wait. */
  lemma AbandonedForGood(s: State, step: Step, t: TaskId)
    requires Inv(s) && Enabled(s, step) && Abandoned(s, t)
    ensures Abandoned(Apply(s, step), t) <==> !(step.Done? && s.reporters[step.h].task == t)
  {
    LossLaw(s, step, t);
    StepDelivered(s, step);
  }

  /** With known reports, a task is lost iff its receiver's disconnect was handled without it. */
  lemma LostIsAbandoned(s: State, t: TaskId)
    requires Sound(s)
    ensures IsLost(s, t) <==> Abandoned(s, t)
  {
    if IsLost(s, t) {
      LostIsDelivered(s, t);
    }
  }
}
