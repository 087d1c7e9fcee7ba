/** The main results about the worker protocol: one place, one receiver, one result, and what can be lost. */
module DispatchTheorems {
  import opened Dispatch
  import opened DispatchRuns

  lemma InitInv(start: nat)
    ensures Inv(Init(start)) && NoneLost(Init(start))
  {
  }

  // ---------------------------------------------------------------- one place, one receiver

  /** In every reachable state an issued task is in exactly one place, and there exactly once. */
  lemma OnePlace(start: nat, tr: seq<Step>, t: TaskId)
    requires Legal(Init(start), tr) && After(Init(start), tr).pool.Issued(t)
    ensures var s := After(Init(start), tr);
            && ((t in s.pool.queue && !InGetter(s.getters, t) && t !in s.delivered)
                || (t !in s.pool.queue && InGetter(s.getters, t) && t !in s.delivered)
                || (t !in s.pool.queue && !InGetter(s.getters, t) && t in s.delivered))
            && (forall i, j | 0 <= i < |s.pool.queue| && 0 <= j < |s.pool.queue|
                              && s.pool.queue[i] == s.pool.queue[j] == t :: i == j)
            && (forall h, h' | h in s.getters && h' in s.getters
                               && s.getters[h].task == s.getters[h'].task == t :: h == h')
            && (forall w | w in s.held && t in s.held[w] :: DeliveredTo(s.delivered, t, w))
            && (forall w | w in s.table && t in s.table[w] :: DeliveredTo(s.delivered, t, w))
  {
    InitInv(start);
    RunInv(Init(start), tr);
  }

  /** The tasks handed to workers during a run, in order. */
  function HandedOut(s: State, tr: seq<Step>): seq<TaskId>
    requires Legal(s, tr)
    decreases |tr|
  {
    if tr == [] then []
    else (if tr[0].Register? then [s.getters[tr[0].h].task] else []) + HandedOut(Apply(s, tr[0]), tr[1..])
  }

  lemma StepDelivered(s: State, step: Step)
    requires Inv(s) && Enabled(s, step)
    ensures forall t | t in s.delivered :: DeliveredTo(Apply(s, step).delivered, t, s.delivered[t])
    ensures step.Register? ==>
              s.getters[step.h].task !in s.delivered
              && DeliveredTo(Apply(s, step).delivered, s.getters[step.h].task, s.getters[step.h].worker)
  {
  }

  /** Who got a task never changes, and a task once handed out is never in the queue again. */
  lemma {:induction false} DeliveredForever(s: State, tr: seq<Step>)
    requires Inv(s) && Legal(s, tr)
    ensures forall t | t in s.delivered ::
              DeliveredTo(After(s, tr).delivered, t, s.delivered[t]) && t !in After(s, tr).pool.queue
    decreases |tr|
  {
    if tr != [] {
      StepInv(s, tr[0]);
      StepDelivered(s, tr[0]);
      DeliveredForever(Apply(s, tr[0]), tr[1..]);
    }
  }

  /** Over a whole run no task is handed out twice, not even to the same worker. */
  lemma {:induction false} DeliveredAtMostOnce(s: State, tr: seq<Step>)
    requires Inv(s) && Legal(s, tr)
    ensures NoDup(HandedOut(s, tr))
    ensures forall t | t in HandedOut(s, tr) :: t !in s.delivered && t in After(s, tr).delivered
    decreases |tr|
  {
    if tr != [] {
      var s' := Apply(s, tr[0]);
      StepInv(s, tr[0]);
      StepDelivered(s, tr[0]);
      DeliveredAtMostOnce(s', tr[1..]);
      DeliveredForever(s', tr[1..]);
      var first := if tr[0].Register? then [s.getters[tr[0].h].task] else [];
      OneMoreHandOut(s.delivered, s'.delivered, After(s, tr).delivered, first, HandedOut(s', tr[1..]));
      assert HandedOut(s, tr) == first + HandedOut(s', tr[1..]);
    }
  }

  lemma OneMoreHandOut(d: map<TaskId, Worker>, d': map<TaskId, Worker>, end: map<TaskId, Worker>,
                       first: seq<TaskId>, rest: seq<TaskId>)
    requires NoDup(rest) && d.Keys <= d'.Keys <= end.Keys && |first| <= 1
    requires forall t | t in rest :: t !in d' && t in end
    requires forall t | t in first :: t !in d && t in d'
    ensures NoDup(first + rest) && forall t | t in first + rest :: t !in d && t in end
  {
    if first == [] {
      assert first + rest == rest;
    } else {
      assert first[0] in d' && first[0] !in rest;
      assert forall t | t in rest :: t !in d;
      assert forall t | t in d' :: t in end;
    }
  }

  /** A result, once delivered, never changes, whoever reports the id again and whenever. */
  lemma {:induction false} OutcomesAreFinal(s: State, tr: seq<Step>)
    requires Legal(s, tr)
    ensures forall t | t in s.pool.outcomes ::
              t in After(s, tr).pool.outcomes && After(s, tr).pool.outcomes[t] == s.pool.outcomes[t]
    decreases |tr|
  {
    if tr != [] {
      StepKeepsOutcomes(s, tr[0]);
      OutcomesAreFinal(Apply(s, tr[0]), tr[1..]);
    }
  }

  lemma StepKeepsOutcomes(s: State, step: Step)
    requires Enabled(s, step)
    ensures forall t | t in s.pool.outcomes ::
              t in Apply(s, step).pool.outcomes && Apply(s, step).pool.outcomes[t] == s.pool.outcomes[t]
  {
  }

  /** Where results come from: a report of the id, or the lost connection of the worker that has the task. */
  lemma ResultOrigin(s: State, step: Step, t: TaskId)
    requires Inv(s) && Enabled(s, step)
    requires t !in s.pool.outcomes && t in Apply(s, step).pool.outcomes
    ensures || (step.Done? && s.reporters[step.h].task == t
                && Apply(s, step).pool.outcomes[t] == s.reporters[step.h].pc.outcome)
            || (step.Fail? && step.task == t && t in s.delivered && Apply(s, step).pool.outcomes[t] == WORKER_LOST
                && s.delivered[t] in s.links && s.links[s.delivered[t]] == Closed)
  {
  }

  /** A report of the id has been read, and its handler has not called `taskq.Done` yet. */
  predicate ReportRead(reporters: map<Handler, Reporter>, t: TaskId) {
    exists h :: h in reporters && reporters[h].task == t && reporters[h].pc.Called?
  }

  predicate Reports(step: Step, t: TaskId) {
    step.Receive? && step.task == t
  }

  predicate Reported(tr: seq<Step>, t: TaskId) {
    exists i | 0 <= i < |tr| :: Reports(tr[i], t)
  }

  lemma StepReportRead(s: State, step: Step, t: TaskId)
    requires Enabled(s, step) && !ReportRead(s.reporters, t) && !Reports(step, t)
    ensures !ReportRead(Apply(s, step).reporters, t)
    ensures !(step.Done? && s.reporters[step.h].task == t)
  {
  }

  /** Over a whole run: what nobody reports gets no result but the error of its lost worker. */
  lemma {:induction false} RunResultOrigin(s: State, tr: seq<Step>, t: TaskId)
    requires Inv(s) && Legal(s, tr) && !ReportRead(s.reporters, t) && !Reported(tr, t)
    requires t !in s.pool.outcomes && t in After(s, tr).pool.outcomes
    ensures After(s, tr).pool.outcomes[t] == WORKER_LOST
    decreases |tr|
  {
    assert !Reports(tr[0], t);
    var s' := Apply(s, tr[0]);
    StepReportRead(s, tr[0], t);
    StepInv(s, tr[0]);
    if t in s'.pool.outcomes {
      ResultOrigin(s, tr[0], t);
      OutcomesAreFinal(s', tr[1..]);
    } else {
      assert forall i | 0 <= i < |tr[1..]| :: tr[1..][i] == tr[i + 1];
      RunResultOrigin(s', tr[1..], t);
    }
  }

  // ---------------------------------------------------------------- the table and the panic

  /**
   The watcher's table lags behind by exactly the buffered messages, and by nothing once those of
   `w` are handled; as long as the disconnect of `w` is not handled its entry exists, so the write
   for any message of `w` goes through.
   */
  lemma TableRefinesHoldings(start: nat, tr: seq<Step>, w: Worker)
    requires Legal(Init(start), tr)
    requires Live(After(Init(start), tr).links, w)
    ensures var s := After(Init(start), tr);
            && w in s.table && w in s.held && Replay(s.table[w], s.chan, w) == s.held[w]
            && ((forall i | 0 <= i < |s.chan| :: s.chan[i].worker != w) ==> s.table[w] == s.held[w])
            && (forall k: Keeper | k.worker == w :: !Panics(s.table, k))
  {
    InitInv(start);
    RunInv(Init(start), tr);
    var s := After(Init(start), tr);
    if forall i | 0 <= i < |s.chan| :: s.chan[i].worker != w {
      ReplaySkip(s.table[w], s.chan, w);
    }
  }

  // ---------------------------------------------------------------- losing a task

  predicate Buffered(chan: seq<Keeper>, w: Worker, t: TaskId) {
    exists i | 0 <= i < |chan| :: chan[i] == Keeper(w, t, false)
  }

  /** The three ways one step of the code can lose task `t`. */
  predicate Strands(s: State, step: Step, t: TaskId)
    requires Enabled(s, step)
  {
    t !in s.pool.outcomes &&
    match step
    case Disconnect(w) =>
      // the select takes the disconnect before the registration of a task that w still holds
      t in TasksOf(s.held, w) && Buffered(s.chan, w, t)
    case Register(h) =>
      // the handler passed its connected check, and the disconnect was handled before its send
      var g := s.getters[h];
      g.task == t && !Live(s.links, g.worker)
    case Report(h) =>
      // the id was reported before it was issued, so `taskq.Done` dropped the result
      var r := s.reporters[h];
      r.task == t && t in TasksOf(s.held, r.worker) && Live(s.links, r.worker)
    case _ => false
  }

  lemma {:induction false} ReplayOrigin(base: set<TaskId>, chan: seq<Keeper>, w: Worker, t: TaskId)
    requires t in Replay(base, chan, w)
    ensures t in base || Buffered(chan, w, t)
    decreases |chan|
  {
    if chan != [] {
      ReplayOrigin(Note(base, chan[0], w), chan[1..], w, t);
      if Buffered(chan[1..], w, t) {
        var i :| 0 <= i < |chan[1..]| && chan[1..][i] == Keeper(w, t, false);
        assert chan[i + 1] == Keeper(w, t, false);
      } else if t !in base {
        assert chan[0] == Keeper(w, t, false);
      }
    }
  }

  /** What a disconnect fails: of the tasks `w` holds, those whose registration it has handled. */
  lemma DisconnectSplit(s: State, w: Worker, t: TaskId)
    requires Inv(s) && Enabled(s, Disconnect(w)) && t in TasksOf(s.held, w)
    ensures (t in TasksOf(s.table, w)) != Buffered(s.chan, w, t)
  {
    if t !in s.table[w] {
      ReplayOrigin(s.table[w], s.chan, w, t);
    }
  }

  /** A lost task has been delivered: nothing is lost on its way through the queue. */
  lemma LostIsDelivered(s: State, t: TaskId)
    requires Places(s.pool.start, s.pool.sequence, s.pool.queue, s.getters, s.delivered)
    ensures IsLost(s, t) <==> t in s.delivered && t !in s.pool.outcomes && !HeldLive(s, t)
  {
  }

  /**
   The exact loss law, for every step of every run of the code as written.  A lost task is found again
   by a report of its id, or by the disconnect of a worker whose report is not handled yet.
   */
  lemma LossLaw(s: State, step: Step, t: TaskId)
    requires Inv(s) && Enabled(s, step)
    ensures var s' := Apply(s, step);
            IsLost(s', t) <==>
            (IsLost(s, t) && t !in s'.pool.outcomes && t !in s'.closing) || Strands(s, step, t)
  {
    StepPlaces(s, step);
    if step.Disconnect? && t in TasksOf(s.held, step.w) {
      DisconnectSplit(s, step.w, t);
    }
    LossOfDelivered(s, step, t);
    LossTranslates(s, step, t);
  }

  lemma LossTranslates(s: State, step: Step, t: TaskId)
    requires Enabled(s, step) && LossFits(s, step, t)
    requires Places(s.pool.start, s.pool.sequence, s.pool.queue, s.getters, s.delivered)
    requires var s' := Apply(s, step);
             Places(s'.pool.start, s'.pool.sequence, s'.pool.queue, s'.getters, s'.delivered)
    ensures var s' := Apply(s, step);
            IsLost(s', t) <==>
            (IsLost(s, t) && t !in s'.pool.outcomes && t !in s'.closing) || Strands(s, step, t)
  {
    StepKeepsOutcomes(s, step);
    LostIsDelivered(s, t);
    LostIsDelivered(Apply(s, step), t);
  }

  /** The loss law in terms of the receivers. */
  ghost predicate LossFits(s: State, step: Step, t: TaskId)
    requires Enabled(s, step)
  {
    var s' := Apply(s, step);
    (t in s'.delivered && t !in s'.pool.outcomes && !HeldLive(s', t)) <==>
    (t in s.delivered && !HeldLive(s, t) && t !in s'.pool.outcomes && t !in s'.closing) || Strands(s, step, t)
  }

  lemma LossOfDelivered(s: State, step: Step, t: TaskId)
    requires Enabled(s, step) && TablesKnown(s.links.Keys, s.held, s.table)
    requires Deliveries(s.delivered, s.held, s.table, s.chan)
    requires t in s.delivered ==> s.pool.Issued(t)
    requires step.Register? ==> s.getters[step.h].task !in s.delivered && s.getters[step.h].worker in s.links
    requires step.Disconnect? && t in TasksOf(s.held, step.w) ==>
               (t in TasksOf(s.table, step.w)) != Buffered(s.chan, step.w, t)
    requires Outcomes(s.pool) && ClosingOwed(s.delivered, s.links, s.closing)
    ensures LossFits(s, step, t)
  {
    match step
    case Register(h) => RegisterFits(s, h, t);
    case Report(h) => ReportFits(s, h, t);
    case Done(h) => DoneFits(s, h, t);
    case Disconnect(w) => DisconnectFits(s, w, t);
    case Fail(x) => FailFits(s, x, t);
    case _ => OthersFit(s, step, t);
  }

  lemma RegisterFits(s: State, h: Handler, t: TaskId)
    requires Enabled(s, Register(h)) && Outcomes(s.pool) && ClosingOwed(s.delivered, s.links, s.closing)
    requires s.getters[h].task !in s.delivered && s.getters[h].worker in s.links
    ensures LossFits(s, Register(h), t)
  {
  }

  lemma ReportFits(s: State, h: Handler, t: TaskId)
    requires Enabled(s, Report(h)) && Deliveries(s.delivered, s.held, s.table, s.chan)
    requires ClosingOwed(s.delivered, s.links, s.closing)
    ensures LossFits(s, Report(h), t)
  {
  }

  lemma DoneFits(s: State, h: Handler, t: TaskId)
    requires Enabled(s, Step.Done(h)) && (t in s.delivered ==> s.pool.Issued(t))
    ensures LossFits(s, Step.Done(h), t)
  {
  }

  lemma DisconnectFits(s: State, w: Worker, t: TaskId)
    requires Enabled(s, Disconnect(w)) && Deliveries(s.delivered, s.held, s.table, s.chan)
    requires t in TasksOf(s.held, w) ==> (t in TasksOf(s.table, w)) != Buffered(s.chan, w, t)
    ensures LossFits(s, Disconnect(w), t)
  {
  }

  lemma FailFits(s: State, x: TaskId, t: TaskId)
    requires Enabled(s, Step.Fail(x)) && (t in s.delivered ==> s.pool.Issued(t))
    requires ClosingOwed(s.delivered, s.links, s.closing)
    ensures LossFits(s, Step.Fail(x), t)
  {
  }

  lemma OthersFit(s: State, step: Step, t: TaskId)
    requires Enabled(s, step) && TablesKnown(s.links.Keys, s.held, s.table)
    requires Deliveries(s.delivered, s.held, s.table, s.chan)
    requires !step.Register? && !step.Report? && !step.Done? && !step.Disconnect? && !step.Fail?
    ensures LossFits(s, step, t)
  {
  }
}
