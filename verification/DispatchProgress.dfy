/**
 Which tasks can still get a result.  In every state that known reports can lead to, with a watcher that
 is not bound to panic: some continuation in which workers report only what they were handed ends with a
 result for a task iff the task is not beyond help, in whatever order tasks are handed out and get handlers,
 connections and close callbacks are served.
 */
module DispatchProgress {
  import opened Wrappers
  import opened Dispatch
  import opened DispatchRuns
  import opened DispatchTheorems
  import opened DispatchPanics
  import opened DispatchDiscipline
  import opened DispatchLock

  /** An honest continuation. */
  predicate HonestRun(order: Order, s: State, tr: seq<Step>)
    requires Legal(s, tr)
    decreases |tr|
  {
    tr != [] ==> Honest(s, tr[0]) && order.Obeyed(s, tr[0]) && HonestRun(order, Apply(s, tr[0]), tr[1..])
  }

  ghost predicate CanGetResult(order: Order, s: State, t: TaskId) {
    exists tr :: Legal(s, tr) && HonestRun(order, s, tr) && t in After(s, tr).pool.outcomes
  }

  /** The continuations built here are also disciplined, start no subscription, and do not make the watcher panic. */
  predicate Careful(order: Order, s: State, step: Step) {
    && Enabled(s, step) && order.Obeyed(s, step) && Honest(s, step) && Disciplined(s, step) && !Dooms(s, step)
    && !step.Subscribe?
  }

  /** No connection that is not read has a get handler waiting for a task. */
  predicate Hear(s: State) {
    forall h | h in s.askers :: s.askers[h] !in s.subs
  }

  /** Or at least, none of them is under way to a store. */
  predicate Hearing(s: State) {
    Hear(s) || NoStores(s.subs)
  }

  predicate Path(order: Order, s: State, tr: seq<Step>, s': State)
    decreases |tr|
  {
    if tr == [] then s == s'
    else Careful(order, s, tr[0]) && Path(order, Apply(s, tr[0]), tr[1..], s')
  }

  ghost predicate Leads(order: Order, s: State, s': State) {
    exists tr :: Path(order, s, tr, s')
  }

  lemma {:induction false} PathJoin(order: Order, s: State, a: seq<Step>, m: State, b: seq<Step>, s': State)
    requires Path(order, s, a, m) && Path(order, m, b, s')
    ensures Path(order, s, a + b, s')
    decreases |a|
  {
    if a == [] {
      assert a + b == b;
    } else {
      assert (a + b)[0] == a[0] && (a + b)[1..] == a[1..] + b;
      PathJoin(order, Apply(s, a[0]), a[1..], m, b, s');
    }
  }

  lemma {:induction false} PathIsHonest(order: Order, s: State, tr: seq<Step>, s': State)
    requires Path(order, s, tr, s')
    ensures Legal(s, tr) && HonestRun(order, s, tr) && After(s, tr) == s'
    decreases |tr|
  {
    if tr != [] {
      PathIsHonest(order, Apply(s, tr[0]), tr[1..], s');
    }
  }

  lemma Stay(order: Order, s: State)
    ensures Leads(order, s, s)
  {
    assert Path(order, s, [], s);
  }

  /** One careful step, then a continuation. */
  lemma StepThen(order: Order, s: State, step: Step, s': State)
    requires Careful(order, s, step) && Leads(order, Apply(s, step), s')
    ensures Leads(order, s, s')
  {
    var tr :| Path(order, Apply(s, step), tr, s');
    assert ([step] + tr)[1..] == tr;
    assert Path(order, s, [step] + tr, s');
  }

  lemma LeadsThen(order: Order, s: State, m: State, s': State)
    requires Leads(order, s, m) && Leads(order, m, s')
    ensures Leads(order, s, s')
  {
    var a :| Path(order, s, a, m);
    var b :| Path(order, m, b, s');
    PathJoin(order, s, a, m, b, s');
  }

  /** A task that waits, but is not written off. */
  ghost predicate Waits(s: State, t: TaskId) {
    Sound(s) && Hear(s) && s.pool.Issued(t) && !WrittenOff(s, t)
  }

  lemma StepHear(order: Order, s: State, step: Step)
    requires Careful(order, s, step) && Hear(s) && SubsFit(s.links, s.subs)
    ensures Hear(Apply(s, step))
  {
  }

  lemma StepWaits(order: Order, s: State, step: Step, t: TaskId)
    requires Careful(order, s, step) && Waits(s, t)
    ensures Waits(Apply(s, step), t)
  {
    StepSound(s, step);
    StepHear(order, s, step);
    StepIssued(s, step, t);
    if WrittenOff(Apply(s, step), t) {
      DisciplineWritesNothingOff(s, step, t);
    }
  }

  lemma StepIssued(s: State, step: Step, t: TaskId)
    requires Enabled(s, step)
    ensures s.pool.Issued(t) ==> Apply(s, step).pool.Issued(t)
  {
  }

  /** Careful continuations keep that, and whatever was delivered or has a result. */
  lemma {:induction false} PathKeeps(order: Order, s: State, tr: seq<Step>, s': State, t: TaskId)
    requires Path(order, s, tr, s') && Waits(s, t)
    ensures Waits(s', t)
    ensures t in s.delivered ==> DeliveredTo(s'.delivered, t, s.delivered[t])
    decreases |tr|
  {
    if tr != [] {
      StepWaits(order, s, tr[0], t);
      StepDelivered(s, tr[0]);
      PathKeeps(order, Apply(s, tr[0]), tr[1..], s', t);
    }
  }

  lemma LeadsKeeps(order: Order, s: State, s': State, t: TaskId)
    requires Leads(order, s, s') && Waits(s, t)
    ensures Waits(s', t)
    ensures t in s.delivered ==> DeliveredTo(s'.delivered, t, s.delivered[t])
  {
    var tr :| Path(order, s, tr, s');
    PathKeeps(order, s, tr, s', t);
  }

  /** The subscription lock and its queue are left alone. */
  predicate SameLock(s: State, s': State) {
    s'.subs == s.subs && Waiters(s') == Waiters(s)
  }

  // ---------------------------------------------------------------- the watcher can catch up

  /** The get handlers of live connections past their check. */
  function PastCheck(s: State): set<Handler> {
    set h | h in s.getters && s.getters[h].pc == Checked && Live(s.links, s.getters[h].worker)
  }

  /** It ends its loop. */
  lemma {:induction false} FinishLoop(order: Order, s: State) returns (s': State)
    requires Sound(s)
    ensures Leads(order, s, s') && Sound(s') && s'.closing == {} && SameLock(s, s')
    ensures s'.links == s.links && s'.pool.queue == s.pool.queue && s'.getters == s.getters
    decreases |s.closing|
  {
    if s.closing == {} {
      s' := s;
      Stay(order, s);
    } else {
      var t :| t in s.closing;
      StepSound(s, Step.Fail(t));
      FailKeeps(s, t);
      s' := FinishLoop(order, Apply(s, Step.Fail(t)));
      StepThen(order, s, Step.Fail(t), s');
    }
  }

  lemma FailKeeps(s: State, t: TaskId)
    requires Enabled(s, Step.Fail(t))
    ensures var s' := Apply(s, Step.Fail(t));
            && SameLock(s, s') && s'.links == s.links && s'.pool.queue == s.pool.queue && s'.getters == s.getters
            && |s'.closing| < |s.closing|
  {
  }

  /** It empties the channel. */
  lemma {:induction false} DrainChannel(order: Order, s: State) returns (s': State)
    requires Sound(s) && s.closing == {}
    ensures Leads(order, s, s') && Sound(s') && s'.closing == {} && SameLock(s, s')
    ensures s'.links == s.links && s'.getters == s.getters && s'.chan == []
    decreases |s.chan|
  {
    if s.chan == [] {
      s' := s;
      Stay(order, s);
    } else {
      StepSound(s, WatchTask);
      s' := DrainChannel(order, Apply(s, WatchTask));
      StepThen(order, s, WatchTask, s');
    }
  }

  lemma RegisterShrinks(s: State, h: Handler)
    requires Enabled(s, Register(h)) && h in PastCheck(s)
    ensures PastCheck(Apply(s, Register(h))) == PastCheck(s) - {h}
    ensures |PastCheck(s) - {h}| < |PastCheck(s)|
  {
  }

  /** A handler of a live connection can send, and the watcher will find its table entry. */
  lemma RegisterIsCareful(order: Order, s: State, h: Handler)
    requires Sound(s) && h in s.getters && s.getters[h].pc == Checked && Live(s.links, s.getters[h].worker)
    ensures Careful(order, s, Register(h))
  {
  }

  /** They send. */
  lemma {:induction false} DrainHandlers(order: Order, s: State) returns (s': State)
    requires Sound(s)
    ensures Leads(order, s, s') && Sound(s') && s'.links == s.links && PastCheck(s') == {} && SameLock(s, s')
    decreases |PastCheck(s)|
  {
    if PastCheck(s) == {} {
      s' := s;
      Stay(order, s);
    } else {
      var h :| h in PastCheck(s);
      RegisterIsCareful(order, s, h);
      RegisterShrinks(s, h);
      StepSound(s, Register(h));
      s' := DrainHandlers(order, Apply(s, Register(h)));
      StepThen(order, s, Register(h), s');
    }
  }

  /** Everything that live connections have sent or are about to send is handled. */
  lemma Drain(order: Order, s: State) returns (s': State)
    requires Sound(s)
    ensures Leads(order, s, s') && Sound(s') && s'.links == s.links && s'.closing == {} && SameLock(s, s')
    ensures forall w | Live(s.links, w) :: Drained(s', w)
  {
    var s1 := DrainHandlers(order, s);
    var s2 := FinishLoop(order, s1);
    s' := DrainChannel(order, s2);
    LeadsThen(order, s1, s2, s');
    LeadsThen(order, s, s1, s');
    assert PastCheck(s') == PastCheck(s1);
    forall w, h | Live(s.links, w) && h in s'.getters && s'.getters[h].worker == w
      ensures s'.getters[h].pc != Checked
    {
      assert h !in PastCheck(s');
    }
  }

  // ---------------------------------------------------------------- results without the lock

  lemma FromRead(order: Order, s: State, t: TaskId) returns (s': State)
    requires Sound(s) && s.pool.Issued(t) && ReportRead(s.reporters, t)
    ensures Leads(order, s, s') && t in s'.pool.outcomes && SameLock(s, s')
  {
    var h :| h in s.reporters && s.reporters[h].task == t && s.reporters[h].pc.Called?;
    s' := Apply(s, Step.Done(h));
    Stay(order, s');
    StepThen(order, s, Step.Done(h), s');
  }

  lemma FromReader(order: Order, s: State, t: TaskId) returns (s': State)
    requires Sound(s) && t in s.delivered && Reading(s, s.delivered[t])
    ensures Leads(order, s, s') && t in s'.pool.outcomes && SameLock(s, s')
  {
    var h := FreshHandler(s);
    var step := Receive(h, s.delivered[t], t, Result(Other("null")));
    StepSound(s, step);
    var s1 := Apply(s, step);
    assert ReportRead(s1.reporters, t) by { assert s1.reporters[h].task == t; }
    s' := FromRead(order, s1, t);
    StepThen(order, s, step, s');
  }

  lemma FromClosing(order: Order, s: State, t: TaskId) returns (s': State)
    requires Sound(s) && t in s.closing
    ensures Leads(order, s, s') && t in s'.pool.outcomes && SameLock(s, s')
  {
    s' := Apply(s, Step.Fail(t));
    Stay(order, s');
    StepThen(order, s, Step.Fail(t), s');
  }

  /** Drain the handlers and the channel; then the disconnects are safe, and one of them fails the task. */
  lemma {:induction false} FromLeavingWorker(order: Order, s: State, t: TaskId) returns (s': State)
    requires order.Admissible() && Waits(s, t) && t in s.delivered && s.delivered[t] in Leavers(s)
    ensures Leads(order, s, s') && t in s'.pool.outcomes && SameLock(s, s')
    decreases |Leavers(s)|
  {
    var s1 := Drain(order, s);
    LeadsKeeps(order, s, s1, t);
    assert Leavers(s1) == Leavers(s);
    var v := order.leaver(s1);
    assert v in Leavers(s1);
    if t in s1.pool.outcomes {
      s' := s1;
    } else if v == s1.delivered[t] {
      s' := FromDrainedWorker(order, s1, v, t);
      LeadsThen(order, s, s1, s');
    } else {
      var s2 := NextLeaver(order, s1, v, t);
      s' := FromLeavingWorker(order, s2, t);
      LeadsThen(order, s1, s2, s');
      LeadsThen(order, s, s1, s');
    }
  }

  lemma NextLeaver(order: Order, s: State, v: Worker, t: TaskId) returns (s': State)
    requires Waits(s, t) && Enabled(s, Disconnect(v)) && Drained(s, v) && v == order.leaver(s)
    ensures Leads(order, s, s') && Waits(s', t) && SameLock(s, s') && s'.delivered == s.delivered
    ensures Leavers(s') == Leavers(s) - {v} && |Leavers(s')| < |Leavers(s)|
  {
    StepWaits(order, s, Disconnect(v), t);
    OneLeaverLess(s, v);
    WatcherKeepsLock(s, Disconnect(v));
    s' := Apply(s, Disconnect(v));
    Stay(order, s');
    StepThen(order, s, Disconnect(v), s');
  }

  lemma OneLeaverLess(s: State, v: Worker)
    requires Enabled(s, Disconnect(v))
    ensures Leavers(Apply(s, Disconnect(v))) == Leavers(s) - {v}
    ensures |Leavers(s) - {v}| < |Leavers(s)|
    ensures Apply(s, Disconnect(v)).delivered == s.delivered
  {
    assert v in Leavers(s);
  }

  lemma FromDrainedWorker(order: Order, s: State, w: Worker, t: TaskId) returns (s': State)
    requires Sound(s) && Enabled(s, Disconnect(w)) && Drained(s, w) && w == order.leaver(s)
    requires DeliveredTo(s.delivered, t, w) && t !in s.pool.outcomes
    ensures Leads(order, s, s') && t in s'.pool.outcomes && SameLock(s, s')
  {
    OwedIsInTable(s, w, t);
    StepSound(s, Disconnect(w));
    s' := FromClosing(order, Apply(s, Disconnect(w)), t);
    StepThen(order, s, Disconnect(w), s');
    WatcherKeepsLock(s, Disconnect(w));
  }

  lemma WatcherKeepsLock(s: State, step: Step)
    requires Enabled(s, step) && (step.Connect? || step.Disconnect?)
    ensures SameLock(s, Apply(s, step))
  {
  }

  lemma FromDelivered(order: Order, s: State, t: TaskId) returns (s': State)
    requires order.Admissible()
    requires Waits(s, t) && t in s.delivered && !NeedsLock(s, t)
    ensures Leads(order, s, s') && t in s'.pool.outcomes && SameLock(s, s')
  {
    LostIsDelivered(s, t);
    LostIsAbandoned(s, t);
    if t in s.pool.outcomes {
      s' := s;
      Stay(order, s);
    } else if t in s.closing {
      s' := FromClosing(order, s, t);
    } else if s.links[s.delivered[t]] == Open {
      s' := FromReader(order, s, t);
    } else {
      s' := FromLeavingWorker(order, s, t);
    }
  }

  /** A get handler past its check registers the task. */
  lemma FromChecked(order: Order, s: State, h: Handler) returns (s': State)
    requires order.Admissible()
    requires h in s.getters && s.getters[h].pc == Checked && Waits(s, s.getters[h].task)
    requires Live(s.links, s.getters[h].worker) && !Deaf(s, s.getters[h].worker)
    ensures Leads(order, s, s') && s.getters[h].task in s'.pool.outcomes && SameLock(s, s')
  {
    var t := s.getters[h].task;
    RegisterIsCareful(order, s, h);
    StepWaits(order, s, Register(h), t);
    HeardAfterRegister(s, h);
    s' := FromDelivered(order, Apply(s, Register(h)), t);
    StepThen(order, s, Register(h), s');
  }

  lemma HeardAfterRegister(s: State, h: Handler)
    requires Inv(s) && Enabled(s, Register(h)) && !Deaf(s, s.getters[h].worker)
    ensures s.getters[h].task in Apply(s, Register(h)).delivered
    ensures !NeedsLock(Apply(s, Register(h)), s.getters[h].task)
    ensures SameLock(s, Apply(s, Register(h)))
  {
  }

  /** Get handlers take what is ahead in the queue, and then the task, the ones of `w` if nobody else asks. */
  lemma {:induction false} FromFreeWorker(order: Order, s: State, w: Worker, t: TaskId) returns (s': State)
    requires order.Admissible() && Waits(s, t) && Reading(s, w) && t in s.pool.queue
    ensures Leads(order, s, s') && t in s'.pool.outcomes && SameLock(s, s')
    decreases |s.askers|, |s.pool.queue|
  {
    if s.askers == map[] {
      s' := FromOwnAsker(order, s, w, t);
    } else {
      var h, i := order.taker(s), order.next(s);
      assert h in s.askers;
      ShiftNext(order, s, h, i, t);
      if s.pool.queue[i] == t {
        s' := FromTaken(order, Apply(s, Shift(h, i)), h, w);
      } else {
        s' := FromFreeWorker(order, Apply(s, Shift(h, i)), w, t);
      }
      StepThen(order, s, Shift(h, i), s');
    }
  }

  /** The next get handler is served. */
  lemma ShiftNext(order: Order, s: State, h: Handler, i: nat, t: TaskId)
    requires Waits(s, t) && h in s.askers && h == order.taker(s) && i < |s.pool.queue| && i == order.next(s)
    requires t in s.pool.queue
    ensures Careful(order, s, Shift(h, i)) && Waits(Apply(s, Shift(h, i)), t)
    ensures var s' := Apply(s, Shift(h, i));
            && SameLock(s, s') && s'.links == s.links && s'.askers == s.askers - {h} && |s'.askers| < |s.askers|
            && |s'.pool.queue| < |s.pool.queue|
            && (if s.pool.queue[i] == t then h in s'.getters && s'.getters[h] == Getter(s.askers[h], t, Shifted)
                else t in s'.pool.queue)
    ensures s.askers[h] !in s.subs
  {
    StepWaits(order, s, Shift(h, i), t);
    AskerGone(s, h, i);
    if s.pool.queue[i] != t {
      ShiftLeaves(s.pool.queue, i, t);
    }
  }

  /** Whoever took it can report it, or gives it back. */
  lemma {:induction false} FromTaken(order: Order, s: State, h: Handler, w: Worker) returns (s': State)
    requires order.Admissible() && h in s.getters && s.getters[h].pc == Shifted && Waits(s, s.getters[h].task)
    requires Reading(s, w) && s.getters[h].worker !in s.subs
    ensures Leads(order, s, s') && s.getters[h].task in s'.pool.outcomes && SameLock(s, s')
    decreases |s.askers|, |s.pool.queue| + 2
  {
    if s.links[s.getters[h].worker] == Open {
      s' := FromShifted(order, s, h);
    } else {
      var m := BackInQueue(order, s, h);
      s' := FromFreeWorker(order, m, w, s.getters[h].task);
      LeadsThen(order, s, m, s');
    }
  }

  lemma AskerGone(s: State, h: Handler, i: nat)
    requires Enabled(s, Shift(h, i))
    ensures |Apply(s, Shift(h, i)).askers| < |s.askers| && SameLock(s, Apply(s, Shift(h, i)))
  {
    assert (s.askers - {h}).Keys == s.askers.Keys - {h};
  }

  /** Nobody asks, so `w` gets what it asks for. */
  lemma {:induction false} FromOwnAsker(order: Order, s: State, w: Worker, t: TaskId) returns (s': State)
    requires order.Admissible() && Waits(s, t) && Reading(s, w) && t in s.pool.queue && s.askers == map[]
    ensures Leads(order, s, s') && t in s'.pool.outcomes && SameLock(s, s')
    decreases 0, |s.pool.queue|, 1
  {
    var h := FreshHandler(s);
    StepWaits(order, s, Ask(h, w), t);
    SoleAsker(order, s, h, w);
    s' := FromSoleAsker(order, Apply(s, Ask(h, w)), h, w, t);
    StepThen(order, s, Ask(h, w), s');
  }

  lemma SoleAsker(order: Order, s: State, h: Handler, w: Worker)
    requires order.Admissible() && Enabled(s, Ask(h, w)) && s.askers == map[]
    ensures var s1 := Apply(s, Ask(h, w));
            && s1.askers == map[h := w] && order.taker(s1) == h && SameLock(s, s1)
            && Reading(s1, w) && s1.pool == s.pool
  {
    var s1 := Apply(s, Ask(h, w));
    assert s1.askers == map[h := w] && order.taker(s1) in s1.askers;
  }

  lemma {:induction false} FromSoleAsker(order: Order, s: State, h: Handler, w: Worker, t: TaskId) returns (s': State)
    requires order.Admissible() && Waits(s, t) && Reading(s, w) && t in s.pool.queue
    requires s.askers == map[h := w] && order.taker(s) == h
    ensures Leads(order, s, s') && t in s'.pool.outcomes && SameLock(s, s')
    decreases 0, |s.pool.queue|, 0
  {
    var i := order.next(s);
    ShiftNext(order, s, h, i, t);
    assert s.askers - {h} == map[];
    if s.pool.queue[i] == t {
      s' := FromShifted(order, Apply(s, Shift(h, i)), h);
    } else {
      s' := FromOwnAsker(order, Apply(s, Shift(h, i)), w, t);
    }
    StepThen(order, s, Shift(h, i), s');
  }

  /** A connection on its way out gives the task back. */
  lemma BackInQueue(order: Order, s: State, h: Handler) returns (s': State)
    requires h in s.getters && s.getters[h].pc == Shifted && Waits(s, s.getters[h].task)
    requires s.links[s.getters[h].worker] != Open
    ensures Leads(order, s, s') && Waits(s', s.getters[h].task) && s.getters[h].task in s'.pool.queue
    ensures s'.askers == s.askers && s'.links == s.links && s'.subs == s.subs && SameLock(s, s')
    ensures |s'.pool.queue| == |s.pool.queue| + 1
  {
    StepWaits(order, s, Check(h), s.getters[h].task);
    Refuses(s, h);
    s' := GivenBack(order, Apply(s, Check(h)), h);
    StepThen(order, s, Check(h), s');
  }

  lemma Refuses(s: State, h: Handler)
    requires Enabled(s, Check(h)) && s.links[s.getters[h].worker] != Open
    ensures Apply(s, Check(h)) == s.(getters := s.getters[h := s.getters[h].(pc := Refused)])
  {
  }

  lemma GivenBack(order: Order, s: State, h: Handler) returns (s': State)
    requires h in s.getters && s.getters[h].pc == Refused && Waits(s, s.getters[h].task)
    ensures Leads(order, s, s') && Waits(s', s.getters[h].task) && s.getters[h].task in s'.pool.queue
    ensures s'.askers == s.askers && s'.links == s.links && s'.subs == s.subs && SameLock(s, s')
    ensures |s'.pool.queue| == |s.pool.queue| + 1
  {
    var step := Step.UnShift(h);
    StepWaits(order, s, step, s.getters[h].task);
    UnShifts(s, h);
    s' := Apply(s, step);
    Stay(order, s');
    StepThen(order, s, step, s');
  }

  lemma UnShifts(s: State, h: Handler)
    requires Enabled(s, Step.UnShift(h))
    ensures var s' := Apply(s, Step.UnShift(h));
            && s'.askers == s.askers && s'.links == s.links && s'.subs == s.subs && SameLock(s, s')
            && |s'.pool.queue| == |s.pool.queue| + 1 && s.getters[h].task in s'.pool.queue
  {
    assert Apply(s, Step.UnShift(h)).pool.queue[|s.pool.queue|] == s.getters[h].task;
  }

  lemma FromShifted(order: Order, s: State, g: Handler) returns (s': State)
    requires order.Admissible() && g in s.getters && s.getters[g].pc == Shifted && Waits(s, s.getters[g].task)
    requires Reading(s, s.getters[g].worker)
    ensures Leads(order, s, s') && s.getters[g].task in s'.pool.outcomes && SameLock(s, s')
  {
    StepWaits(order, s, Check(g), s.getters[g].task);
    s' := FromChecked(order, Apply(s, Check(g)), g);
    StepThen(order, s, Check(g), s');
  }

  /** A new worker connects. */
  lemma FromQueue(order: Order, s: State, t: TaskId) returns (s': State)
    requires order.Admissible() && Waits(s, t) && t in s.pool.queue
    ensures Leads(order, s, s') && t in s'.pool.outcomes && SameLock(s, s')
  {
    var m := FinishLoop(order, s);
    LeadsKeeps(order, s, m, t);
    s' := FromIdleQueue(order, m, t);
    LeadsThen(order, s, m, s');
  }

  lemma FromIdleQueue(order: Order, s: State, t: TaskId) returns (s': State)
    requires order.Admissible() && Waits(s, t) && t in s.pool.queue && s.closing == {}
    ensures Leads(order, s, s') && t in s'.pool.outcomes && SameLock(s, s')
  {
    var w := FreshWorker(s);
    StepWaits(order, s, Connect(w), t);
    NewWorkerReads(s, w);
    s' := FromFreeWorker(order, Apply(s, Connect(w)), w, t);
    StepThen(order, s, Connect(w), s');
  }

  lemma NewWorkerReads(s: State, w: Worker)
    requires Enabled(s, Connect(w)) && SubsFit(s.links, s.subs)
    ensures var s' := Apply(s, Connect(w)); Reading(s', w) && SameLock(s, s') && s'.pool == s.pool
  {
    WatcherKeepsLock(s, Connect(w));
  }

  lemma FromRefused(order: Order, s: State, h: Handler) returns (s': State)
    requires order.Admissible() && h in s.getters && s.getters[h].pc == Refused && Waits(s, s.getters[h].task)
    ensures Leads(order, s, s') && s.getters[h].task in s'.pool.outcomes && SameLock(s, s')
  {
    var m := GivenBack(order, s, h);
    s' := FromQueue(order, m, s.getters[h].task);
    LeadsThen(order, s, m, s');
  }

  lemma FromGetter(order: Order, s: State, h: Handler) returns (s': State)
    requires order.Admissible() && h in s.getters && Waits(s, s.getters[h].task) && !NeedsLock(s, s.getters[h].task)
    ensures Leads(order, s, s') && s.getters[h].task in s'.pool.outcomes && SameLock(s, s')
  {
    if s.getters[h].pc == Shifted {
      StepWaits(order, s, Check(h), s.getters[h].task);
      var s1 := Apply(s, Check(h));
      if s1.getters[h].pc == Checked {
        s' := FromChecked(order, s1, h);
      } else {
        s' := FromRefused(order, s1, h);
      }
      StepThen(order, s, Check(h), s');
    } else if s.getters[h].pc == Checked {
      s' := FromChecked(order, s, h);
    } else {
      s' := FromRefused(order, s, h);
    }
  }

  /** A task that is not stalled gets a result while the lock stays where it is. */
  lemma WithoutLock(order: Order, s: State, t: TaskId) returns (s': State)
    requires order.Admissible() && Sound(s) && Hear(s) && s.pool.Issued(t) && !Stalled(s, t)
    ensures Leads(order, s, s') && t in s'.pool.outcomes && SameLock(s, s')
  {
    if t in s.pool.outcomes {
      s' := s;
      Stay(order, s);
    } else if ReportRead(s.reporters, t) {
      s' := FromRead(order, s, t);
    } else if t in s.delivered {
      s' := FromDelivered(order, s, t);
    } else if t in s.pool.queue {
      s' := FromQueue(order, s, t);
    } else {
      assert InGetter(s.getters, t);
      var h :| h in s.getters && s.getters[h].task == t;
      s' := FromGetter(order, s, h);
    }
  }

  // ---------------------------------------------------------------- and with it

  lemma LeadsSound(order: Order, s: State, s': State)
    requires Leads(order, s, s') && Sound(s)
    ensures Sound(s') && (Hear(s) ==> Hear(s')) && (Hearing(s) ==> Hearing(s'))
  {
    var tr :| Path(order, s, tr, s');
    PathSound(order, s, tr, s');
  }

  lemma {:induction false} PathSound(order: Order, s: State, tr: seq<Step>, s': State)
    requires Path(order, s, tr, s') && Sound(s)
    ensures Sound(s') && (Hear(s) ==> Hear(s')) && (Hearing(s) ==> Hearing(s'))
    decreases |tr|
  {
    if tr != [] {
      StepSound(s, tr[0]);
      if Hear(s) {
        StepHear(order, s, tr[0]);
      } else if NoStores(s.subs) {
        StepNoStores(s, tr[0]);
      }
      PathSound(order, Apply(s, tr[0]), tr[1..], s');
    }
  }

  lemma ReleaseFrees(s: State, c: Worker)
    requires SubsFit(s.links, s.subs) && Enabled(s, Release(c))
    ensures var s' := Apply(s, Release(c)); LockFree(s'.subs) && Waiters(s') == Waiters(s)
  {
  }

  /** Unless it is stuck, the lock can be released. */
  lemma FreeLock(order: Order, s: State) returns (s': State)
    requires order.Admissible() && Sound(s) && Hear(s) && !LockStuck(s)
    ensures Leads(order, s, s') && LockFree(s'.subs)
  {
    if LockFree(s.subs) {
      s' := s;
      Stay(order, s);
    } else {
      var c :| c in s.subs && s.subs[c].Pending?;
      var m := WithoutLock(order, s, s.subs[c].task);
      LeadsSound(order, s, m);
      s' := FromReleasable(order, m, c);
      LeadsThen(order, s, m, s');
    }
  }

  /** Whoever is next gets the lock and lets go of it again. */
  lemma ServeNext(order: Order, s: State) returns (s': State)
    requires order.Admissible() && Sound(s) && Hear(s) && LockFree(s.subs) && Waiters(s) != {}
    ensures Leads(order, s, s') && LockFree(s'.subs) && Waiters(s') == Waiters(s) - {order.lock(s)}
  {
    var v := order.lock(s);
    assert v in Waiters(s);
    if v in s.subs && s.subs[v].store {
      s' := ServeStore(order, s);
    } else {
      var step := if v in s.subs then Enter(v) else Leave(v);
      ServedAtOnce(s, v);
      s' := Apply(s, step);
      Stay(order, s');
      StepThen(order, s, step, s');
    }
  }

  lemma ServedAtOnce(s: State, v: Worker)
    requires SubsFit(s.links, s.subs) && !s.crashed && LockFree(s.subs) && v in Waiters(s)
    requires v in s.subs ==> s.subs[v] == Waiting(false)
    ensures var step := if v in s.subs then Enter(v) else Leave(v);
            && Enabled(s, step) && LockFree(Apply(s, step).subs)
            && Waiters(Apply(s, step)) == Waiters(s) - {v}
  {
  }

  /** A subscription to a store: its task is done by another worker. */
  lemma ServeStore(order: Order, s: State) returns (s': State)
    requires order.Admissible() && Sound(s) && Hear(s) && LockFree(s.subs)
    requires var v := order.lock(s); v in s.subs && s.subs[v] == Waiting(true)
    ensures Leads(order, s, s') && LockFree(s'.subs) && Waiters(s') == Waiters(s) - {order.lock(s)}
  {
    var v := order.lock(s);
    var s1 := Apply(s, Enter(v));
    StepSound(s, Enter(v));
    EnteredWaits(s, v);
    s' := ServePending(order, s1, v);
    StepThen(order, s, Enter(v), s');
  }

  /** The one who holds the lock lets go of it when its task, still queued, has its result. */
  lemma ServePending(order: Order, s: State, v: Worker) returns (s': State)
    requires order.Admissible() && v in s.subs && s.subs[v].Pending? && Waits(s, s.subs[v].task)
    requires s.subs[v].task in s.pool.queue
    ensures Leads(order, s, s') && LockFree(s'.subs) && Waiters(s') == Waiters(s)
  {
    var m := FromQueue(order, s, s.subs[v].task);
    LeadsSound(order, s, m);
    s' := FromReleasable(order, m, v);
    LeadsThen(order, s, m, s');
  }

  lemma FromReleasable(order: Order, s: State, c: Worker) returns (s': State)
    requires Sound(s) && Enabled(s, Release(c))
    ensures Leads(order, s, s') && LockFree(s'.subs) && Waiters(s') == Waiters(s)
  {
    ReleaseFrees(s, c);
    s' := Apply(s, Release(c));
    Stay(order, s');
    StepThen(order, s, Release(c), s');
  }

  lemma EnteredWaits(s: State, v: Worker)
    requires Sound(s) && Enabled(s, Enter(v)) && s.subs[v] == Waiting(true)
    requires Sound(Apply(s, Enter(v))) && Hear(s)
    ensures var s1, p := Apply(s, Enter(v)), s.pool.sequence + 1;
            && v in s1.subs && s1.subs[v] == Pending(p) && p in s1.pool.queue && Waits(s1, p)
    ensures Waiters(Apply(s, Enter(v))) == Waiters(s) - {v}
  {
    var s1 := Apply(s, Enter(v));
    assert s1.pool.queue[|s.pool.queue|] == s.pool.sequence + 1;
    OneWaiterLess(s, v);
  }

  lemma OneWaiterLess(s: State, v: Worker)
    requires SubsFit(s.links, s.subs) && Enabled(s, Enter(v))
    ensures Waiters(Apply(s, Enter(v))) == Waiters(s) - {v}
  {
  }

  /** One after the other, those that wait for the lock get it, until the task does not need it any more. */
  lemma {:induction false} WithFreeLock(order: Order, s: State, t: TaskId) returns (s': State)
    requires order.Admissible() && Waits(s, t) && LockFree(s.subs)
    ensures Leads(order, s, s') && t in s'.pool.outcomes
    decreases |Waiters(s)|
  {
    if !Stalled(s, t) {
      s' := WithoutLock(order, s, t);
    } else {
      StalledHasWaiter(s, t);
      var m := ServeNext(order, s);
      LeadsKeeps(order, s, m, t);
      Fewer(Waiters(s), order.lock(s));
      s' := WithFreeLock(order, m, t);
      LeadsThen(order, s, m, s');
    }
  }

  lemma Fewer(a: set<Worker>, x: Worker)
    requires x in a
    ensures |a - {x}| < |a|
  {
  }

  lemma StalledHasWaiter(s: State, t: TaskId)
    requires LockFree(s.subs) && NeedsLock(s, t)
    ensures Waiters(s) != {}
  {
    if t in s.delivered && Deaf(s, s.delivered[t]) {
      assert s.delivered[t] in Waiters(s);
    } else {
      var h :| h in s.getters && s.getters[h].task == t && Bound(s, s.getters[h]);
      assert s.getters[h].worker in Waiters(s);
    }
  }

  // ---------------------------------------------------------------- exactly

  /** Nobody is under way to a store: all that wait for the lock get it, and everybody is read. */
  lemma {:induction false} ServeAll(order: Order, s: State) returns (s': State)
    requires order.Admissible() && Sound(s) && NoStores(s.subs)
    ensures Leads(order, s, s') && s'.subs == map[]
    decreases |Waiters(s)|
  {
    if Waiters(s) == {} {
      forall w
        ensures w !in s.subs
      {
        assert w !in Waiters(s);
      }
      s' := s;
      Stay(order, s);
    } else {
      var v := order.lock(s);
      assert v in Waiters(s);
      var step := if v in s.subs then Enter(v) else Leave(v);
      ServedAtOnce(s, v);
      Fewer(Waiters(s), v);
      StepSound(s, step);
      StepNoStores(s, step);
      s' := ServeAll(order, Apply(s, step));
      StepThen(order, s, step, s');
    }
  }

  lemma {:induction false} PathNotOff(order: Order, s: State, tr: seq<Step>, s': State, t: TaskId)
    requires Path(order, s, tr, s') && Sound(s) && s.pool.Issued(t) && !WrittenOff(s, t)
    ensures s'.pool.Issued(t) && !WrittenOff(s', t)
    decreases |tr|
  {
    if tr != [] {
      StepSound(s, tr[0]);
      StepIssued(s, tr[0], t);
      if WrittenOff(Apply(s, tr[0]), t) {
        DisciplineWritesNothingOff(s, tr[0], t);
      }
      PathNotOff(order, Apply(s, tr[0]), tr[1..], s', t);
    }
  }

  lemma LeadsNotOff(order: Order, s: State, s': State, t: TaskId)
    requires Leads(order, s, s') && Sound(s) && s.pool.Issued(t) && !WrittenOff(s, t)
    ensures s'.pool.Issued(t) && !WrittenOff(s', t)
  {
    var tr :| Path(order, s, tr, s');
    PathNotOff(order, s, tr, s', t);
  }

  /** An issued task that is not beyond help gets a result in some honest continuation. */
  lemma ResultReachable(order: Order, s: State, t: TaskId) returns (s': State)
    requires order.Admissible() && Sound(s) && Hearing(s) && s.pool.Issued(t) && !BeyondHelp(s, t)
    ensures Leads(order, s, s') && t in s'.pool.outcomes
  {
    if t in s.pool.outcomes || Hear(s) {
      s' := ReachableHearing(order, s, t);
    } else if ReportRead(s.reporters, t) {
      s' := FromRead(order, s, t);
    } else {
      var m := ServeAll(order, s);
      LeadsNotOff(order, s, m, t);
      LeadsSound(order, s, m);
      s' := WithFreeLock(order, m, t);
      LeadsThen(order, s, m, s');
    }
  }

  lemma ReachableHearing(order: Order, s: State, t: TaskId) returns (s': State)
    requires order.Admissible() && Sound(s) && s.pool.Issued(t) && !BeyondHelp(s, t)
    requires t in s.pool.outcomes || Hear(s)
    ensures Leads(order, s, s') && t in s'.pool.outcomes
  {
    if t in s.pool.outcomes {
      s' := s;
      Stay(order, s);
    } else if !Stalled(s, t) {
      s' := WithoutLock(order, s, t);
    } else {
      var m := FreeLock(order, s);
      LeadsKeeps(order, s, m, t);
      s' := WithFreeLock(order, m, t);
      LeadsThen(order, s, m, s');
    }
  }

  lemma {:induction false} RunBeyondHelp(order: Order, s: State, tr: seq<Step>, t: TaskId)
    requires Inv(s) && Legal(s, tr) && HonestRun(order, s, tr) && BeyondHelp(s, t)
    ensures BeyondHelp(After(s, tr), t)
    decreases |tr|
  {
    if tr != [] {
      StepInv(s, tr[0]);
      HonestIsUnguessed(s, tr[0]);
      StepBeyondHelp(s, tr[0], t);
      RunBeyondHelp(order, Apply(s, tr[0]), tr[1..], t);
    }
  }

  /** Exactly which tasks can still get a result. */
  lemma CanGetResultIff(order: Order, s: State, t: TaskId)
    requires order.Admissible() && Sound(s) && Hearing(s) && s.pool.Issued(t)
    ensures CanGetResult(order, s, t) <==> !BeyondHelp(s, t)
  {
    if !BeyondHelp(s, t) {
      var s' := ResultReachable(order, s, t);
      var tr :| Path(order, s, tr, s');
      PathIsHonest(order, s, tr, s');
    }
    if BeyondHelp(s, t) {
      BeyondHelpGetsNothing(order, s, t);
    }
  }

  lemma BeyondHelpGetsNothing(order: Order, s: State, t: TaskId)
    requires Inv(s) && BeyondHelp(s, t)
    ensures !CanGetResult(order, s, t)
  {
    if CanGetResult(order, s, t) {
      var tr :| Legal(s, tr) && HonestRun(order, s, tr) && t in After(s, tr).pool.outcomes;
      RunBeyondHelp(order, s, tr, t);
      assert false;
    }
  }

  /** From the empty server, in every run with known reports whose steps do not make the watcher panic. */
  lemma RunCanGetResultIff(order: Order, start: nat, tr: seq<Step>, t: TaskId)
    requires order.Admissible()
    requires Legal(Init(start), tr) && SoundRun(Init(start), tr) && After(Init(start), tr).pool.Issued(t)
    requires Hearing(After(Init(start), tr))
    ensures CanGetResult(order, After(Init(start), tr), t) <==> !BeyondHelp(After(Init(start), tr), t)
  {
    InitGood(start);
    RunSound(Init(start), tr);
    CanGetResultIff(order, After(Init(start), tr), t);
  }

  /** In a disciplined run without subscriptions to stores, every issued task can always get a result. */
  lemma NoneBeyondHelp(order: Order, start: nat, tr: seq<Step>, t: TaskId)
    requires order.Admissible()
    requires Legal(Init(start), tr) && DisciplinedRun(Init(start), tr) && NoStoreSubscribed(tr)
    requires After(Init(start), tr).pool.Issued(t)
    ensures CanGetResult(order, After(Init(start), tr), t)
  {
    var s := After(Init(start), tr);
    InitGood(start);
    RunGood(Init(start), tr);
    NeverStuck(Init(start), tr);
    BeyondHelpIff(s, t);
    CanGetResultIff(order, s, t);
  }

  // ---------------------------------------------------------------- why all askers must hear

  /** While it waits, get handler `h` is served first, and with task `p` when that is queued. */
  ghost predicate Prefers(order: Order, h: Handler, p: TaskId) {
    forall s: State | h in s.askers && p in s.pool.queue ::
      order.taker(s) == h && order.next(s) < |s.pool.queue| && s.pool.queue[order.next(s)] == p
  }

  function Position(q: seq<TaskId>, p: TaskId): (i: nat)
    ensures q != [] ==> i < |q|
    ensures p in q ==> q[i] == p
  {
    if |q| <= 1 || q[0] == p then 0 else if p in q[1..] then 1 + Position(q[1..], p) else 0
  }

  ghost function OneOf(names: set<nat>): (x: nat)
    ensures names != {} ==> x in names
  {
    if names == {} then 0 else var x :| x in names; x
  }

  /** Such an order exists. */
  lemma PreferringOrder(h: Handler, p: TaskId)
    ensures exists order: Order :: order.Admissible() && Prefers(order, h, p)
  {
    var order := Order((s: State) => Position(s.pool.queue, p),
                       (s: State) => if h in s.askers then h else OneOf(s.askers.Keys),
                       (s: State) => OneOf(Waiters(s)),
                       (s: State) => OneOf(Leavers(s)));
    assert order.Admissible() && Prefers(order, h, p);
  }

  /** The subscriber `c` has the lock, and asks for tasks itself; its own one is queued. */
  predicate AsksForItself(s: State, c: Worker, h: Handler, p: TaskId) {
    && c in s.subs && s.subs[c] == Pending(p) && h in s.askers && s.askers[h] == c
    && p in s.pool.queue && p !in s.pool.outcomes && !ReportRead(s.reporters, p)
  }

  lemma StepStarves(order: Order, s: State, step: Step, c: Worker, h: Handler, p: TaskId)
    requires Inv(s) && Enabled(s, step) && Honest(s, step) && order.Obeyed(s, step) && Prefers(order, h, p)
    requires AsksForItself(s, c, h, p)
    ensures AsksForItself(Apply(s, step), c, h, p) || BeyondHelp(Apply(s, step), p)
  {
    StepReportRead(s, step, p);
    if p in Apply(s, step).pool.outcomes {
      ResultOrigin(s, step, p);
    }
    if step.Shift? {
      TakenByItself(s, step.i, c, h, p);
    } else {
      StaysInQueue(s, step, p);
      StaysDeaf(s, step, c, c);
      StaysAsking(s, step, h);
    }
  }

  lemma StaysAsking(s: State, step: Step, h: Handler)
    requires Enabled(s, step) && h in s.askers && !step.Shift?
    ensures h in Apply(s, step).askers && Apply(s, step).askers[h] == s.askers[h]
  {
  }

  lemma TakenByItself(s: State, i: nat, c: Worker, h: Handler, p: TaskId)
    requires AsksForItself(s, c, h, p) && Enabled(s, Shift(h, i)) && s.pool.queue[i] == p
    ensures BeyondHelp(Apply(s, Shift(h, i)), p)
  {
    var s' := Apply(s, Shift(h, i));
    assert Bound(s', s'.getters[h]);
    assert Stalled(s', p) && s'.subs[c] == Pending(p);
  }

  lemma {:induction false} RunStarves(order: Order, s: State, tr: seq<Step>, c: Worker, h: Handler, p: TaskId)
    requires Inv(s) && Legal(s, tr) && HonestRun(order, s, tr) && Prefers(order, h, p)
    requires AsksForItself(s, c, h, p)
    ensures p !in After(s, tr).pool.outcomes
    decreases |tr|
  {
    if tr != [] {
      var s' := Apply(s, tr[0]);
      StepInv(s, tr[0]);
      StepStarves(order, s, tr[0], c, h, p);
      if BeyondHelp(s', p) {
        RunBeyondHelp(order, s', tr[1..], p);
      } else {
        RunStarves(order, s', tr[1..], c, h, p);
      }
    }
  }

  lemma QueuedIsNotBeyondHelp(s: State, t: TaskId)
    requires Inv(s) && t in s.pool.queue
    ensures !BeyondHelp(s, t)
  {
  }

  /**
   A subscriber that asks for tasks itself can be served its own one.  It is not beyond help yet, since
   another worker could get it; but in an order that serves the subscriber first it never has a result.
   */
  lemma DeafAskerStarves(order: Order, s: State, c: Worker, h: Handler, p: TaskId)
    requires Inv(s) && AsksForItself(s, c, h, p) && Prefers(order, h, p)
    ensures !BeyondHelp(s, p) && !CanGetResult(order, s, p)
  {
    QueuedIsNotBeyondHelp(s, p);
    if CanGetResult(order, s, p) {
      var tr :| Legal(s, tr) && HonestRun(order, s, tr) && p in After(s, tr).pool.outcomes;
      RunStarves(order, s, tr, c, h, p);
      assert false;
    }
  }
}
