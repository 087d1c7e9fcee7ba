/** What every run of the worker protocol keeps. */
module DispatchRuns {
  import opened Wrappers
  import opened Dispatch

  // ---------------------------------------------------------------- the three places of a task

  lemma RemoveAtMembers<T>(q: seq<T>, i: nat)
    requires i < |q| && NoDup(q)
    ensures NoDup(RemoveAt(q, i))
    ensures forall x :: x in RemoveAt(q, i) <==> x in q && x != q[i]
  {
    var r := RemoveAt(q, i);
    assert forall j :: 0 <= j < |r| ==> r[j] == if j < i then q[j] else q[j + 1];
    forall x | x in q && x != q[i]
      ensures x in r
    {
      var j :| 0 <= j < |q| && q[j] == x;
      assert x == if j < i then r[j] else r[j - 1];
    }
  }

  lemma ShiftLeaves(q: seq<TaskId>, i: nat, t: TaskId)
    requires i < |q| && t in q && q[i] != t
    ensures t in RemoveAt(q, i)
  {
    var j :| 0 <= j < |q| && q[j] == t;
    assert RemoveAt(q, i)[if j < i then j else j - 1] == t;
  }

  lemma AppendMembers<T>(q: seq<T>, x: T)
    requires NoDup(q) && x !in q
    ensures NoDup(q + [x])
    ensures forall y :: y in q + [x] <==> y in q || y == x
  {
    assert (q + [x])[|q|] == x;
  }

  lemma GetterSet(getters: map<Handler, Getter>, h: Handler, g: Getter)
    requires h in getters ==> getters[h].task == g.task
    ensures forall t :: InGetter(getters[h := g], t) <==> InGetter(getters, t) || t == g.task
  {
    forall t
      ensures InGetter(getters[h := g], t) <==> InGetter(getters, t) || t == g.task
    {
      assert getters[h := g][h].task == g.task;
      if InGetter(getters, t) {
        var x :| x in getters && getters[x].task == t;
        assert getters[h := g][x].task == t;
      }
    }
  }

  lemma GetterGone(getters: map<Handler, Getter>, h: Handler)
    requires h in getters
    ensures forall t :: InGetter(getters, t) ==> InGetter(getters - {h}, t) || t == getters[h].task
  {
    forall t | InGetter(getters, t) && t != getters[h].task
      ensures InGetter(getters - {h}, t)
    {
      var x :| x in getters && getters[x].task == t;
      assert (getters - {h})[x].task == t;
    }
  }

  lemma PushPlaces(start: nat, n: nat, q: seq<TaskId>, g: map<Handler, Getter>, d: map<TaskId, Worker>)
    requires Places(start, n, q, g, d)
    ensures Places(start, n + 1, q + [n + 1], g, d)
  {
    AppendMembers(q, n + 1);
  }

  lemma ShiftPlaces(start: nat, n: nat, q: seq<TaskId>, g: map<Handler, Getter>, d: map<TaskId, Worker>,
                    h: Handler, w: Worker, i: nat)
    requires Places(start, n, q, g, d) && i < |q| && h !in g
    ensures Places(start, n, RemoveAt(q, i), g[h := Getter(w, q[i], Shifted)], d)
  {
    assert q[i] in q;
    RemoveAtMembers(q, i);
    GetterSet(g, h, Getter(w, q[i], Shifted));
  }

  lemma CheckPlaces(start: nat, n: nat, q: seq<TaskId>, g: map<Handler, Getter>, d: map<TaskId, Worker>,
                    h: Handler, pc: GetPc)
    requires Places(start, n, q, g, d) && h in g
    ensures Places(start, n, q, g[h := g[h].(pc := pc)], d)
  {
    GetterSet(g, h, g[h].(pc := pc));
  }

  lemma RegisterPlaces(start: nat, n: nat, q: seq<TaskId>, g: map<Handler, Getter>, d: map<TaskId, Worker>,
                       h: Handler)
    requires Places(start, n, q, g, d) && h in g
    ensures Places(start, n, q, g - {h}, d[g[h].task := g[h].worker])
  {
    GetterGone(g, h);
  }

  lemma UnShiftPlaces(start: nat, n: nat, q: seq<TaskId>, g: map<Handler, Getter>, d: map<TaskId, Worker>,
                      h: Handler)
    requires Places(start, n, q, g, d) && h in g
    ensures Places(start, n, q + [g[h].task], g - {h}, d)
  {
    AppendMembers(q, g[h].task);
    GetterGone(g, h);
  }

  // ---------------------------------------------------------------- the watcher's table

  lemma {:induction false} ReplayAppend(base: set<TaskId>, chan: seq<Keeper>, k: Keeper, w: Worker)
    ensures Replay(base, chan + [k], w) == Note(Replay(base, chan, w), k, w)
    decreases |chan|
  {
    if chan == [] {
      assert (chan + [k])[1..] == [];
    } else {
      assert (chan + [k])[0] == chan[0] && (chan + [k])[1..] == chan[1..] + [k];
      ReplayAppend(Note(base, chan[0], w), chan[1..], k, w);
    }
  }

  lemma {:induction false} ReplaySkip(base: set<TaskId>, chan: seq<Keeper>, w: Worker)
    requires forall i | 0 <= i < |chan| :: chan[i].worker != w
    ensures Replay(base, chan, w) == base
    decreases |chan|
  {
    if chan != [] {
      ReplaySkip(base, chan[1..], w);
    }
  }

  /** A send on the watch channel and the history it stands for move together. */
  lemma SendRefines(links: map<Worker, Link>, table: Tasks, chan: seq<Keeper>, held: Tasks, k: Keeper)
    requires Refines(links, table, chan, held) && k.worker in held
    ensures Refines(links, table, chan + [k], held[k.worker := Note(held[k.worker], k, k.worker)])
  {
    forall w | Live(links, w) {
      ReplayAppend(table[w], chan, k, w);
    }
  }

  /** Handling the oldest message leaves the outcome of replaying the rest unchanged. */
  lemma HandleRefines(links: map<Worker, Link>, table: Tasks, chan: seq<Keeper>, held: Tasks)
    requires Refines(links, table, chan, held) && chan != []
    ensures Refines(links, Handle(table, chan[0]), chan[1..], held)
  {
  }

  lemma ConnectRefines(links: map<Worker, Link>, table: Tasks, chan: seq<Keeper>, held: Tasks, w: Worker)
    requires Refines(links, table, chan, held)
    requires forall i | 0 <= i < |chan| :: chan[i].worker != w
    ensures Refines(links[w := Open], table[w := {}], chan, held[w := {}])
  {
    ReplaySkip({}, chan, w);
  }

  lemma LinkRefines(links: map<Worker, Link>, table: Tasks, table': Tasks, chan: seq<Keeper>, held: Tasks,
                    w: Worker, l: Link)
    requires Refines(links, table, chan, held)
    requires Live(links, w)
    requires table' == table || (l == Closed && table' == table - {w})
    ensures Refines(links[w := l], table', chan, held)
  {
  }

  lemma SendDeliveries(d: map<TaskId, Worker>, held: Tasks, table: Tasks, chan: seq<Keeper>, k: Keeper)
    requires Deliveries(d, held, table, chan) && k.worker in held
    requires k.done || k.task !in d
    ensures Deliveries(if k.done then d else d[k.task := k.worker],
                       held[k.worker := Note(held[k.worker], k, k.worker)], table, chan + [k])
  {
  }

  lemma EntryDeliveries(d: map<TaskId, Worker>, held: Tasks, table: Tasks, chan: seq<Keeper>, w: Worker)
    requires Deliveries(d, held, table, chan)
    ensures Deliveries(d, held, table - {w}, chan)
    ensures Deliveries(d, held[w := {}], table[w := {}], chan)
  {
  }

  lemma HandleDeliveries(d: map<TaskId, Worker>, held: Tasks, table: Tasks, chan: seq<Keeper>)
    requires Deliveries(d, held, table, chan) && chan != []
    ensures Deliveries(d, held, Handle(table, chan[0]), chan[1..])
  {
  }

  lemma SendRegisteredOnce(d: map<TaskId, Worker>, held: Tasks, table: Tasks, chan: seq<Keeper>, k: Keeper)
    requires Deliveries(d, held, table, chan) && RegisteredOnce(chan, table)
    requires k.done || k.task !in d
    ensures RegisteredOnce(chan + [k], table)
  {
  }

  lemma HandleRegisteredOnce(chan: seq<Keeper>, table: Tasks)
    requires RegisteredOnce(chan, table) && chan != []
    ensures RegisteredOnce(chan[1..], Handle(table, chan[0]))
  {
  }

  // ---------------------------------------------------------------- the disconnect loop

  function Fails(order: seq<TaskId>): seq<Step> {
    if order == [] then [] else [Step.Fail(order[0])] + Fails(order[1..])
  }

  lemma FailFirst(p: Pool, ts: set<TaskId>, t: TaskId)
    requires t in ts
    ensures p.Done(t, WORKER_LOST).FailAll(ts - {t}) == p.FailAll(ts)
  {
    assert p.Done(t, WORKER_LOST).FailAll(ts - {t}).outcomes == p.FailAll(ts).outcomes;
  }

  /** Left alone, the loop can take the tasks in any order, and the order does not show. */
  lemma {:induction false} FailsRun(s: State, order: seq<TaskId>)
    requires !s.crashed && NoDup(order) && forall t :: t in order <==> t in s.closing
    ensures Legal(s, Fails(order))
    ensures After(s, Fails(order)) == s.(pool := s.pool.FailAll(s.closing), closing := {})
    decreases |order|
  {
    if order == [] {
      assert s.pool.FailAll({}).outcomes == s.pool.outcomes;
      assert s.closing == {};
    } else {
      var t := order[0];
      var s' := Apply(s, Step.Fail(t));
      forall x
        ensures x in order[1..] <==> x in s'.closing
      {
        assert x in order <==> x == t || x in order[1..];
      }
      FailsRun(s', order[1..]);
      FailFirst(s.pool, s.closing, t);
      assert Fails(order)[0] == Step.Fail(t) && Fails(order)[1..] == Fails(order[1..]);
    }
  }

  // ---------------------------------------------------------------- every step, every run

  lemma StepInv(s: State, step: Step)
    requires Inv(s) && Enabled(s, step)
    ensures Inv(Apply(s, step))
  {
    StepPlaces(s, step);
    StepOutcomes(s, step);
    StepNames(s, step);
    StepDeliveries(s, step);
    StepRegisteredOnce(s, step);
    StepRefines(s, step);
    StepClosing(s, step);
    StepSubs(s, step);
  }

  lemma StepPlaces(s: State, step: Step)
    requires Places(s.pool.start, s.pool.sequence, s.pool.queue, s.getters, s.delivered) && Enabled(s, step)
    requires AskersApart(s.askers, s.getters)
    ensures var s' := Apply(s, step);
            Places(s'.pool.start, s'.pool.sequence, s'.pool.queue, s'.getters, s'.delivered)
  {
    var p := s.pool;
    if step.Shift? {
      ShiftPlaces(p.start, p.sequence, p.queue, s.getters, s.delivered, step.h, s.askers[step.h], step.i);
    } else if step.Push? || step.UnShift? {
      QueuePlaces(s, step);
    } else if step.Enter? {
      EnterPlaces(s, step.w);
    } else if step.Check? || step.Register? {
      GetterPlaces(s, step);
    } else {
      StaysPut(s, step);
    }
  }

  lemma QueuePlaces(s: State, step: Step)
    requires Places(s.pool.start, s.pool.sequence, s.pool.queue, s.getters, s.delivered) && Enabled(s, step)
    requires step.Push? || step.UnShift?
    ensures var s' := Apply(s, step);
            Places(s'.pool.start, s'.pool.sequence, s'.pool.queue, s'.getters, s'.delivered)
  {
    var p := s.pool;
    match step
    case Push => PushPlaces(p.start, p.sequence, p.queue, s.getters, s.delivered);
    case UnShift(h) => UnShiftPlaces(p.start, p.sequence, p.queue, s.getters, s.delivered, h);
  }

  lemma EnterPlaces(s: State, w: Worker)
    requires Places(s.pool.start, s.pool.sequence, s.pool.queue, s.getters, s.delivered) && Enabled(s, Enter(w))
    ensures var s' := Apply(s, Enter(w));
            Places(s'.pool.start, s'.pool.sequence, s'.pool.queue, s'.getters, s'.delivered)
  {
    EnterMoves(s, w);
    if s.subs[w].store {
      PushPlaces(s.pool.start, s.pool.sequence, s.pool.queue, s.getters, s.delivered);
    }
  }

  lemma EnterMoves(s: State, w: Worker)
    requires Enabled(s, Enter(w))
    ensures var s' := Apply(s, Enter(w));
            && s'.getters == s.getters && s'.delivered == s.delivered && s'.pool.start == s.pool.start
            && (if s.subs[w].store then
                  s'.pool.sequence == s.pool.sequence + 1 && s'.pool.queue == s.pool.queue + [s.pool.sequence + 1]
                else s'.pool == s.pool)
  {
  }

  lemma GetterPlaces(s: State, step: Step)
    requires Places(s.pool.start, s.pool.sequence, s.pool.queue, s.getters, s.delivered) && Enabled(s, step)
    requires step.Check? || step.Register?
    ensures var s' := Apply(s, step);
            Places(s'.pool.start, s'.pool.sequence, s'.pool.queue, s'.getters, s'.delivered)
  {
    var p := s.pool;
    match step
    case Check(h) =>
      CheckPlaces(p.start, p.sequence, p.queue, s.getters, s.delivered, h, Apply(s, step).getters[h].pc);
    case Register(h) => RegisterPlaces(p.start, p.sequence, p.queue, s.getters, s.delivered, h);
  }

  /** Only the get handlers and the push move tasks. */
  lemma StaysPut(s: State, step: Step)
    requires Enabled(s, step)
    requires !step.Push? && !step.Enter? && !step.Shift? && !step.Check? && !step.Register? && !step.UnShift?
    ensures var s' := Apply(s, step);
            && s'.pool.start == s.pool.start && s'.pool.sequence == s.pool.sequence && s'.pool.queue == s.pool.queue
            && s'.getters == s.getters && s'.delivered == s.delivered
  {
  }

  lemma StepOutcomes(s: State, step: Step)
    requires Outcomes(s.pool) && Enabled(s, step)
    ensures Outcomes(Apply(s, step).pool)
  {
  }

  lemma StepNames(s: State, step: Step)
    requires Names(s) && Enabled(s, step)
    ensures Names(Apply(s, step))
  {
    StepTables(s, step);
    StepHandlers(s, step);
    StepChan(s, step);
  }

  lemma StepTables(s: State, step: Step)
    requires Enabled(s, step) && TablesKnown(s.links.Keys, s.held, s.table)
    ensures var s' := Apply(s, step);
            s.links.Keys <= s'.links.Keys && TablesKnown(s'.links.Keys, s'.held, s'.table)
  {
    if step.Lose? || step.Leave? || step.Disconnect? {
      assert Apply(s, step).links.Keys == s.links.Keys;
    }
  }

  lemma StepHandlers(s: State, step: Step)
    requires Enabled(s, step)
    requires AskersKnown(s.links.Keys, s.askers) && AskersApart(s.askers, s.getters)
    requires GettersKnown(s.links.Keys, s.getters) && ReportersKnown(s.links.Keys, s.reporters)
    ensures AskersKnown(s.links.Keys, Apply(s, step).askers)
    ensures AskersApart(Apply(s, step).askers, Apply(s, step).getters)
    ensures GettersKnown(s.links.Keys, Apply(s, step).getters)
    ensures ReportersKnown(s.links.Keys, Apply(s, step).reporters)
  {
  }

  lemma StepChan(s: State, step: Step)
    requires Enabled(s, step) && ChanKnown(s.links.Keys, s.chan)
    requires GettersKnown(s.links.Keys, s.getters) && ReportersKnown(s.links.Keys, s.reporters)
    ensures ChanKnown(s.links.Keys, Apply(s, step).chan)
  {
  }

  /** What a send handler puts on the watch channel. */
  function Sent(s: State, step: Step): Keeper
    requires (step.Register? || step.Report?) && Enabled(s, step)
  {
    if step.Register? then Keeper(s.getters[step.h].worker, s.getters[step.h].task, false)
    else Keeper(s.reporters[step.h].worker, s.reporters[step.h].task, true)
  }

  lemma StepDeliveries(s: State, step: Step)
    requires Places(s.pool.start, s.pool.sequence, s.pool.queue, s.getters, s.delivered) && Enabled(s, step)
    requires Deliveries(s.delivered, s.held, s.table, s.chan)
    ensures var s' := Apply(s, step); Deliveries(s'.delivered, s'.held, s'.table, s'.chan)
  {
    match step
    case Register(_) => SendDeliveries(s.delivered, s.held, s.table, s.chan, Sent(s, step));
    case Report(_) => SendDeliveries(s.delivered, s.held, s.table, s.chan, Sent(s, step));
    case WatchTask => HandleDeliveries(s.delivered, s.held, s.table, s.chan);
    case Connect(w) => EntryDeliveries(s.delivered, s.held, s.table, s.chan, w);
    case Disconnect(w) => EntryDeliveries(s.delivered, s.held, s.table, s.chan, w);
    case _ => SameTables(s, step);
  }

  lemma SameTables(s: State, step: Step)
    requires Enabled(s, step)
    requires !step.Register? && !step.Report? && !step.WatchTask? && !step.Connect? && !step.Disconnect?
    ensures var s' := Apply(s, step);
            s'.delivered == s.delivered && s'.held == s.held && s'.table == s.table && s'.chan == s.chan
  {
  }

  lemma StepRegisteredOnce(s: State, step: Step)
    requires Deliveries(s.delivered, s.held, s.table, s.chan) && RegisteredOnce(s.chan, s.table) && Enabled(s, step)
    requires step.Register? ==> s.getters[step.h].task !in s.delivered
    ensures var s' := Apply(s, step); RegisteredOnce(s'.chan, s'.table)
  {
    if step.Register? || step.Report? {
      SendRegisteredOnce(s.delivered, s.held, s.table, s.chan, Sent(s, step));
    } else if step.WatchTask? {
      HandleRegisteredOnce(s.chan, s.table);
    }
  }

  lemma StepRefines(s: State, step: Step)
    requires Names(s) && Enabled(s, step)
    requires Refines(s.links, s.table, s.chan, s.held)
    ensures var s' := Apply(s, step); Refines(s'.links, s'.table, s'.chan, s'.held)
  {
    match step
    case Register(_) => SendRefines(s.links, s.table, s.chan, s.held, Sent(s, step));
    case Report(_) => SendRefines(s.links, s.table, s.chan, s.held, Sent(s, step));
    case WatchTask => HandleRefines(s.links, s.table, s.chan, s.held);
    case Connect(w) => ConnectRefines(s.links, s.table, s.chan, s.held, w);
    case Lose(w) => LinkRefines(s.links, s.table, s.table, s.chan, s.held, w, Lost);
    case Leave(w) => LinkRefines(s.links, s.table, s.table, s.chan, s.held, w, Leaving);
    case Disconnect(w) => LinkRefines(s.links, s.table, Apply(s, step).table, s.chan, s.held, w, Closed);
    case _ =>
  }

  lemma StepSubs(s: State, step: Step)
    requires Enabled(s, step) && SubsFit(s.links, s.subs) && SubsIssued(s.pool, s.subs)
    requires s.pool.start <= s.pool.sequence
    ensures var s' := Apply(s, step); SubsFit(s'.links, s'.subs) && SubsIssued(s'.pool, s'.subs)
  {
    match step
    case Subscribe(w, store) => NewSub(s.pool, s.links, s.subs, w, Waiting(store));
    case Enter(w) =>
      if s.subs[w].store {
        NewSub(s.pool.Push(), s.links, s.subs, w, Pending(s.pool.sequence + 1));
      }
    case Release(_) =>
    case _ => StepOutside(s, step);
  }

  lemma StepOutside(s: State, step: Step)
    requires Enabled(s, step) && SubsFit(s.links, s.subs)
    requires !step.Subscribe? && !step.Enter? && !step.Release?
    ensures var s' := Apply(s, step);
            && s'.subs == s.subs && (forall w | w in s.subs :: w in s'.links && s'.links[w] == s.links[w])
            && s'.pool.start == s.pool.start && s'.pool.sequence >= s.pool.sequence
  {
  }

  lemma NewSub(p: Pool, links: map<Worker, Link>, subs: map<Worker, Sub>, w: Worker, sub: Sub)
    requires SubsFit(links, subs) && SubsIssued(p, subs) && w in links && links[w] == Open
    requires sub.Pending? ==> LockFree(subs) && p.Issued(sub.task)
    ensures SubsFit(links, subs[w := sub]) && SubsIssued(p, subs[w := sub])
  {
  }

  lemma StepClosing(s: State, step: Step)
    requires Enabled(s, step) && Names(s) && Deliveries(s.delivered, s.held, s.table, s.chan)
    requires step.Register? ==> s.getters[step.h].task !in s.delivered
    requires ClosingOwed(s.delivered, s.links, s.closing)
    ensures var s' := Apply(s, step); ClosingOwed(s'.delivered, s'.links, s'.closing)
  {
  }

  /** Every run of the code as written, whatever the interleaving: the invariant holds throughout. */
  lemma {:induction false} RunInv(s: State, tr: seq<Step>)
    requires Inv(s) && Legal(s, tr)
    ensures Inv(After(s, tr))
    decreases |tr|
  {
    if tr != [] {
      StepInv(s, tr[0]);
      RunInv(Apply(s, tr[0]), tr[1..]);
    }
  }

  lemma StaysInQueue(s: State, step: Step, p: TaskId)
    requires Enabled(s, step) && p in s.pool.queue && !(step.Shift? && s.pool.queue[step.i] == p)
    ensures p in Apply(s, step).pool.queue
  {
    match step
    case Shift(_, i) => ShiftLeaves(s.pool.queue, i, p);
    case Push => assert p in s.pool.queue + [s.pool.sequence + 1];
    case Enter(_) => assert p in s.pool.queue + [s.pool.sequence + 1];
    case UnShift(h) => assert p in s.pool.queue + [s.getters[h].task];
    case _ => assert Apply(s, step).pool.queue == s.pool.queue;
  }

  // ---------------------------------------------------------------- fresh names

  lemma FreshHandler(s: State) returns (h: Handler)
    ensures Fresh(s, h)
  {
    h := UpperBound(s.askers.Keys + s.getters.Keys + s.reporters.Keys);
  }

  lemma FreshWorker(s: State) returns (w: Worker)
    ensures w !in s.links
  {
    w := UpperBound(s.links.Keys);
  }
}
