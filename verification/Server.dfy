/**
 intranet/server.go in its own form: the task queue, the handlers and the watcher as objects that
 change in place.  Each method is one segment that no other goroutine can interrupt, and is proved
 to make the step of `Dispatch` that stands for it; the full handlers are runs of their segments.
 */
module Server {
  import opened Dispatch
  import opened DispatchRuns

  datatype Reply = Task(id: TaskId) | Nil | InvalidArguments

  /** The taskq package. */
  class TaskQueue {
    const start: nat
    var sequence: nat
    var queue: seq<TaskId>
    var outcomes: map<TaskId, Outcome>

    constructor (start: nat)
      ensures View() == Pool(start, start, [], map[])
    {
      this.start, sequence, queue, outcomes := start, start, [], map[];
    }

    function View(): Pool
      reads this
    {
      Pool(start, sequence, queue, outcomes)
    }

    method Push() returns (t: TaskId)
      modifies this
      ensures View() == old(View()).Push() && t == sequence
    {
      sequence := sequence + 1;
      queue := queue + [sequence];
      t := sequence;
    }

    method Shift(i: nat) returns (t: TaskId)
      requires i < |queue|
      modifies this
      ensures View() == old(View()).Shift(i) && t == old(queue)[i]
    {
      t := queue[i];
      queue := queue[..i] + queue[i + 1..];
    }

    method UnShift(t: TaskId)
      modifies this
      ensures View() == old(View()).UnShift(t)
    {
      queue := queue + [t];
    }

    method Done(t: TaskId, o: Outcome)
      modifies this
      ensures View() == old(View()).Done(t, o)
    {
      if start < t <= sequence && t !in outcomes {
        outcomes := outcomes[t := o];
      }
    }

    /** The loop over a lost worker's tasks, in the arbitrary order of a Go map, uninterrupted. */
    method FailTasks(ts: set<TaskId>) returns (ghost order: seq<TaskId>)
      modifies this
      ensures View() == old(View()).FailAll(ts)
      ensures NoDup(order) && forall t :: t in order <==> t in ts
    {
      var rest := ts;
      order := [];
      ghost var failed: set<TaskId> := {};
      assert View().FailAll({}).outcomes == outcomes;
      while rest != {}
        invariant failed + rest == ts && failed !! rest
        invariant NoDup(order) && forall t :: t in order <==> t in failed
        invariant View() == old(View()).FailAll(failed)
        decreases |rest|
      {
        var t :| t in rest;
        FailOneMore(old(View()), failed, t);
        Done(t, WORKER_LOST);
        rest, failed, order := rest - {t}, failed + {t}, order + [t];
      }
    }
  }

  const TWO_TO_THE_64: real := 18446744073709551616.0

  /**
   The conversion `uint64(id)` of a float64 argument: it drops the fraction; out of range it depends on
   the platform.
   */
  function ToTaskId(v: real, unspecified: TaskId): TaskId {
    if 0.0 <= v < TWO_TO_THE_64 then v.Floor
    else if -1.0 < v < 0.0 then 0
    else unspecified
  }

  class Server {
    const taskq: TaskQueue
    const unspecified: TaskId  // what the platform's uint64 conversion yields outside its range
    var taskWatchChan: seq<Keeper>
    var workerTasks: Tasks
    var closing: set<TaskId>  // the rest of the watcher's disconnect loop
    var panicked: bool
    var links: map<Worker, Link>
    var subs: map<Worker, Sub>  // the subscription lock of the wango server, and who waits for it
    var askers: map<Handler, Worker>
    var getters: map<Handler, Getter>
    var reporters: map<Handler, Reporter>
    ghost var held: Tasks
    ghost var delivered: map<TaskId, Worker>

    constructor (start: nat, unspecified: TaskId)
      ensures View() == Init(start) && fresh(taskq)
    {
      taskq := new TaskQueue(start);
      this.unspecified := unspecified;
      taskWatchChan, workerTasks, closing, panicked := [], map[], {}, false;
      links, subs, askers, getters, reporters := map[], map[], map[], map[], map[];
      held, delivered := map[], map[];
    }

    ghost function View(): State
      reads this, taskq
    {
      State(taskq.View(), askers, getters, reporters, taskWatchChan, links, subs, workerTasks, closing, panicked, held, delivered)
    }

    method PushTask() returns (t: TaskId)
      requires Enabled(View(), Step.Push)
      modifies taskq
      ensures View() == Apply(old(View()), Step.Push) && t == View().pool.sequence
    {
      t := taskq.Push();
    }

    // ------------------------------------------------------------ taskGetHandler

    /** The receive loop reads the call, and its handler waits in `taskq.Shift`. */
    method AskForTask(h: Handler, w: Worker)
      requires Enabled(View(), Ask(h, w))
      modifies this
      ensures View() == Apply(old(View()), Ask(h, w))
    {
      askers := askers[h := w];
    }

    method TakeFromQueue(h: Handler, i: nat)
      requires Enabled(View(), Step.Shift(h, i))
      modifies this, taskq
      ensures View() == Apply(old(View()), Step.Shift(h, i))
    {
      var t := taskq.Shift(i);
      getters := getters[h := Getter(askers[h], t, Shifted)];
      askers := askers - {h};
    }

    method CheckConnected(h: Handler) returns (connected: bool)
      requires Enabled(View(), Check(h))
      modifies this
      ensures View() == Apply(old(View()), Check(h))
      ensures connected <==> getters[h].pc == Checked
    {
      var g := getters[h];
      connected := links[g.worker] == Open;
      getters := getters[h := g.(pc := if connected then Checked else Refused)];
    }

    method SendRegistration(h: Handler) returns (t: TaskId)
      requires Enabled(View(), Register(h))
      modifies this
      ensures View() == Apply(old(View()), Register(h)) && t == old(getters)[h].task
    {
      var g := getters[h];
      t := g.task;
      taskWatchChan := taskWatchChan + [Keeper(g.worker, g.task, false)];
      held := held[g.worker := held[g.worker] + {g.task}];
      delivered := delivered[g.task := g.worker];
      getters := getters - {h};
    }

    method ReturnToQueue(h: Handler)
      requires Enabled(View(), Step.UnShift(h))
      modifies this, taskq
      ensures View() == Apply(old(View()), Step.UnShift(h))
    {
      taskq.UnShift(getters[h].task);
      getters := getters - {h};
    }

    /** Uninterrupted from `Shift` on, the handler gives the task to an open connection or puts it back. */
    method TaskGetHandler(h: Handler, i: nat) returns (reply: Reply)
      requires Enabled(View(), Step.Shift(h, i)) && askers[h] in links && askers[h] in held
      modifies this, taskq
      ensures var open := old(links)[old(askers)[h]] == Open;
              var tr := [Step.Shift(h, i), Check(h), if open then Register(h) else Step.UnShift(h)];
              && Legal(old(View()), tr) && View() == After(old(View()), tr)
              && reply == if open then Task(old(taskq.queue)[i]) else Nil
    {
      ghost var s := View();
      TakeFromQueue(h, i);
      var connected := CheckConnected(h);
      ghost var last := if connected then Register(h) else Step.UnShift(h);
      ThreeSteps(s, Step.Shift(h, i), Check(h), last);
      if connected {
        var t := SendRegistration(h);
        return Task(t);
      }
      ReturnToQueue(h);
      return Nil;
    }

    // ------------------------------------------------------------ taskDoneHandler, taskErrorHandler

    /** The receive loop reads the call and starts its handler. */
    method ReadReport(h: Handler, w: Worker, t: TaskId, o: Outcome)
      requires Enabled(View(), Receive(h, w, t, o))
      modifies this
      ensures View() == Apply(old(View()), Receive(h, w, t, o))
    {
      reporters := reporters[h := Reporter(w, t, Called(o))];
    }

    method DeliverResult(h: Handler)
      requires Enabled(View(), Step.Done(h))
      modifies this, taskq
      ensures View() == Apply(old(View()), Step.Done(h))
    {
      var r := reporters[h];
      taskq.Done(r.task, r.pc.outcome);
      reporters := reporters[h := r.(pc := Delivered)];
    }

    method SendDone(h: Handler)
      requires Enabled(View(), Report(h))
      modifies this
      ensures View() == Apply(old(View()), Report(h))
    {
      var r := reporters[h];
      taskWatchChan := taskWatchChan + [Keeper(r.worker, r.task, true)];
      held := held[r.worker := held[r.worker] - {r.task}];
      reporters := reporters - {h};
    }

    method TaskDoneHandler(h: Handler, w: Worker, args: seq<Value>) returns (reply: Reply)
      requires !panicked && Fresh(View(), h) && Reading(View(), w) && w in held
      modifies this, taskq
      ensures reply == InvalidArguments <==> |args| < 2 || !args[0].Number?
      ensures reply == InvalidArguments ==> View() == old(View())
      ensures reply != InvalidArguments ==>
                var t := ToTaskId(args[0].value, unspecified);
                var tr := [Receive(h, w, t, Result(args[1])), Step.Done(h), Report(h)];
                && reply == Nil && Legal(old(View()), tr) && View() == After(old(View()), tr)
                && (old(View()).pool.Issued(t) && t !in old(View()).pool.outcomes ==>
                      t in View().pool.outcomes && View().pool.outcomes[t] == Result(args[1]))
    {
      if |args| < 2 {
        return InvalidArguments;
      }
      if !args[0].Number? {
        return InvalidArguments;
      }
      var id := ToTaskId(args[0].value, unspecified);
      ThreeSteps(View(), Receive(h, w, id, Result(args[1])), Step.Done(h), Report(h));
      ReadReport(h, w, id, Result(args[1]));
      DeliverResult(h);
      SendDone(h);
      return Nil;
    }

    method TaskErrorHandler(h: Handler, w: Worker, args: seq<Value>) returns (reply: Reply)
      requires !panicked && Fresh(View(), h) && Reading(View(), w) && w in held
      modifies this, taskq
      ensures reply == InvalidArguments <==> |args| < 2 || !args[0].Number? || !args[1].Text?
      ensures reply == InvalidArguments ==> View() == old(View())
      ensures reply != InvalidArguments ==>
                var t := ToTaskId(args[0].value, unspecified);
                var tr := [Receive(h, w, t, Error(args[1].text)), Step.Done(h), Report(h)];
                && reply == Nil && Legal(old(View()), tr) && View() == After(old(View()), tr)
                && (old(View()).pool.Issued(t) && t !in old(View()).pool.outcomes ==>
                      t in View().pool.outcomes && View().pool.outcomes[t] == Error(args[1].text))
    {
      if |args| < 2 {
        return InvalidArguments;
      }
      if !args[0].Number? {
        return InvalidArguments;
      }
      if !args[1].Text? {
        return InvalidArguments;
      }
      var id := ToTaskId(args[0].value, unspecified);
      ThreeSteps(View(), Receive(h, w, id, Error(args[1].text)), Step.Done(h), Report(h));
      ReadReport(h, w, id, Error(args[1].text));
      DeliverResult(h);
      SendDone(h);
      return Nil;
    }

    // ------------------------------------------------------------ connections and the watcher

    /** The receive loop comes to a call that needs the subscription lock. */
    method ReadSubscription(w: Worker, store: bool)
      requires Enabled(View(), Subscribe(w, store))
      modifies this
      ensures View() == Apply(old(View()), Subscribe(w, store))
    {
      subs := subs[w := Waiting(store)];
    }

    /** It gets the lock; a subscription to a store pushes its task and keeps the lock. */
    method EnterSubscription(w: Worker)
      requires Enabled(View(), Enter(w))
      modifies this, taskq
      ensures View() == Apply(old(View()), Enter(w))
    {
      if subs[w].store {
        var t := taskq.Push();
        subs := subs[w := Pending(t)];
      } else {
        subs := subs - {w};
      }
    }

    /** The task has its result: the lock is released, and the connection is read again. */
    method EndSubscription(w: Worker)
      requires Enabled(View(), Release(w))
      modifies this
      ensures View() == Apply(old(View()), Release(w))
    {
      subs := subs - {w};
    }

    /** The connected flag drops; the subscription lock is needed next. */
    method ConnectionLost(w: Worker)
      requires Enabled(View(), Lose(w))
      modifies this
      ensures View() == Apply(old(View()), Lose(w))
    {
      links := links[w := Lost];
    }

    /** The lock was free for a moment; the close callback now waits for the watcher. */
    method ConnectionLeaves(w: Worker)
      requires Enabled(View(), Leave(w))
      modifies this
      ensures View() == Apply(old(View()), Leave(w))
    {
      links := links[w := Leaving];
    }

    method WatcherTakesTask()
      requires Enabled(View(), WatchTask)
      modifies this
      ensures View() == Apply(old(View()), WatchTask)
    {
      var t := taskWatchChan[0];
      taskWatchChan := taskWatchChan[1..];
      if t.done {
        if t.worker in workerTasks {
          workerTasks := workerTasks[t.worker := workerTasks[t.worker] - {t.task}];
        }
      } else if t.worker in workerTasks {
        workerTasks := workerTasks[t.worker := workerTasks[t.worker] + {t.task}];
      } else {
        panicked := true;
      }
    }

    method WatcherTakesConnect(w: Worker)
      requires Enabled(View(), Connect(w))
      modifies this
      ensures View() == Apply(old(View()), Connect(w))
    {
      links := links[w := Open];
      workerTasks := workerTasks[w := {}];
      held := held[w := {}];
    }

    method WatcherTakesDisconnect(w: Worker)
      requires Enabled(View(), Disconnect(w))
      modifies this, taskq
      ensures View() == Apply(old(View()), Disconnect(w))
    {
      links := links[w := Closed];
      if w !in workerTasks || workerTasks[w] == {} {
        return;
      }
      closing, workerTasks := workerTasks[w], workerTasks - {w};
    }

    /** One round of the disconnect loop; between two rounds any other goroutine can run. */
    method WatcherFailsTask(t: TaskId)
      requires Enabled(View(), Step.Fail(t))
      modifies this, taskq
      ensures View() == Apply(old(View()), Step.Fail(t))
    {
      taskq.Done(t, WORKER_LOST);
      closing := closing - {t};
    }

    /** Uninterrupted: fails all tasks of the entry, in some order that does not show, and deletes it. */
    method HandleDisconnect(w: Worker) returns (ghost order: seq<TaskId>)
      requires Enabled(View(), Disconnect(w))
      modifies this, taskq
      ensures var tr := [Disconnect(w)] + Fails(order);
              Legal(old(View()), tr) && View() == After(old(View()), tr)
      ensures View().pool == old(View()).pool.FailAll(TasksOf(old(workerTasks), w)) && closing == {}
    {
      ghost var s := View();
      links := links[w := Closed];
      order := FailEntry(w);
      DisconnectThenFails(s, w, order);
    }

    method FailEntry(w: Worker) returns (ghost order: seq<TaskId>)
      modifies this`workerTasks, taskq
      ensures taskq.View() == old(taskq.View()).FailAll(TasksOf(old(workerTasks), w))
      ensures workerTasks == if TasksOf(old(workerTasks), w) == {} then old(workerTasks) else old(workerTasks) - {w}
      ensures NoDup(order) && forall t :: t in order <==> t in TasksOf(old(workerTasks), w)
    {
      order := [];
      if w !in workerTasks || workerTasks[w] == {} {
        assert taskq.View().FailAll({}).outcomes == taskq.outcomes;
        return;
      }
      order := taskq.FailTasks(workerTasks[w]);
      workerTasks := workerTasks - {w};
    }
  }

  /** The steps of a disconnect and its loop, one after the other. */
  lemma DisconnectThenFails(s: State, w: Worker, order: seq<TaskId>)
    requires Enabled(s, Disconnect(w))
    requires NoDup(order) && forall t :: t in order <==> t in TasksOf(s.table, w)
    ensures var tr := [Disconnect(w)] + Fails(order);
            && Legal(s, tr)
            && After(s, tr) == s.(pool := s.pool.FailAll(TasksOf(s.table, w)), links := s.links[w := Closed],
                                  table := if TasksOf(s.table, w) == {} then s.table else s.table - {w})
  {
    FailsRun(Apply(s, Disconnect(w)), order);
    assert ([Disconnect(w)] + Fails(order))[1..] == Fails(order);
  }

  lemma FailOneMore(p: Pool, ts: set<TaskId>, t: TaskId)
    ensures p.FailAll(ts).Done(t, WORKER_LOST) == p.FailAll(ts + {t})
  {
    assert p.FailAll(ts).Done(t, WORKER_LOST).outcomes == p.FailAll(ts + {t}).outcomes;
  }

  lemma TwoSteps(s: State, a: Step, b: Step)
    requires Enabled(s, a) && Enabled(Apply(s, a), b)
    ensures Legal(s, [a, b]) && After(s, [a, b]) == Apply(Apply(s, a), b)
  {
    assert [a, b][1..] == [b];
    assert After(Apply(s, a), [b]) == Apply(Apply(s, a), b);
  }

  lemma ThreeSteps(s: State, a: Step, b: Step, c: Step)
    requires Enabled(s, a) && Enabled(Apply(s, a), b) && Enabled(Apply(Apply(s, a), b), c)
    ensures Legal(s, [a, b, c]) && After(s, [a, b, c]) == Apply(Apply(Apply(s, a), b), c)
  {
    assert [a, b, c][1..] == [b, c];
    TwoSteps(Apply(s, a), b, c);
  }
}
