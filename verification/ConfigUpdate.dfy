/**
 A config update on the server: it publishes the new config, for which it needs the subscription lock for
 a moment, and then pushes its migration tasks one by one and waits for each.  The handlers of an update
 run one after another, so one that never ends holds up all that come after it.
 */
module ConfigUpdate {
  import opened Dispatch
  import opened DispatchRuns
  import opened DispatchPanics
  import opened DispatchDiscipline
  import opened DispatchLock
  import opened DispatchProgress

  /** With `left` migration tasks still to push. */
  datatype Update = Publishing(left: nat) | Migrating(task: TaskId, left: nat) | Ended

  datatype Both = Both(server: State, update: Update)

  datatype Move =
    | Serve(d: Step)  // a step of the server
    | Publish
    | Next            // the result of the migration task is there

  predicate CanMove(x: Both, m: Move) {
    match m
    case Serve(d) => Enabled(x.server, d)
    case Publish => x.update.Publishing? && !x.server.crashed && LockFree(x.server.subs)
    case Next => x.update.Migrating? && !x.server.crashed && x.update.task in x.server.pool.outcomes
  }

  /** Push the next migration task, if there is one. */
  function Go(s: State, left: nat): Both
    requires !s.crashed
  {
    if left == 0 then Both(s, Ended) else Both(Apply(s, Push), Migrating(s.pool.sequence + 1, left - 1))
  }

  function Moved(x: Both, m: Move): Both
    requires CanMove(x, m)
  {
    match m
    case Serve(d) => x.(server := Apply(x.server, d))
    case Publish => Go(x.server, x.update.left)
    case Next => Go(x.server, x.update.left)
  }

  /** An honest continuation, with tasks and lock handed out in this order. */
  predicate Course(order: Order, x: Both, ms: seq<Move>, x': Both)
    decreases |ms|
  {
    if ms == [] then x == x'
    else
      && CanMove(x, ms[0]) && (ms[0].Serve? ==> Honest(x.server, ms[0].d) && order.Obeyed(x.server, ms[0].d))
      && Course(order, Moved(x, ms[0]), ms[1..], x')
  }

  ghost predicate CanEnd(order: Order, x: Both) {
    exists ms, x' :: Course(order, x, ms, x') && x'.update.Ended?
  }

  ghost predicate Blocked(x: Both) {
    match x.update
    case Publishing(_) => LockStuck(x.server)
    case Migrating(t, _) => BeyondHelp(x.server, t)
    case Ended => false
  }

  // ---------------------------------------------------------------- blocked for good

  lemma MoveBlocked(order: Order, x: Both, m: Move)
    requires Inv(x.server) && Blocked(x) && CanMove(x, m)
    requires m.Serve? ==> Unguessed(x.server, m.d)
    ensures m.Serve? && Inv(Moved(x, m).server) && Blocked(Moved(x, m))
  {
    if m.Serve? {
      StepInv(x.server, m.d);
      if x.update.Publishing? {
        StepLockStuck(x.server, m.d);
      } else {
        StepBeyondHelp(x.server, m.d, x.update.task);
      }
    }
  }

  lemma {:induction false} CourseBlocked(order: Order, x: Both, ms: seq<Move>, x': Both)
    requires Inv(x.server) && Blocked(x) && Course(order, x, ms, x')
    ensures Blocked(x')
    decreases |ms|
  {
    if ms != [] {
      if ms[0].Serve? {
        HonestIsUnguessed(x.server, ms[0].d);
      }
      MoveBlocked(order, x, ms[0]);
      CourseBlocked(order, Moved(x, ms[0]), ms[1..], x');
    }
  }

  // ---------------------------------------------------------------- otherwise it can end

  lemma EndLater(order: Order, x: Both, m: Move)
    requires CanMove(x, m) && (m.Serve? ==> Honest(x.server, m.d) && order.Obeyed(x.server, m.d))
    requires CanEnd(order, Moved(x, m))
    ensures CanEnd(order, x)
  {
    var ms, x' :| Course(order, Moved(x, m), ms, x') && x'.update.Ended?;
    assert ([m] + ms)[1..] == ms;
    assert Course(order, x, [m] + ms, x');
  }

  lemma {:induction false} EndAfterPath(order: Order, x: Both, path: seq<Step>, d: State)
    requires Path(order, x.server, path, d) && CanEnd(order, x.(server := d))
    ensures CanEnd(order, x)
    decreases |path|
  {
    if path == [] {
      assert x.(server := d) == x;
    } else {
      EndAfterPath(order, Moved(x, Serve(path[0])), path[1..], d);
      EndLater(order, x, Serve(path[0]));
    }
  }

  lemma EndAfterLead(order: Order, x: Both, d: State)
    requires Leads(order, x.server, d) && CanEnd(order, x.(server := d))
    ensures CanEnd(order, x)
  {
    var path :| Path(order, x.server, path, d);
    EndAfterPath(order, x, path, d);
  }

  /** A task that has still a result to come. */
  ghost predicate Promising(s: State, t: TaskId) {
    Sound(s) && Hearing(s) && s.pool.Issued(t) && !BeyondHelp(s, t)
  }

  lemma QueuedIsPromising(s: State, t: TaskId)
    requires Sound(s) && Hearing(s) && t in s.pool.queue
    ensures Promising(s, t)
  {
    QueuedIsNotBeyondHelp(s, t);
  }

  lemma PushedWaits(s: State)
    requires Sound(s) && Hearing(s)
    ensures Promising(Apply(s, Push), s.pool.sequence + 1)
  {
    StepSound(s, Push);
    PushQueues(s);
    QueuedIsPromising(Apply(s, Push), s.pool.sequence + 1);
  }

  lemma PushQueues(s: State)
    requires Enabled(s, Push)
    ensures var s' := Apply(s, Push);
            s.pool.sequence + 1 in s'.pool.queue && s'.subs == s.subs && s'.askers == s.askers
  {
    assert Apply(s, Push).pool.queue[|s.pool.queue|] == s.pool.sequence + 1;
  }

  lemma {:induction false} GoEnds(order: Order, s: State, left: nat)
    requires order.Admissible() && Sound(s) && Hearing(s)
    ensures CanEnd(order, Go(s, left))
    decreases left, 0
  {
    if left == 0 {
      assert Course(order, Go(s, 0), [], Go(s, 0));
    } else {
      PushedWaits(s);
      MigratingEnds(order, Apply(s, Push), s.pool.sequence + 1, left - 1);
    }
  }

  lemma {:induction false} MigratingEnds(order: Order, s: State, t: TaskId, left: nat)
    requires order.Admissible() && Promising(s, t)
    ensures CanEnd(order, Both(s, Migrating(t, left)))
    decreases left, 1
  {
    var d := ResultReachable(order, s, t);
    LeadsSound(order, s, d);
    GoEnds(order, d, left);
    NextEnds(order, Both(s, Migrating(t, left)), d);
  }

  lemma NextEnds(order: Order, x: Both, d: State)
    requires x.update.Migrating? && !d.crashed && x.update.task in d.pool.outcomes
    requires Leads(order, x.server, d) && CanEnd(order, Go(d, x.update.left))
    ensures CanEnd(order, x)
  {
    EndLater(order, x.(server := d), Next);
    EndAfterLead(order, x, d);
  }

  lemma Unlocked(order: Order, s: State) returns (s': State)
    requires order.Admissible() && Sound(s) && Hearing(s) && !LockStuck(s)
    ensures Leads(order, s, s') && LockFree(s'.subs)
  {
    if Hear(s) {
      s' := FreeLock(order, s);
    } else {
      s' := ServeAll(order, s);
    }
  }

  /** Exactly when a config update can still come to its end, whatever the order. */
  lemma CanEndIff(order: Order, x: Both)
    requires order.Admissible() && Sound(x.server) && Hearing(x.server)
    requires x.update.Migrating? ==> x.server.pool.Issued(x.update.task)
    ensures CanEnd(order, x) <==> !Blocked(x)
  {
    if Blocked(x) {
      if CanEnd(order, x) {
        var ms, x' :| Course(order, x, ms, x') && x'.update.Ended?;
        CourseBlocked(order, x, ms, x');
        assert false;
      }
    } else {
      match x.update
      case Publishing(left) =>
        var d := Unlocked(order, x.server);
        LeadsSound(order, x.server, d);
        GoEnds(order, d, left);
        EndLater(order, x.(server := d), Publish);
        EndAfterLead(order, x, d);
      case Migrating(t, left) => MigratingEnds(order, x.server, t, left);
      case Ended => assert Course(order, x, [], x);
    }
  }
}
