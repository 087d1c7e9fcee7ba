/**
 scheduler/scheduler.go in its own form: the package-level maps and the cron instances as objects that
 change in place.  Each method runs under the source's lock and is proved to change the books of
 `Scheduling` as the step that stands for it.
 */
module Scheduler {
  import opened Scheduling
  import opened SchedulingRuns

  /** A cron instance; only a running one fires its entries. */
  class Cron {
    var entries: seq<Entry>
    var running: bool

    constructor ()
      ensures entries == [] && !running
    {
      entries, running := [], false;
    }

    method AddFunc(parses: string -> bool, schedule: string, job: Launch) returns (ok: bool)
      modifies this
      ensures ok == parses(schedule) && running == old(running)
      ensures entries == old(entries) + if ok then [Entry(schedule, job)] else []
    {
      ok := parses(schedule);
      if ok {
        entries := entries + [Entry(schedule, job)];
      }
    }

    method Start()
      modifies this
      ensures running && entries == old(entries)
    {
      running := true;
    }

    method Stop()
      modifies this
      ensures !running && entries == old(entries)
    {
      running := false;
    }
  }

  lemma RemoveThenSet<V>(m: map<Store, V>, store: Store, v: V)
    ensures (m - {store})[store := v] == m[store := v]
  {
  }

  class Scheduler {
    const parses: string -> bool
    var storeSchedulers: map<Store, Cron>
    var runningTasks: map<Store, set<nat>>
    var launched: multiset<Launch>  // the goroutines started and not yet running
    ghost var crons: set<Cron>             // every instance ever created,
    ghost var storeOf: map<Cron, Store>    // the store it was created for,
    ghost var entries: map<Store, seq<Entry>>  // and the entries of each store's current instance

    constructor (parses: string -> bool)
      ensures Valid() && View() == Init().books && this.parses == parses
    {
      this.parses := parses;
      storeSchedulers, runningTasks, launched := map[], map[], multiset{};
      crons, storeOf, entries := {}, map[], map[];
    }

    /** One live cron per store: the instances that run are exactly the ones in `storeSchedulers`. */
    ghost predicate Valid()
      reads this`storeSchedulers, this`crons, this`storeOf, this`entries, crons
    {
      && crons == storeOf.Keys
      && (forall c | c in crons :: c.running <==> storeOf[c] in storeSchedulers && storeSchedulers[storeOf[c]] == c)
      && (forall st | st in storeSchedulers :: storeSchedulers[st] in crons && storeOf[storeSchedulers[st]] == st)
      && entries.Keys == storeSchedulers.Keys
      && (forall st | st in storeSchedulers :: entries[st] == storeSchedulers[st].entries)
    }

    ghost function View(): Books
      reads this
    {
      Books(entries, runningTasks, launched)
    }

    method UpdateScheduler(store: Store, tasks: seq<Task>)
      requires Valid()
      modifies this, crons
      ensures Valid() && fresh(crons - old(crons)) && old(crons) <= crons
      ensures View() == UpdateStore(parses, old(View()), store, tasks)
    {
      ghost var before := View();
      StopCurrent(store);
      if |tasks| == 0 {
        return;
      }
      runningTasks := runningTasks[store := {}];
      var c := NewCron(store, tasks);
      Install(store, c);
      RemoveThenSet(before.schedulers, store, c.entries);
    }

    method StopCurrent(store: Store)
      requires Valid()
      modifies this`storeSchedulers, this`entries, crons
      ensures Valid() && View() == old(View()).(schedulers := old(View()).schedulers - {store})
      ensures store !in storeSchedulers
    {
      if store in storeSchedulers {
        var currentScheduler := storeSchedulers[store];
        currentScheduler.Stop();
        storeSchedulers := storeSchedulers - {store};
        entries := entries - {store};
      }
    }

    method Install(store: Store, c: Cron)
      requires Valid() && store !in storeSchedulers && c !in crons && c.running
      modifies this`storeSchedulers, this`crons, this`storeOf, this`entries
      ensures Valid() && crons == old(crons) + {c}
      ensures View() == old(View()).(schedulers := old(View()).schedulers[store := c.entries])
    {
      crons := crons + {c};
      storeOf := storeOf[c := store];
      storeSchedulers := storeSchedulers[store := c];
      entries := entries[store := c.entries];
    }

    method NewCron(store: Store, tasks: seq<Task>) returns (c: Cron)
      modifies this`launched
      ensures fresh(c) && c.running && c.entries == Entries(parses, store, tasks, |tasks|)
      ensures launched == old(launched) + multiset(Launches(store, tasks, |tasks|))
    {
      c := new Cron();
      AddTasks(c, store, tasks);
      c.Start();
    }

    /** The loop over the tasks of one store. */
    method AddTasks(c: Cron, store: Store, tasks: seq<Task>)
      requires c.entries == [] && !c.running
      modifies this`launched, c
      ensures c.entries == Entries(parses, store, tasks, |tasks|) && !c.running
      ensures launched == old(launched) + multiset(Launches(store, tasks, |tasks|))
    {
      for i := 0 to |tasks|
        invariant c.entries == Entries(parses, store, tasks, i) && !c.running
        invariant launched == old(launched) + multiset(Launches(store, tasks, i))
      {
        var t := tasks[i];
        if AtStartup(t.schedule) {
          launched := launched + multiset{Launch(Key(store, i), false)};
          continue;
        }
        var ok := c.AddFunc(parses, t.schedule, Launch(Key(store, i), t.allowConcurrent));
        if !ok {
          continue;
        }
      }
    }

    /** The range over the config map, in whatever order Go picks. */
    method OnConfigUpdate(config: map<Store, seq<Task>>) returns (ghost order: seq<Store>)
      requires Valid()
      modifies this, crons
      ensures Valid() && fresh(crons - old(crons)) && old(crons) <= crons
      ensures VisitsAll(config, order) && View() == UpdateAll(parses, old(View()), config, order)
    {
      order := [];
      var rest := config.Keys;
      while rest != {}
        invariant rest <= config.Keys
        invariant forall st | st in order :: st in config && st !in rest
        invariant forall st | st in config && st !in rest :: st in order
        invariant forall i, j | 0 <= i < j < |order| :: order[i] != order[j]
        invariant Valid() && fresh(crons - old(crons)) && old(crons) <= crons
        invariant View() == UpdateAll(parses, old(View()), config, order)
        decreases |rest|
      {
        var store :| store in rest;
        assert (order + [store])[..|order|] == order;
        UpdateScheduler(store, config[store]);
        rest := rest - {store};
        order := order + [store];
      }
    }

    /** A timer tick: only a running instance fires, so the entry belongs to some store's current cron. */
    method Fire(c: Cron, j: nat) returns (ghost store: Store)
      requires Valid() && c in crons && c.running && j < |c.entries|
      modifies this`launched
      ensures Valid() && store in storeSchedulers && storeSchedulers[store] == c
      ensures var b := old(View());
              store in b.schedulers && j < |b.schedulers[store]|
              && View() == b.(launched := b.launched + multiset{b.schedulers[store][j].job})
    {
      store := storeOf[c];
      launched := launched + multiset{c.entries[j].job};
    }

    method CanRunTask(k: Key, allowConcurrent: bool) returns (can: bool)
      ensures can <==> allowConcurrent || !IsMarked(runningTasks, k)
    {
      if allowConcurrent {
        return true;
      }
      return !(k.store in runningTasks && k.index in runningTasks[k.store]);
    }

    method CheckAndMarkTaskRunning(k: Key) returns (run: bool)
      requires Valid() && k.store in runningTasks
      modifies this`runningTasks
      ensures Valid() && run == !IsMarked(old(runningTasks), k)
      ensures View() == old(View()).(running := SetMark(old(runningTasks), k))
    {
      if k.index in runningTasks[k.store] {
        assert runningTasks[k.store] + {k.index} == runningTasks[k.store];
        return false;
      }
      runningTasks := runningTasks[k.store := runningTasks[k.store] + {k.index}];
      return true;
    }

    /** `runTask` up to the push, uninterrupted: the flag does not count. */
    method StartRun(k: Key, allowConcurrent: bool) returns (run: bool)
      requires Valid() && k.store in runningTasks
      modifies this`runningTasks
      ensures Valid() && run == !IsMarked(old(runningTasks), k)
      ensures View() == old(View()).(running := SetMark(old(runningTasks), k))
    {
      run := CanRunTask(k, allowConcurrent);
      if !run {
        assert runningTasks[k.store] + {k.index} == runningTasks[k.store];
        return;
      }
      run := CheckAndMarkTaskRunning(k);
    }

    method MarkTaskCompleted(k: Key)
      requires Valid()
      modifies this`runningTasks
      ensures Valid() && View() == old(View()).(running := ClearMark(old(runningTasks), k))
    {
      if k.store in runningTasks {
        runningTasks := runningTasks[k.store := runningTasks[k.store] - {k.index}];
      }
    }
  }
}
