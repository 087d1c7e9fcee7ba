/** The accounting law of the scheduler's running marks, over every run of the code as written. */
module SchedulingRuns {
  import opened Scheduling

  // ---------------------------------------------------------------- updateScheduler

  lemma {:induction false} LaunchesAre(store: Store, tasks: seq<Task>, n: nat, i: nat)
    requires n <= |tasks|
    ensures forall l | l in Launches(store, tasks, n) :: l.key.store == store && l.key.index < n && !l.allowConcurrent
    ensures multiset(Launches(store, tasks, n))[Launch(Key(store, i), false)]
            == if i < n && AtStartup(tasks[i].schedule) then 1 else 0
  {
    if n > 0 {
      LaunchesAre(store, tasks, n - 1, i);
    }
  }

  lemma {:induction false} EntriesAre(parses: string -> bool, store: Store, tasks: seq<Task>, n: nat)
    requires n <= |tasks|
    ensures forall e | e in Entries(parses, store, tasks, n) ::
              && e.job.key.store == store && e.job.key.index < n
              && e == Entry(tasks[e.job.key.index].schedule,
                            Launch(e.job.key, tasks[e.job.key.index].allowConcurrent))
    ensures forall i, j | 0 <= i < j < |Entries(parses, store, tasks, n)| ::
              Entries(parses, store, tasks, n)[i].job.key.index < Entries(parses, store, tasks, n)[j].job.key.index
  {
    if n > 0 {
      EntriesAre(parses, store, tasks, n - 1);
    }
  }

  predicate HasEntry(entries: seq<Entry>, i: nat) {
    exists j | 0 <= j < |entries| :: entries[j].job.key.index == i
  }

  lemma {:induction false} EntryIff(parses: string -> bool, store: Store, tasks: seq<Task>, n: nat, i: nat)
    requires n <= |tasks|
    ensures HasEntry(Entries(parses, store, tasks, n), i) <==>
            i < n && !AtStartup(tasks[i].schedule) && parses(tasks[i].schedule)
  {
    if n > 0 {
      EntryIff(parses, store, tasks, n - 1, i);
      EntriesAre(parses, store, tasks, n - 1);
      var es, es' := Entries(parses, store, tasks, n - 1), Entries(parses, store, tasks, n);
      assert es <= es';
      if HasEntry(es, i) {
        var j :| 0 <= j < |es| && es[j].job.key.index == i;
        assert es'[j].job.key.index == i;
      }
      if |es'| > |es| {
        assert es'[|es|].job.key.index == n - 1;
      }
    }
  }

  /**
   `updateScheduler` sorts the task indices into three classes.  Index `i` is launched once at startup,
   or registered in the new cron exactly once with its own index and flag, or rejected by cron; the
   mark set starts empty; other stores keep their cron and their marks.
   */
  lemma UpdatePartitions(parses: string -> bool, b: Books, store: Store, tasks: seq<Task>, i: nat)
    requires i < |tasks|
    ensures var b' := UpdateStore(parses, b, store, tasks);
            var t, now, es := tasks[i], Launch(Key(store, i), false), b'.schedulers[store];
            && b'.launched[now] == b.launched[now] + (if t.schedule in {"@reboot", "@startup", "@start"} then 1 else 0)
            && (HasEntry(es, i) <==> t.schedule !in {"@reboot", "@startup", "@start"} && parses(t.schedule))
            && (forall j | 0 <= j < |es| && es[j].job.key.index == i ::
                  es[j] == Entry(t.schedule, Launch(Key(store, i), t.allowConcurrent)))
            && (forall j, j' | 0 <= j < |es| && 0 <= j' < |es|
                               && es[j].job.key.index == es[j'].job.key.index :: j == j')
            && store in b'.running && b'.running[store] == {}
            && b'.schedulers - {store} == b.schedulers - {store} && b'.running - {store} == b.running - {store}
  {
    LaunchesAre(store, tasks, |tasks|, i);
    EntryIff(parses, store, tasks, |tasks|, i);
    EntriesOnce(parses, store, tasks, i);
  }

  lemma EntriesOnce(parses: string -> bool, store: Store, tasks: seq<Task>, i: nat)
    requires i < |tasks|
    ensures var es := Entries(parses, store, tasks, |tasks|);
            && (forall j | 0 <= j < |es| && es[j].job.key.index == i ::
                  es[j] == Entry(tasks[i].schedule, Launch(Key(store, i), tasks[i].allowConcurrent)))
            && (forall j, j' | 0 <= j < |es| && 0 <= j' < |es|
                               && es[j].job.key.index == es[j'].job.key.index :: j == j')
  {
    EntriesAre(parses, store, tasks, |tasks|);
    var es := Entries(parses, store, tasks, |tasks|);
    forall j | 0 <= j < |es| && es[j].job.key.index == i
      ensures es[j] == Entry(tasks[i].schedule, Launch(Key(store, i), tasks[i].allowConcurrent))
    {
      assert es[j] in es;
    }
  }

  /** The crons a config update creates. */
  function NewCrons(parses: string -> bool, c: map<Store, seq<Task>>): map<Store, seq<Entry>> {
    map st | st in c && c[st] != [] :: Entries(parses, st, c[st], |c[st]|)
  }

  /** The mark sets a config update resets. */
  function NewMarks(c: map<Store, seq<Task>>): map<Store, set<nat>> {
    map st | st in c && c[st] != [] :: {}
  }

  /** How many times a config update launches a goroutine. */
  function LaunchCount(c: map<Store, seq<Task>>, l: Launch): nat {
    var st := l.key.store;
    if st in c then multiset(Launches(st, c[st], |c[st]|))[l] else 0
  }

  /** What a config update does to the books, whatever order the stores are visited in. */
  ghost predicate UpdatedBy(parses: string -> bool, b: Books, c: map<Store, seq<Task>>, b': Books) {
    && b'.schedulers == (b.schedulers - c.Keys) + NewCrons(parses, c)
    && b'.running == b.running + NewMarks(c)
    && forall l: Launch :: b'.launched[l] == b.launched[l] + LaunchCount(c, l)
  }

  /** `UpdatedBy` leaves no choice. */
  lemma UpdatedByIsExact(parses: string -> bool, b: Books, c: map<Store, seq<Task>>, b1: Books, b2: Books)
    requires UpdatedBy(parses, b, c, b1) && UpdatedBy(parses, b, c, b2)
    ensures b1 == b2
  {
    assert b1.launched == b2.launched;
  }

  lemma LaunchedOneMore(before: multiset<Launch>, c: map<Store, seq<Task>>, now: multiset<Launch>,
                        store: Store, tasks: seq<Task>, l: Launch)
    requires store !in c && now[l] == before[l] + LaunchCount(c, l)
    ensures (now + multiset(Launches(store, tasks, |tasks|)))[l] == before[l] + LaunchCount(c[store := tasks], l)
  {
    LaunchesAre(store, tasks, |tasks|, 0);
    if l.key.store != store {
      assert l !in Launches(store, tasks, |tasks|);
    }
  }

  lemma ReplaceOneMore<V>(m: map<Store, V>, ks: set<Store>, n: map<Store, V>, store: Store, v: V)
    requires store !in ks && n.Keys <= ks
    ensures (m - (ks + {store})) + n == ((m - ks) + n) - {store}
    ensures (m - (ks + {store})) + n[store := v] == ((m - ks) + n)[store := v]
  {
  }

  lemma CronsOneMore(parses: string -> bool, m: map<Store, seq<Entry>>, c: map<Store, seq<Task>>,
                     store: Store, tasks: seq<Task>)
    requires store !in c
    ensures var now := (m - c.Keys) + NewCrons(parses, c);
            (m - c[store := tasks].Keys) + NewCrons(parses, c[store := tasks])
            == if tasks == [] then now - {store} else now[store := Entries(parses, store, tasks, |tasks|)]
  {
    var es := Entries(parses, store, tasks, |tasks|);
    assert NewCrons(parses, c[store := tasks])
           == if tasks == [] then NewCrons(parses, c) else NewCrons(parses, c)[store := es];
    assert c[store := tasks].Keys == c.Keys + {store};
    ReplaceOneMore(m, c.Keys, NewCrons(parses, c), store, es);
  }

  lemma MarksOneMore(m: map<Store, set<nat>>, c: map<Store, seq<Task>>, store: Store, tasks: seq<Task>)
    requires store !in c
    ensures var now := m + NewMarks(c);
            m + NewMarks(c[store := tasks]) == if tasks == [] then now else now[store := {}]
  {
    assert NewMarks(c[store := tasks]) == if tasks == [] then NewMarks(c) else NewMarks(c)[store := {}];
  }

  lemma UpdateOneMore(parses: string -> bool, b: Books, c: map<Store, seq<Task>>, b1: Books,
                      store: Store, tasks: seq<Task>)
    requires UpdatedBy(parses, b, c, b1) && store !in c
    ensures UpdatedBy(parses, b, c[store := tasks], UpdateStore(parses, b1, store, tasks))
  {
    forall l: Launch
      ensures UpdateStore(parses, b1, store, tasks).launched[l] == b.launched[l] + LaunchCount(c[store := tasks], l)
    {
      LaunchedOneMore(b.launched, c, b1.launched, store, tasks, l);
    }
    CronsOneMore(parses, b.schedulers, c, store, tasks);
    MarksOneMore(b.running, c, store, tasks);
  }

  /** A config update that visits the stores of `c` in the given order. */
  function UpdateAll(parses: string -> bool, b: Books, c: map<Store, seq<Task>>, order: seq<Store>): Books
    requires forall st | st in order :: st in c
    decreases |order|
  {
    if order == [] then b
    else
      var last := order[|order| - 1];
      UpdateStore(parses, UpdateAll(parses, b, c, order[..|order| - 1]), last, c[last])
  }

  /** The part of the config that `order` visits. */
  function Visited(c: map<Store, seq<Task>>, order: seq<Store>): map<Store, seq<Task>>
    requires forall st | st in order :: st in c
  {
    map st | st in order :: c[st]
  }

  lemma VisitedOneMore(c: map<Store, seq<Task>>, front: seq<Store>, last: Store)
    requires last in c && forall st | st in front :: st in c
    ensures Visited(c, front + [last]) == Visited(c, front)[last := c[last]]
  {
  }

  lemma UpdatedByNothing(parses: string -> bool, b: Books)
    ensures UpdatedBy(parses, b, map[], b)
  {
    assert NewCrons(parses, map[]) == map[] && NewMarks(map[]) == map[];
  }

  lemma {:induction false} UpdateAllIsUpdatedBy(parses: string -> bool, b: Books, c: map<Store, seq<Task>>,
                                                order: seq<Store>)
    requires forall st | st in order :: st in c
    requires forall i, j | 0 <= i < j < |order| :: order[i] != order[j]
    ensures UpdatedBy(parses, b, Visited(c, order), UpdateAll(parses, b, c, order))
    decreases |order|
  {
    if order == [] {
      assert Visited(c, order) == map[];
      UpdatedByNothing(parses, b);
    } else {
      var last, front := order[|order| - 1], order[..|order| - 1];
      assert order == front + [last];
      VisitedOneMore(c, front, last);
      UpdateAllIsUpdatedBy(parses, b, c, front);
      UpdateOneMore(parses, b, Visited(c, front), UpdateAll(parses, b, c, front), last, c[last]);
    }
  }

  /** Two updates that visit all stores of the same config, each once, leave the same books. */
  lemma UpdateOrderDoesNotShow(parses: string -> bool, b: Books, c: map<Store, seq<Task>>,
                               order1: seq<Store>, order2: seq<Store>)
    requires VisitsAll(c, order1) && VisitsAll(c, order2)
    ensures UpdateAll(parses, b, c, order1) == UpdateAll(parses, b, c, order2)
  {
    UpdateAllIsUpdatedBy(parses, b, c, order1);
    UpdateAllIsUpdatedBy(parses, b, c, order2);
    assert Visited(c, order1) == c == Visited(c, order2);
    UpdatedByIsExact(parses, b, c, UpdateAll(parses, b, c, order1), UpdateAll(parses, b, c, order2));
  }

  predicate VisitsAll(c: map<Store, seq<Task>>, order: seq<Store>) {
    && (forall st | st in order :: st in c)
    && (forall st | st in c :: st in order)
    && (forall i, j | 0 <= i < j < |order| :: order[i] != order[j])
  }

  // ---------------------------------------------------------------- counting runs

  lemma AddRun(runs: map<RunId, Run>, r: RunId, run: Run, k: Key)
    requires r !in InFlight(runs, k)
    ensures |InFlight(runs[r := run], k)|
            == |InFlight(runs, k)| + (if run.key == k && run.pc != Checked then 1 else 0)
  {
    if run.key == k && run.pc != Checked {
      assert InFlight(runs[r := run], k) == InFlight(runs, k) + {r};
    } else {
      assert InFlight(runs[r := run], k) == InFlight(runs, k);
    }
  }

  lemma DropRun(runs: map<RunId, Run>, r: RunId, k: Key)
    requires r in runs
    ensures |InFlight(runs - {r}, k)|
            == |InFlight(runs, k)| - (if runs[r].key == k && runs[r].pc != Checked then 1 else 0)
  {
    assert InFlight(runs - {r}, k) == InFlight(runs, k) - {r};
  }

  lemma MoveRun(runs: map<RunId, Run>, r: RunId, pc: Pc, k: Key)
    requires r in runs && runs[r].pc != Checked && pc != Checked
    ensures InFlight(runs[r := Run(runs[r].key, pc)], k) == InFlight(runs, k)
  {
  }

  lemma MarkBalances(runs: map<RunId, Run>, r: RunId, k: Key)
    requires r in runs && runs[r].pc == Checked
    ensures |InFlight(runs - {r}, k)| == |InFlight(runs, k)|
    ensures |InFlight(runs[r := Run(runs[r].key, Marked)], k)| == |InFlight(runs, k)| + (if runs[r].key == k then 1 else 0)
  {
    DropRun(runs, r, k);
    AddRun(runs, r, Run(runs[r].key, Marked), k);
  }

  /** A reset erases a mark and says so. */
  lemma UpdateBalances(parses: string -> bool, s: State, store: Store, tasks: seq<Task>, k: Key)
    requires Enabled(s, Update(store, tasks)) && Balanced(s, k)
    ensures Balanced(Apply(parses, s, Update(store, tasks)), k)
  {
    var s' := Apply(parses, s, Update(store, tasks));
    assert s'.runs == s.runs && s'.blanks == s.blanks;
    if tasks != [] && k.store == store {
      assert MarkCount(s'.books.running, k) == 0;
      assert multiset(Marks(s.books.running, store))[k] == MarkCount(s.books.running, k);
      assert s'.erased[k] == s.erased[k] + MarkCount(s.books.running, k);
    } else {
      assert k !in Marks(s.books.running, store) || tasks == [];
      assert s'.erased[k] == s.erased[k];
    }
  }

  /** A completion clears the mark, or says that there was none. */
  lemma CompleteBalances(parses: string -> bool, s: State, r: RunId, k: Key)
    requires Enabled(s, Complete(r)) && Balanced(s, k)
    ensures Balanced(Apply(parses, s, Complete(r)), k)
  {
    DropRun(s.runs, r, k);
  }

  lemma StepBalanced(parses: string -> bool, s: State, step: Step, k: Key)
    requires Enabled(s, step) && Balanced(s, k)
    ensures Balanced(Apply(parses, s, step), k)
  {
    match step
    case Update(st, tasks) => UpdateBalances(parses, s, st, tasks, k);
    case Fire(_, _) =>
    case Begin(l, r) => AddRun(s.runs, r, Run(l.key, Checked), k);
    case Mark(r) => MarkBalances(s.runs, r, k);
    case Push(r, t) => MoveRun(s.runs, r, Waiting(t), k);
    case Answer(r) => MoveRun(s.runs, r, Answered, k);
    case Complete(r) => CompleteBalances(parses, s, r, k);
  }

  lemma UpdateStores(parses: string -> bool, b: Books, store: Store, tasks: seq<Task>)
    requires SchedulersKnown(b.schedulers, b.running.Keys) && LaunchedKnown(b.launched, b.running.Keys)
    ensures var b' := UpdateStore(parses, b, store, tasks);
            && b.running.Keys <= b'.running.Keys
            && SchedulersKnown(b'.schedulers, b'.running.Keys) && LaunchedKnown(b'.launched, b'.running.Keys)
  {
    LaunchesAre(store, tasks, |tasks|, 0);
    EntriesAre(parses, store, tasks, |tasks|);
  }

  lemma FireStores(launched: multiset<Launch>, known: set<Store>, l: Launch)
    requires LaunchedKnown(launched, known) && l.key.store in known
    ensures LaunchedKnown(launched + multiset{l}, known)
  {
  }

  lemma BeginStores(launched: multiset<Launch>, known: set<Store>, l: Launch)
    requires LaunchedKnown(launched, known)
    ensures LaunchedKnown(launched - multiset{l}, known)
  {
  }

  lemma StepStores(parses: string -> bool, s: State, step: Step)
    requires Enabled(s, step) && StoresKnown(s)
    ensures StoresKnown(Apply(parses, s, step))
  {
    match step
    case Update(st, tasks) => UpdateStores(parses, s.books, st, tasks);
    case Fire(st, j) => FireStores(s.books.launched, s.books.running.Keys, s.books.schedulers[st][j].job);
    case Begin(l, r) => BeginStores(s.books.launched, s.books.running.Keys, l);
    case _ =>
  }

  /** The write at scheduler/scheduler.go:125 always finds the mark set of its store. */
  lemma StepDoesNotPanic(parses: string -> bool, s: State, step: Step)
    requires Enabled(s, step) && StoresKnown(s)
    ensures !Apply(parses, s, step).panicked
  {
  }

  /** Without a mark set for its store it would panic. */
  lemma WritePanicsIff(parses: string -> bool, s: State, r: RunId)
    requires Enabled(s, Mark(r))
    ensures Apply(parses, s, Mark(r)).panicked <==> s.runs[r].key.store !in s.books.running
  {
  }

  lemma StepInv(parses: string -> bool, s: State, step: Step)
    requires Inv(s) && Enabled(s, step)
    ensures Inv(Apply(parses, s, step))
  {
    StepStores(parses, s, step);
    StepDoesNotPanic(parses, s, step);
    forall k
      ensures Balanced(Apply(parses, s, step), k)
    {
      StepBalanced(parses, s, step, k);
    }
  }

  lemma {:induction false} RunInv(parses: string -> bool, s: State, tr: seq<Step>)
    requires Inv(s) && Legal(parses, s, tr)
    ensures Inv(After(parses, s, tr))
    decreases |tr|
  {
    if tr != [] {
      StepInv(parses, s, tr[0]);
      RunInv(parses, Apply(parses, s, tr[0]), tr[1..]);
    }
  }

  // ---------------------------------------------------------------- the main results

  /**
   The accounting law: in every reachable state the runs in flight beyond the one a mark stands for
   are exactly the marks config updates erased, less the completions that found no mark.  The write
   into `runningTasks` never meets a missing map.
   */
  lemma AccountingLaw(parses: string -> bool, tr: seq<Step>, k: Key)
    requires Legal(parses, Init(), tr)
    ensures var s := After(parses, Init(), tr);
            && |InFlight(s.runs, k)| + s.blanks[k] == MarkCount(s.books.running, k) + s.erased[k]
            && s.blanks[k] <= s.erased[k]
            && StoresKnown(s) && !s.panicked
  {
    RunInv(parses, Init(), tr);
    assert Balanced(After(parses, Init(), tr), k);
  }

  /**
   Mutual exclusion: at most one run of a key is in flight plus the marks a config update erased.
   So without an update over a set mark there is at most one, whatever `allowConcurrent` says.
   */
  lemma MutualExclusion(parses: string -> bool, tr: seq<Step>, k: Key)
    requires Legal(parses, Init(), tr)
    ensures var s := After(parses, Init(), tr);
            && |InFlight(s.runs, k)| <= 1 + s.erased[k]
            && (s.erased[k] == 0 ==> |InFlight(s.runs, k)| <= 1 && s.blanks[k] == 0)
  {
    AccountingLaw(parses, tr, k);
  }

  /** A second run gets in exactly when an erased mark has not been paid back by a blank completion. */
  lemma SecondRunIff(parses: string -> bool, tr: seq<Step>, r: RunId)
    requires Legal(parses, Init(), tr) && Enabled(After(parses, Init(), tr), Mark(r))
    ensures var s := After(parses, Init(), tr);
            var s' := Apply(parses, s, Mark(r));
            var k := s.runs[r].key;
            && (|InFlight(s'.runs, k)| > |InFlight(s.runs, k)| <==> !IsMarked(s.books.running, k))
            && (|InFlight(s'.runs, k)| > |InFlight(s.runs, k)| > 0 <==>
                !IsMarked(s.books.running, k) && s.erased[k] > s.blanks[k])
  {
    var s := After(parses, Init(), tr);
    AccountingLaw(parses, tr, s.runs[r].key);
    DropRun(s.runs, r, s.runs[r].key);
    AddRun(s.runs, r, Run(s.runs[r].key, Marked), s.runs[r].key);
  }

  /**
   Mutual exclusion is false in general: an update whose new task at a marked index runs at startup
   lets a second run in next to the first, although concurrency was never allowed.
   */
  lemma UpdateAdmitsSecondRun(parses: string -> bool, s: State, k: Key, tasks: seq<Task>, r: RunId)
    requires Inv(s) && IsMarked(s.books.running, k) && r !in s.runs
    requires k.index < |tasks| && AtStartup(tasks[k.index].schedule)
    ensures var s1 := Apply(parses, s, Update(k.store, tasks));
            && Enabled(s1, Begin(Launch(k, false), r))
            && var s2 := Apply(parses, s1, Begin(Launch(k, false), r));
            && Enabled(s2, Mark(r))
            && |InFlight(Apply(parses, s2, Mark(r)).runs, k)| == |InFlight(s.runs, k)| + 1 >= 2
  {
    assert Balanced(s, k);
    LaunchesAre(k.store, tasks, |tasks|, k.index);
    AddRun(s.runs, r, Run(k, Checked), k);
    MarkBalances(s.runs[r := Run(k, Checked)], r, k);
  }

  // ---------------------------------------------------------------- what the flag does

  predicate StepOf(step: Step, r: RunId) {
    match step
    case Begin(_, q) => q == r
    case Mark(q) => q == r
    case Push(q, _) => q == r
    case Answer(q) => q == r
    case Complete(q) => q == r
    case _ => false
  }

  /** What goes on between two steps of run `r`. */
  predicate Meanwhile(tr: seq<Step>, r: RunId) {
    forall i | 0 <= i < |tr| :: !StepOf(tr[i], r)
  }

  lemma StepLeavesAlone(parses: string -> bool, s: State, step: Step, r: RunId)
    requires Enabled(s, step) && !StepOf(step, r)
    ensures r in Apply(parses, s, step).runs <==> r in s.runs
    ensures r in s.runs ==> Apply(parses, s, step).runs[r] == s.runs[r]
  {
  }

  lemma {:induction false} RunLeavesAlone(parses: string -> bool, s: State, tr: seq<Step>, r: RunId)
    requires Legal(parses, s, tr) && Meanwhile(tr, r)
    ensures r in After(parses, s, tr).runs <==> r in s.runs
    ensures r in s.runs ==> After(parses, s, tr).runs[r] == s.runs[r]
    decreases |tr|
  {
    if tr != [] {
      StepLeavesAlone(parses, s, tr[0], r);
      assert forall i | 0 <= i < |tr[1..]| :: tr[1..][i] == tr[i + 1];
      RunLeavesAlone(parses, Apply(parses, s, tr[0]), tr[1..], r);
    }
  }

  /** At its write lock, run `r` gets past the second check. */
  predicate GetsIn(parses: string -> bool, s: State, r: RunId) {
    Enabled(s, Mark(r)) && r in Apply(parses, s, Mark(r)).runs
  }

  /**
   Exactly which launches run, whatever happens between their two checks: the key must be unmarked at
   the second one, and without the flag at the first one too.
   */
  lemma LaunchRunsIff(parses: string -> bool, s: State, l: Launch, r: RunId, tr: seq<Step>)
    requires Inv(s) && Enabled(s, Begin(l, r))
    requires Legal(parses, Apply(parses, s, Begin(l, r)), tr) && Meanwhile(tr, r)
    ensures var s' := After(parses, Apply(parses, s, Begin(l, r)), tr);
            GetsIn(parses, s', r) <==>
            !IsMarked(s'.books.running, l.key) && (l.allowConcurrent || !IsMarked(s.books.running, l.key))
  {
    var s1 := Apply(parses, s, Begin(l, r));
    StepInv(parses, s, Begin(l, r));
    RunInv(parses, s1, tr);
    RunLeavesAlone(parses, s1, tr, r);
    if r in s1.runs {
      MarkGetsIn(parses, After(parses, s1, tr), r);
    }
  }

  lemma MarkGetsIn(parses: string -> bool, s: State, r: RunId)
    requires !s.panicked && StoresKnown(s) && r in s.runs && s.runs[r].pc == Checked
    ensures GetsIn(parses, s, r) <==> !IsMarked(s.books.running, s.runs[r].key)
  {
  }

  /**
   So the flag lets a launch wait, not overlap: with it a launch on a marked key still runs if the
   earlier run completes between its two checks, and without it the launch is dropped.
   */
  lemma FlagSparesALaunch(parses: string -> bool, s: State, k: Key, q: RunId, r: RunId)
    requires Inv(s) && IsMarked(s.books.running, k) && r !in s.runs
    requires q in s.runs && s.runs[q] == Run(k, Answered)
    requires Launch(k, true) in s.books.launched && Launch(k, false) in s.books.launched
    ensures var with, without := Apply(parses, s, Begin(Launch(k, true), r)), Apply(parses, s, Begin(Launch(k, false), r));
            && Enabled(with, Complete(q)) && GetsIn(parses, Apply(parses, with, Complete(q)), r)
            && Enabled(without, Complete(q)) && !GetsIn(parses, Apply(parses, without, Complete(q)), r)
  {
  }
}
