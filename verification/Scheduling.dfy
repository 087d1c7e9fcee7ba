/**
 The task scheduler of scheduler/scheduler.go as a step system.

 `Books` is what the package-level lock protects, together with the goroutines it has started.  A
 run of `runTask` is a thread of four segments: the check under the read lock, the check and mark
 under the write lock, the wait for the task's result, and the unmarking.
 */
module Scheduling {

  type Store = string
  type RunId = nat

  /** A task of a store, named by its index in the store's configuration. */
  datatype Key = Key(store: Store, index: nat)

  datatype Task = Task(schedule: string, allowConcurrent: bool)

  /** A goroutine that is about to execute `runTask` with these arguments. */
  datatype Launch = Launch(key: Key, allowConcurrent: bool)

  datatype Entry = Entry(schedule: string, job: Launch)

  datatype Books = Books(
    schedulers: map<Store, seq<Entry>>,  // the entries of each store's cron instance
    running: map<Store, set<nat>>,
    launched: multiset<Launch>)

  predicate AtStartup(schedule: string) {
    schedule == "@reboot" || schedule == "@startup" || schedule == "@start"
  }

  /** The goroutines launched at once for the first `n` tasks. */
  function Launches(store: Store, tasks: seq<Task>, n: nat): seq<Launch>
    requires n <= |tasks|
  {
    if n == 0 then []
    else if AtStartup(tasks[n - 1].schedule) then
      Launches(store, tasks, n - 1) + [Launch(Key(store, n - 1), false)]
    else Launches(store, tasks, n - 1)
  }

  /** The cron entries added for the first `n` tasks; `parses` is cron's verdict on a schedule text. */
  function Entries(parses: string -> bool, store: Store, tasks: seq<Task>, n: nat): seq<Entry>
    requires n <= |tasks|
  {
    if n == 0 then []
    else if !AtStartup(tasks[n - 1].schedule) && parses(tasks[n - 1].schedule) then
      Entries(parses, store, tasks, n - 1)
      + [Entry(tasks[n - 1].schedule, Launch(Key(store, n - 1), tasks[n - 1].allowConcurrent))]
    else Entries(parses, store, tasks, n - 1)
  }

  function UpdateStore(parses: string -> bool, b: Books, store: Store, tasks: seq<Task>): Books {
    if tasks == [] then
      b.(schedulers := b.schedulers - {store})
    else
      Books(b.schedulers[store := Entries(parses, store, tasks, |tasks|)],
            b.running[store := {}],
            b.launched + multiset(Launches(store, tasks, |tasks|)))
  }

  predicate IsMarked(running: map<Store, set<nat>>, k: Key) {
    k.store in running && k.index in running[k.store]
  }

  function SetMark(running: map<Store, set<nat>>, k: Key): (r: map<Store, set<nat>>)
    requires k.store in running
    ensures r.Keys == running.Keys
  {
    running[k.store := running[k.store] + {k.index}]
  }

  function ClearMark(running: map<Store, set<nat>>, k: Key): (r: map<Store, set<nat>>)
    ensures r.Keys == running.Keys
  {
    if k.store in running then running[k.store := running[k.store] - {k.index}] else running
  }

  datatype Pc = Checked | Marked | Waiting(task: nat) | Answered
  datatype Run = Run(key: Key, pc: Pc)

  datatype State = State(
    books: Books,
    runs: map<RunId, Run>,
    panicked: bool,
    // history: marks a config update erased, and completions that found no mark
    erased: multiset<Key>,
    blanks: multiset<Key>)

  datatype Step =
    | Update(store: Store, tasks: seq<Task>)
    | Fire(store: Store, j: nat)
    | Begin(l: Launch, r: RunId)
    | Mark(r: RunId)
    | Push(r: RunId, task: nat)
    | Answer(r: RunId)
    | Complete(r: RunId)

  function Init(): State {
    State(Books(map[], map[], multiset{}), map[], false, multiset{}, multiset{})
  }

  predicate Enabled(s: State, step: Step) {
    !s.panicked &&
    match step
    case Update(_, _) => true
    case Fire(st, j) => st in s.books.schedulers && j < |s.books.schedulers[st]|
    case Begin(l, r) => l in s.books.launched && r !in s.runs
    case Mark(r) => r in s.runs && s.runs[r].pc == Checked
    case Push(r, _) => r in s.runs && s.runs[r].pc == Marked
    case Answer(r) => r in s.runs && s.runs[r].pc.Waiting?
    case Complete(r) => r in s.runs && s.runs[r].pc == Answered
  }

  function Marks(running: map<Store, set<nat>>, store: Store): set<Key> {
    if store in running then set i | i in running[store] :: Key(store, i) else {}
  }

  function Apply(parses: string -> bool, s: State, step: Step): State
    requires Enabled(s, step)
  {
    match step
    case Update(st, tasks) =>
      s.(books := UpdateStore(parses, s.books, st, tasks),
         erased := if tasks == [] then s.erased else s.erased + multiset(Marks(s.books.running, st)))
    case Fire(st, j) =>
      s.(books := s.books.(launched := s.books.launched + multiset{s.books.schedulers[st][j].job}))
    case Begin(l, r) =>
      var s' := s.(books := s.books.(launched := s.books.launched - multiset{l}));
      if l.allowConcurrent || !IsMarked(s.books.running, l.key) then s'.(runs := s.runs[r := Run(l.key, Checked)])
      else s'
    case Mark(r) =>
      var k := s.runs[r].key;
      if IsMarked(s.books.running, k) then s.(runs := s.runs - {r})
      else if k.store !in s.books.running then s.(panicked := true)
      else s.(books := s.books.(running := SetMark(s.books.running, k)), runs := s.runs[r := Run(k, Marked)])
    case Push(r, t) => s.(runs := s.runs[r := Run(s.runs[r].key, Waiting(t))])
    case Answer(r) => s.(runs := s.runs[r := Run(s.runs[r].key, Answered)])
    case Complete(r) =>
      var k := s.runs[r].key;
      s.(books := s.books.(running := ClearMark(s.books.running, k)),
         runs := s.runs - {r},
         blanks := if IsMarked(s.books.running, k) then s.blanks else s.blanks + multiset{k})
  }

  predicate Legal(parses: string -> bool, s: State, tr: seq<Step>)
    decreases |tr|
  {
    tr == [] || (Enabled(s, tr[0]) && Legal(parses, Apply(parses, s, tr[0]), tr[1..]))
  }

  function After(parses: string -> bool, s: State, tr: seq<Step>): State
    requires Legal(parses, s, tr)
    decreases |tr|
  {
    if tr == [] then s else After(parses, Apply(parses, s, tr[0]), tr[1..])
  }

  // ---------------------------------------------------------------- what every run keeps

  /** The runs of `k` between their marking and their completion. */
  function InFlight(runs: map<RunId, Run>, k: Key): set<RunId> {
    set r | r in runs && runs[r].key == k && runs[r].pc != Checked
  }

  function MarkCount(running: map<Store, set<nat>>, k: Key): nat {
    if IsMarked(running, k) then 1 else 0
  }

  /** The accounting law of one key. */
  predicate Balanced(s: State, k: Key) {
    && |InFlight(s.runs, k)| + s.blanks[k] == MarkCount(s.books.running, k) + s.erased[k]
    && MarkCount(s.books.running, k) <= |InFlight(s.runs, k)|
  }

  // Every store that a cron entry, a goroutine or a run names has a mark set.

  predicate SchedulersKnown(schedulers: map<Store, seq<Entry>>, known: set<Store>) {
    forall st | st in schedulers :: st in known && EntriesOf(st, schedulers[st])
  }

  predicate EntriesOf(store: Store, entries: seq<Entry>) {
    forall j | 0 <= j < |entries| :: entries[j].job.key.store == store
  }

  predicate LaunchedKnown(launched: multiset<Launch>, known: set<Store>) {
    forall l | l in launched :: l.key.store in known
  }

  predicate RunsKnown(runs: map<RunId, Run>, known: set<Store>) {
    forall r | r in runs :: runs[r].key.store in known
  }

  predicate StoresKnown(s: State) {
    var known := s.books.running.Keys;
    SchedulersKnown(s.books.schedulers, known) && LaunchedKnown(s.books.launched, known) && RunsKnown(s.runs, known)
  }

  ghost predicate Inv(s: State) {
    !s.panicked && StoresKnown(s) && forall k :: Balanced(s, k)
  }
}
