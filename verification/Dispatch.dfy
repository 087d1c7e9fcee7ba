/**
 The worker task protocol of intranet/server.go as a step system.

 Every goroutine (an RPC handler, a connection, the watcher) is cut at the points where another
 goroutine can run in between, so a trace of steps is one interleaving of the program.  The task
 queue is the one of the taskq package: ids are handed out by a counter, `Shift` takes a task out of
 the queue, `UnShift` puts it back, and `Done` delivers the first result of an id and drops the rest.
 A push is one step although it registers the id before it sends the task to the queue: since `Shift`
 may take any waiting task, a task that is still being sent is one that nobody takes yet.

 Connections are those of the wango package.  One goroutine reads the calls of a connection; it handles
 subscriptions itself, under one lock for all connections, and the lost connection of a worker is not
 announced before that lock was held once more.
 */
module Dispatch {

  type TaskId = nat
  type Worker = nat   // a connection id; the source uses fresh UUID strings
  type Handler = nat  // the goroutine running one RPC

  /** A decoded JSON value as a handler argument: the two kinds the handlers test for, and the rest. */
  datatype Value = Number(value: real) | Text(text: string) | Other(raw: string)

  datatype Outcome = Result(value: Value) | Error(text: string) {
    /** `PushAndGetResult` takes an empty error text for success. */
    predicate Failed() {
      Error? && text != ""
    }
  }

  const WORKER_LOST := Error("connection with worker lost")

  /** The message type of the watch channel. */
  datatype Keeper = Keeper(worker: Worker, task: TaskId, done: bool)

  /**
   A connection.  `Lost`: the connected flag has dropped, and the subscription lock is to be taken;
   `Leaving`: the close callback waits for the watcher; `Closed`: the watcher has handled the disconnect.
   */
  datatype Link = Open | Lost | Leaving | Closed

  /**
   What keeps a connection from reading: it waits for the subscription lock, for a subscription to a
   store or for another call that needs it, or it holds the lock and waits for the task it has pushed.
   */
  datatype Sub = Waiting(store: bool) | Pending(task: TaskId)

  datatype GetPc = Shifted | Checked | Refused
  datatype Getter = Getter(worker: Worker, task: TaskId, pc: GetPc)

  /** A report handler before `taskq.Done`, and between `taskq.Done` and its send on the watch channel. */
  datatype ReportPc = Called(outcome: Outcome) | Delivered
  datatype Reporter = Reporter(worker: Worker, task: TaskId, pc: ReportPc)

  /** The taskq package: the id counter, the waiting tasks and the results delivered so far. */
  datatype Pool = Pool(start: nat, sequence: nat, queue: seq<TaskId>, outcomes: map<TaskId, Outcome>) {
    predicate Issued(t: TaskId) {
      start < t <= sequence
    }

    function Push(): Pool {
      this.(sequence := sequence + 1, queue := queue + [sequence + 1])
    }

    function Shift(i: nat): Pool
      requires i < |queue|
    {
      this.(queue := RemoveAt(queue, i))
    }

    function UnShift(t: TaskId): Pool {
      this.(queue := queue + [t])
    }

    /** Only an issued id whose result nobody has delivered yet is affected. */
    function Done(t: TaskId, o: Outcome): Pool {
      if Issued(t) && t !in outcomes then this.(outcomes := outcomes[t := o]) else this
    }

    /** `Done` with the same error for a whole set of tasks. */
    function FailAll(ts: set<TaskId>): Pool {
      this.(outcomes := outcomes + map t | t in ts && Issued(t) && t !in outcomes :: WORKER_LOST)
    }
  }

  function RemoveAt<T>(q: seq<T>, i: nat): seq<T>
    requires i < |q|
  {
    q[..i] + q[i + 1..]
  }

  type Tasks = map<Worker, set<TaskId>>

  datatype State = State(
    pool: Pool,
    askers: map<Handler, Worker>,  // get handlers that wait in `taskq.Shift`
    getters: map<Handler, Getter>,
    reporters: map<Handler, Reporter>,
    chan: seq<Keeper>,
    links: map<Worker, Link>,
    subs: map<Worker, Sub>,
    table: Tasks,
    closing: set<TaskId>,  // what the watcher's disconnect loop has still to fail
    crashed: bool,
    // history: what each worker was given and has not reported since, and who got each task
    held: Tasks,
    delivered: map<TaskId, Worker>)

  datatype Step =
    | Push
    | Ask(h: Handler, w: Worker)
    | Shift(h: Handler, i: nat)
    | Check(h: Handler)
    | Register(h: Handler)
    | UnShift(h: Handler)
    | Receive(h: Handler, w: Worker, task: TaskId, outcome: Outcome)
    | Done(h: Handler)
    | Report(h: Handler)
    | WatchTask
    | Connect(w: Worker)
    | Subscribe(w: Worker, store: bool)
    | Enter(w: Worker)
    | Release(w: Worker)
    | Lose(w: Worker)
    | Leave(w: Worker)
    | Disconnect(w: Worker)
    | Fail(task: TaskId)

  function Init(start: nat): State {
    State(Pool(start, start, [], map[]), map[], map[], map[], [], map[], map[], map[], {}, false, map[], map[])
  }

  predicate Fresh(s: State, h: Handler) {
    h !in s.askers && h !in s.getters && h !in s.reporters
  }

  /** The receive loop of `w` reads the next call. */
  predicate Reading(s: State, w: Worker) {
    w in s.links && s.links[w] == Open && w !in s.subs
  }

  predicate LockFree(subs: map<Worker, Sub>) {
    forall w | w in subs :: subs[w].Waiting?
  }

  predicate Enabled(s: State, step: Step) {
    !s.crashed &&
    match step
    case Push => true
    case Ask(h, w) => Fresh(s, h) && Reading(s, w)
    case Shift(h, i) => h in s.askers && i < |s.pool.queue|
    case Check(h) => h in s.getters && s.getters[h].pc == Shifted && s.getters[h].worker in s.links
    case Register(h) => h in s.getters && s.getters[h].pc == Checked && s.getters[h].worker in s.held
    case UnShift(h) => h in s.getters && s.getters[h].pc == Refused
    case Receive(h, w, _, _) => Fresh(s, h) && Reading(s, w)
    case Done(h) => h in s.reporters && s.reporters[h].pc.Called?
    case Report(h) => h in s.reporters && s.reporters[h].pc.Delivered? && s.reporters[h].worker in s.held
    case WatchTask => s.closing == {} && s.chan != []
    case Connect(w) => s.closing == {} && w !in s.links
    case Subscribe(w, _) => Reading(s, w)
    case Enter(w) => w in s.subs && s.subs[w].Waiting? && LockFree(s.subs)
    case Release(w) => w in s.subs && s.subs[w].Pending? && s.subs[w].task in s.pool.outcomes
    case Lose(w) => Reading(s, w)
    case Leave(w) => w in s.links && s.links[w] == Lost && LockFree(s.subs)
    case Disconnect(w) => s.closing == {} && w in s.links && s.links[w] == Leaving
    case Fail(t) => t in s.closing
  }

  function TasksOf(table: Tasks, w: Worker): set<TaskId> {
    if w in table then table[w] else {}
  }

  /** A message writes into the table entry of its worker, which must exist. */
  predicate Panics(table: Tasks, k: Keeper) {
    !k.done && k.worker !in table
  }

  /** The effect of one message on one table entry. */
  function Note(base: set<TaskId>, k: Keeper, w: Worker): set<TaskId> {
    if k.worker != w then base else if k.done then base - {k.task} else base + {k.task}
  }

  /** The watcher handles one message; deleting from a missing entry does nothing. */
  function Handle(table: Tasks, k: Keeper): Tasks {
    if k.worker in table then table[k.worker := Note(table[k.worker], k, k.worker)] else table
  }

  function Apply(s: State, step: Step): State
    requires Enabled(s, step)
  {
    match step
    case Push => s.(pool := s.pool.Push())
    case Ask(h, w) =>
      s.(askers := s.askers[h := w])
    case Shift(h, i) =>
      s.(pool := s.pool.Shift(i), askers := s.askers - {h},
         getters := s.getters[h := Getter(s.askers[h], s.pool.queue[i], Shifted)])
    case Check(h) =>
      var g := s.getters[h];
      s.(getters := s.getters[h := g.(pc := if s.links[g.worker] == Open then Checked else Refused)])
    case Register(h) =>
      var g := s.getters[h];
      s.(getters := s.getters - {h},
         chan := s.chan + [Keeper(g.worker, g.task, false)],
         held := s.held[g.worker := s.held[g.worker] + {g.task}],
         delivered := s.delivered[g.task := g.worker])
    case UnShift(h) =>
      s.(pool := s.pool.UnShift(s.getters[h].task), getters := s.getters - {h})
    case Receive(h, w, t, o) =>
      s.(reporters := s.reporters[h := Reporter(w, t, Called(o))])
    case Done(h) =>
      var r := s.reporters[h];
      s.(pool := s.pool.Done(r.task, r.pc.outcome), reporters := s.reporters[h := r.(pc := Delivered)])
    case Report(h) =>
      var r := s.reporters[h];
      s.(reporters := s.reporters - {h},
         chan := s.chan + [Keeper(r.worker, r.task, true)],
         held := s.held[r.worker := s.held[r.worker] - {r.task}])
    case WatchTask =>
      s.(chan := s.chan[1..],
         table := Handle(s.table, s.chan[0]),
         crashed := Panics(s.table, s.chan[0]))
    case Connect(w) =>
      s.(links := s.links[w := Open], table := s.table[w := {}], held := s.held[w := {}])
    case Subscribe(w, store) =>
      s.(subs := s.subs[w := Waiting(store)])
    case Enter(w) =>
      // a subscription to a store pushes a task and waits for it with the lock held
      var store := s.subs[w].store;
      s.(pool := if store then s.pool.Push() else s.pool,
         subs := if store then s.subs[w := Pending(s.pool.sequence + 1)] else s.subs - {w})
    case Release(w) =>
      s.(subs := s.subs - {w})
    case Lose(w) =>
      s.(links := s.links[w := Lost])
    case Leave(w) =>
      s.(links := s.links[w := Leaving])
    case Disconnect(w) =>
      // an empty entry stays in the table; a non-empty one is failed, task by task, and deleted (at
      // the end of the loop, but only the watcher looks at the table)
      var ts := TasksOf(s.table, w);
      s.(links := s.links[w := Closed], closing := ts, table := if ts == {} then s.table else s.table - {w})
    case Fail(t) =>
      s.(pool := s.pool.Done(t, WORKER_LOST), closing := s.closing - {t})
  }

  // ---------------------------------------------------------------- traces

  predicate Legal(s: State, tr: seq<Step>)
    decreases |tr|
  {
    tr == [] || (Enabled(s, tr[0]) && Legal(Apply(s, tr[0]), tr[1..]))
  }

  function After(s: State, tr: seq<Step>): State
    requires Legal(s, tr)
    decreases |tr|
  {
    if tr == [] then s else After(Apply(s, tr[0]), tr[1..])
  }

  // ---------------------------------------------------------------- what the libraries decide

  /** The connections that wait for the subscription lock. */
  function Waiters(s: State): set<Worker> {
    (set w | w in s.subs && s.subs[w].Waiting?) + (set w | w in s.links && s.links[w] == Lost)
  }

  /** The connections whose close callback waits for the watcher. */
  function Leavers(s: State): set<Worker> {
    set w | w in s.links && s.links[w] == Leaving
  }

  /**
   Which waiting task the queue hands out next and which waiting get handler receives it, which waiting
   connection gets the free lock next, and which close callback the watcher hears next.
   What can happen is stated for every such rule; what always holds, for any choice at each step.
   */
  datatype Order = Order(next: State -> nat, taker: State -> Handler, lock: State -> Worker, leaver: State -> Worker) {
    ghost predicate Admissible() {
      && (forall s: State {:trigger next(s)} :: s.pool.queue != [] ==> next(s) < |s.pool.queue|)
      && (forall s: State {:trigger taker(s)} :: s.askers != map[] ==> taker(s) in s.askers)
      && (forall s: State {:trigger lock(s)} :: Waiters(s) != {} ==> lock(s) in Waiters(s))
      && (forall s: State {:trigger leaver(s)} :: Leavers(s) != {} ==> leaver(s) in Leavers(s))
    }

    predicate Obeyed(s: State, step: Step) {
      && (step.Shift? ==> step.i == next(s) && step.h == taker(s))
      && (step.Enter? || step.Leave? ==> step.w == lock(s))
      && (step.Disconnect? ==> step.w == leaver(s))
    }
  }

  // ---------------------------------------------------------------- where a task is

  ghost predicate InGetter(getters: map<Handler, Getter>, t: TaskId) {
    exists h :: h in getters && getters[h].task == t
  }

  predicate Live(links: map<Worker, Link>, w: Worker) {
    w in links && links[w] != Closed
  }

  /** Held by a worker whose disconnect the watcher has not handled, or not handled to the end. */
  predicate HeldLive(s: State, t: TaskId) {
    t in s.closing
    || (t in s.delivered && t in TasksOf(s.held, s.delivered[t]) && Live(s.links, s.delivered[t]))
  }

  /** A task that waits for a result nobody is going to produce: it is in none of its three places. */
  ghost predicate IsLost(s: State, t: TaskId) {
    && s.pool.Issued(t) && t !in s.pool.outcomes
    && t !in s.pool.queue && !InGetter(s.getters, t) && !HeldLive(s, t)
  }

  ghost predicate NoneLost(s: State) {
    forall t: TaskId :: !IsLost(s, t)
  }

  // ---------------------------------------------------------------- invariants of every run

  predicate NoDup<T(==)>(q: seq<T>) {
    forall i, j :: 0 <= i < j < |q| ==> q[i] != q[j]
  }

  /** Conservation: every issued task is in the queue, with one get handler, or delivered. */
  ghost predicate Places(start: nat, sequence: nat, queue: seq<TaskId>,
                         getters: map<Handler, Getter>, delivered: map<TaskId, Worker>) {
    && start <= sequence
    && NoDup(queue)
    && (forall h, h' | h in getters && h' in getters && h != h' :: getters[h].task != getters[h'].task)
    && (forall t | t in queue :: start < t <= sequence && t !in delivered)
    && (forall h | h in getters ::
          var t := getters[h].task; start < t <= sequence && t !in queue && t !in delivered)
    && (forall t | t in delivered :: start < t <= sequence)
    && (forall t: nat | start < t <= sequence :: t in queue || InGetter(getters, t) || t in delivered)
  }

  predicate Outcomes(p: Pool) {
    forall t | t in p.outcomes :: p.Issued(t)
  }

  // Goroutines, messages and the two tables only name connections whose open callback has returned.

  predicate TablesKnown(known: set<Worker>, held: Tasks, table: Tasks) {
    held.Keys == known && table.Keys <= known
  }

  predicate AskersKnown(known: set<Worker>, askers: map<Handler, Worker>) {
    forall h | h in askers :: askers[h] in known
  }

  predicate GettersKnown(known: set<Worker>, getters: map<Handler, Getter>) {
    forall h | h in getters :: getters[h].worker in known
  }

  predicate AskersApart(askers: map<Handler, Worker>, getters: map<Handler, Getter>) {
    askers.Keys !! getters.Keys
  }

  predicate ReportersKnown(known: set<Worker>, reporters: map<Handler, Reporter>) {
    forall h | h in reporters :: reporters[h].worker in known
  }

  predicate ChanKnown(known: set<Worker>, chan: seq<Keeper>) {
    forall i | 0 <= i < |chan| :: chan[i].worker in known
  }

  predicate Names(s: State) {
    && TablesKnown(s.links.Keys, s.held, s.table)
    && AskersKnown(s.links.Keys, s.askers)
    && AskersApart(s.askers, s.getters)
    && GettersKnown(s.links.Keys, s.getters)
    && ReportersKnown(s.links.Keys, s.reporters)
    && ChanKnown(s.links.Keys, s.chan)
  }

  predicate DeliveredTo(delivered: map<TaskId, Worker>, t: TaskId, w: Worker) {
    t in delivered && delivered[t] == w
  }

  /** Whatever the watcher, the channel or the history says about a task is about its receiver. */
  predicate Deliveries(delivered: map<TaskId, Worker>, held: Tasks, table: Tasks, chan: seq<Keeper>) {
    && (forall w, t | w in held && t in held[w] :: DeliveredTo(delivered, t, w))
    && (forall w, t | w in table && t in table[w] :: DeliveredTo(delivered, t, w))
    && (forall i | 0 <= i < |chan| && !chan[i].done :: DeliveredTo(delivered, chan[i].task, chan[i].worker))
  }

  /** A task is registered once: never twice in the channel, never in the channel and the table. */
  predicate RegisteredOnce(chan: seq<Keeper>, table: Tasks) {
    && (forall i, j | 0 <= i < j < |chan| :: chan[i].done || chan[j].done || chan[i].task != chan[j].task)
    && (forall i | 0 <= i < |chan| && !chan[i].done :: chan[i].task !in TasksOf(table, chan[i].worker))
  }

  /** The disconnect loop fails tasks of a closed connection. */
  predicate ClosingOwed(delivered: map<TaskId, Worker>, links: map<Worker, Link>, closing: set<TaskId>) {
    forall t | t in closing :: t in delivered && delivered[t] in links && links[delivered[t]] == Closed
  }

  /** Connections with a subscription under way are open, and at most one of them has the lock. */
  predicate SubsFit(links: map<Worker, Link>, subs: map<Worker, Sub>) {
    && (forall w | w in subs :: w in links && links[w] == Open)
    && (forall v, w | v in subs && w in subs && subs[v].Pending? && subs[w].Pending? :: v == w)
  }

  predicate SubsIssued(p: Pool, subs: map<Worker, Sub>) {
    forall w | w in subs && subs[w].Pending? :: p.Issued(subs[w].task)
  }

  /** What the table entry of `w` becomes once the buffered messages are handled. */
  function Replay(base: set<TaskId>, chan: seq<Keeper>, w: Worker): set<TaskId>
    decreases |chan|
  {
    if chan == [] then base else Replay(Note(base, chan[0], w), chan[1..], w)
  }

  predicate Refines(links: map<Worker, Link>, table: Tasks, chan: seq<Keeper>, held: Tasks) {
    forall w | w in links && links[w] != Closed ::
      w in table && w in held && Replay(table[w], chan, w) == held[w]
  }

  ghost predicate Inv(s: State) {
    && Places(s.pool.start, s.pool.sequence, s.pool.queue, s.getters, s.delivered)
    && Outcomes(s.pool)
    && Names(s)
    && Deliveries(s.delivered, s.held, s.table, s.chan)
    && RegisteredOnce(s.chan, s.table)
    && Refines(s.links, s.table, s.chan, s.held)
    && ClosingOwed(s.delivered, s.links, s.closing)
    && SubsFit(s.links, s.subs)
    && SubsIssued(s.pool, s.subs)
  }
}
