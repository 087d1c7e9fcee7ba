/**
 The migration bookkeeping of intranet/intranet.go: which (store, version) pairs have had their
 migration task run successfully, over a history of config updates that do not overlap.
 */
module Migration {
  import D = Dispatch

  type Store = string

  datatype Desc = Desc(version: int, hasMigration: bool)

  datatype Version = Version(store: Store, number: int)

  /** A config update, and what the worker protocol delivers for each migration task pushed during it. */
  datatype Update = Update(conf: map<Store, Desc>, outcome: Store -> D.Outcome) {
    /** `PushAndGetResult` returns an error. */
    predicate Fails(store: Store) {
      outcome(store).Failed()
    }
  }

  // ---------------------------------------------------------------- one update

  predicate Names(u: Update, v: Version) {
    v.store in u.conf && u.conf[v.store] == Desc(v.number, true)
  }

  /** The stores an update pushes a task for: migration defined, version not processed. */
  function Attempted(u: Update, processed: set<Version>): set<Store> {
    set st | st in u.conf && u.conf[st].hasMigration && Version(st, u.conf[st].version) !in processed
  }

  function Processed(u: Update, processed: set<Version>): set<Version> {
    processed + set st | st in Attempted(u, processed) && !u.Fails(st) :: Version(st, u.conf[st].version)
  }

  class Migrations {
    var storeMigrationVersion: map<Store, set<int>>

    constructor ()
      ensures View() == {}
    {
      storeMigrationVersion := map[];
    }

    function View(): set<Version>
      reads this
    {
      set st, n | st in storeMigrationVersion && n in storeMigrationVersion[st] :: Version(st, n)
    }

    method IsStoreVersionProcessed(store: Store, version: int) returns (processed: bool)
      ensures processed <==> Version(store, version) in View()
    {
      if store !in storeMigrationVersion {
        return false;
      }
      return version in storeMigrationVersion[store];
    }

    method SetProcessedStoreVersion(store: Store, version: int)
      modifies this
      ensures View() == old(View()) + {Version(store, version)}
    {
      if store !in storeMigrationVersion {
        storeMigrationVersion := storeMigrationVersion[store := {}];
      }
      storeMigrationVersion := storeMigrationVersion[store := storeMigrationVersion[store] + {version}];
    }

    /** The body of the loop. */
    method Visit(u: Update, store: Store) returns (pushed: bool)
      requires store in u.conf
      modifies this
      ensures pushed <==> Attempts(u, store, old(View()))
      ensures View() == old(View()) + Succeeding(u, store, old(View()))
    {
      var desc := u.conf[store];
      if !desc.hasMigration {
        return false;
      }
      var processed := IsStoreVersionProcessed(store, desc.version);
      if processed {
        return false;
      }
      if u.Fails(store) {
        return true;
      }
      SetProcessedStoreVersion(store, desc.version);
      return true;
    }

    /** The range over the config, in the arbitrary order of a Go map. */
    method VisitAll(u: Update) returns (pushed: seq<Store>, ghost order: seq<Store>)
      modifies this
      ensures forall st :: st in order <==> st in u.conf
      ensures forall i, j | 0 <= i < j < |order| :: order[i] != order[j]
      ensures Walk(View(), pushed) == WalkOver(u, old(View()), order)
    {
      pushed, order := [], [];
      var rest := u.conf.Keys;
      while rest != {}
        invariant rest <= u.conf.Keys && forall st :: st in order <==> st in u.conf && st !in rest
        invariant forall i, j | 0 <= i < j < |order| :: order[i] != order[j]
        invariant Walk(View(), pushed) == WalkOver(u, old(View()), order)
        decreases |rest|
      {
        var store :| store in rest;
        assert (order + [store])[..|order|] == order;
        var attempted := Visit(u, store);
        rest := rest - {store};
        order := order + [store];
        if attempted {
          pushed := pushed + [store];
        }
      }
    }

    /** Marks exactly the successes; `pushed` lists the tasks it pushed. */
    method RunMigrationScripts(u: Update) returns (pushed: seq<Store>)
      modifies this
      ensures View() == Processed(u, old(View()))
      ensures forall st :: st in pushed <==> st in Attempted(u, old(View()))
      ensures forall st | st in u.conf && st in pushed ::
                Version(st, u.conf[st].version) in View() <==> u.outcome(st).Result? || u.outcome(st) == D.Error("")
      ensures forall i, j | 0 <= i < j < |pushed| :: pushed[i] != pushed[j]
    {
      ghost var order;
      pushed, order := VisitAll(u);
      WalkIsPart(u, old(View()), order);
      PartOfAll(u, old(View()), order);
    }
  }

  /** Whether visiting `store` pushes a task, and the version it marks. */
  predicate Attempts(u: Update, store: Store, processed: set<Version>)
    requires store in u.conf
  {
    u.conf[store].hasMigration && Version(store, u.conf[store].version) !in processed
  }

  function Succeeding(u: Update, store: Store, processed: set<Version>): set<Version>
    requires store in u.conf
  {
    if Attempts(u, store, processed) && !u.Fails(store) then {Version(store, u.conf[store].version)} else {}
  }

  datatype Walk = Walk(processed: set<Version>, pushed: seq<Store>)

  function WalkOver(u: Update, processed: set<Version>, order: seq<Store>): Walk
    requires forall st | st in order :: st in u.conf
  {
    if order == [] then Walk(processed, [])
    else
      var w, last := WalkOver(u, processed, order[..|order| - 1]), order[|order| - 1];
      Walk(w.processed + Succeeding(u, last, w.processed),
           if Attempts(u, last, w.processed) then w.pushed + [last] else w.pushed)
  }

  /** `Processed`, with only some stores visited. */
  function Part(u: Update, processed: set<Version>, visited: seq<Store>): set<Version> {
    processed
    + set st | st in Attempted(u, processed) && !u.Fails(st) && st in visited :: Version(st, u.conf[st].version)
  }

  lemma PartOneMore(u: Update, processed: set<Version>, front: seq<Store>, store: Store)
    requires store in u.conf && store !in front
    ensures Attempts(u, store, Part(u, processed, front)) <==> store in Attempted(u, processed)
    ensures Part(u, processed, front + [store])
            == Part(u, processed, front) + Succeeding(u, store, Part(u, processed, front))
  {
  }

  lemma PartOfAll(u: Update, processed: set<Version>, order: seq<Store>)
    requires forall st :: st in order <==> st in u.conf
    ensures Part(u, processed, order) == Processed(u, processed)
  {
  }

  /** The order of the visits does not show. */
  lemma {:induction false} WalkIsPart(u: Update, processed: set<Version>, order: seq<Store>)
    requires forall st | st in order :: st in u.conf
    requires forall i, j | 0 <= i < j < |order| :: order[i] != order[j]
    ensures WalkOver(u, processed, order).processed == Part(u, processed, order)
    ensures forall st :: st in WalkOver(u, processed, order).pushed <==> st in Attempted(u, processed) && st in order
    ensures forall i, j | 0 <= i < j < |WalkOver(u, processed, order).pushed| ::
              WalkOver(u, processed, order).pushed[i] != WalkOver(u, processed, order).pushed[j]
    decreases |order|
  {
    if order != [] {
      var front, last := order[..|order| - 1], order[|order| - 1];
      assert order == front + [last];
      WalkIsPart(u, processed, front);
      PartOneMore(u, processed, front, last);
    }
  }

  // ---------------------------------------------------------------- whole histories

  /** What is processed after the updates of `h`. */
  function After(h: seq<Update>): set<Version> {
    if h == [] then {} else Processed(h[|h| - 1], After(h[..|h| - 1]))
  }

  /** Update `i` pushes a task for the version; */
  predicate AttemptedAt(h: seq<Update>, i: nat, v: Version)
    requires i < |h|
  {
    Names(h[i], v) && v.store in Attempted(h[i], After(h[..i]))
  }

  /** and the worker delivers a result for it, or an error without a text. */
  predicate SucceededAt(h: seq<Update>, i: nat, v: Version)
    requires i < |h|
  {
    AttemptedAt(h, i, v) && (h[i].outcome(v.store).Result? || h[i].outcome(v.store) == D.Error(""))
  }

  /** A version is marked processed iff one of its migration tasks has succeeded. */
  lemma {:induction false} ProcessedIffSucceeded(h: seq<Update>, v: Version)
    ensures v in After(h) <==> exists i :: 0 <= i < |h| && SucceededAt(h, i, v)
    decreases |h|
  {
    if h != [] {
      var n := |h| - 1;
      ProcessedIffSucceeded(h[..n], v);
      forall i | 0 <= i < n
        ensures SucceededAt(h, i, v) <==> SucceededAt(h[..n], i, v)
      {
        assert h[..n][..i] == h[..i];
      }
      if v in After(h) && v !in After(h[..n]) {
        assert SucceededAt(h, n, v);
      }
      if v in After(h[..n]) {
        var i :| 0 <= i < n && SucceededAt(h[..n], i, v);
        assert SucceededAt(h, i, v);
      }
    }
  }

  /**
   An update that names a version pushes its task iff the task has never succeeded before: a success
   is never repeated, and a failure is repeated at the next update that names the version.
   */
  lemma AttemptedIffNotYetSucceeded(h: seq<Update>, j: nat, v: Version)
    requires j < |h| && Names(h[j], v)
    ensures AttemptedAt(h, j, v) <==> !exists i :: 0 <= i < j && SucceededAt(h, i, v)
  {
    ProcessedIffSucceeded(h[..j], v);
    forall i | 0 <= i < j
      ensures SucceededAt(h[..j], i, v) <==> SucceededAt(h, i, v)
    {
      assert h[..j][..i] == h[..i];
    }
  }

  lemma SucceedsAtMostOnce(h: seq<Update>, i: nat, j: nat, v: Version)
    requires i < j < |h| && SucceededAt(h, i, v)
    ensures !AttemptedAt(h, j, v)
  {
    if Names(h[j], v) {
      AttemptedIffNotYetSucceeded(h, j, v);
    }
  }

  /**
   A worker that reports its migration as failed with an empty text has the version marked as processed
   all the same, and the migration is never attempted again.
   */
  lemma EmptyErrorIsSuccess(h: seq<Update>, i: nat, j: nat, v: Version)
    requires i < j <= |h| && AttemptedAt(h, i, v) && h[i].outcome(v.store) == D.Error("")
    ensures v in After(h[..j]) && (j < |h| ==> !AttemptedAt(h, j, v))
  {
    ProcessedIffSucceeded(h[..j], v);
    assert h[..j][..i] == h[..i];
    assert SucceededAt(h[..j], i, v);
    if j < |h| {
      SucceedsAtMostOnce(h, i, j, v);
    }
  }

  /** Any other error leaves the migration to the next update that names the version, */
  lemma OtherErrorIsFailure(h: seq<Update>, i: nat, v: Version)
    requires i < |h| && AttemptedAt(h, i, v) && h[i].outcome(v.store).Error? && h[i].outcome(v.store).text != ""
    ensures v !in After(h[..i + 1])
  {
    assert h[..i + 1][..i] == h[..i] && h[..i + 1][i] == h[i];
    assert After(h[..i + 1]) == Processed(h[i], After(h[..i]));
  }

  /** also that of a worker whose connection is lost. */
  lemma LostWorkerIsFailure(h: seq<Update>, i: nat, v: Version)
    requires i < |h| && AttemptedAt(h, i, v) && h[i].outcome(v.store) == D.WORKER_LOST
    ensures v !in After(h[..i + 1])
  {
    OtherErrorIsFailure(h, i, v);
  }
}
