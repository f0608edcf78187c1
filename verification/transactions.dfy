/** Transactions that write to several entities' logs. At commit time a transaction numbers its rows one
    entity after another in the order of the entity ids, taking each counter's row lock and keeping it
    until it commits or rolls back. Entities are named by their place in that order. */
module Transactions {
  import opened ChannelGraph
  import opened CommitLog

  type Entity = nat

  /** `Numbering(done)` has run the trigger body for the entities in `done`. */
  datatype Phase = Writing | Numbering(done: set<Entity>) | Ended

  /** `pending` is the table the insert trigger fills, one row per transaction and entity written. */
  datatype Db = Db(logs: map<Entity, Stream>, phases: map<Tx, Phase>, pending: set<(Tx, Entity)>)

  const START := Db(map[], map[], {})

  datatype Action =
    | AddEntity(e: Entity)
    | Begin(tx: Tx)
    | Write(tx: Tx, e: Entity)
    | Number(tx: Tx, e: Entity, rows: seq<nat>)
    | CommitAll(tx: Tx)
    | RollbackAll(tx: Tx)
    | Delete(e: Entity, gone: set<nat>, top: Option<Position>)

  function Log(db: Db, e: Entity): Stream {
    if e in db.logs then db.logs[e] else EMPTY
  }

  function PhaseOf(db: Db, tx: Tx): Phase {
    if tx in db.phases then db.phases[tx] else Ended
  }

  function Done(db: Db, tx: Tx): set<Entity> {
    if PhaseOf(db, tx).Numbering? then PhaseOf(db, tx).done else {}
  }

  /** The next entity the trigger's loop reaches. */
  ghost predicate IsNext(db: Db, tx: Tx, e: Entity) {
    && (tx, e) in db.pending && e !in Done(db, tx)
    && forall x :: (tx, x) in db.pending && x !in Done(db, tx) ==> e <= x
  }

  ghost predicate AllNumbered(db: Db, tx: Tx) {
    forall x :: (tx, x) in db.pending ==> x in Done(db, tx)
  }

  ghost predicate Allowed(db: Db, a: Action) {
    match a
    case AddEntity(e) => e !in db.logs
    case Begin(tx) => tx !in db.phases
    case Write(tx, e) => e in db.logs && PhaseOf(db, tx).Writing?
    case Number(tx, e, rows) => e in db.logs && !PhaseOf(db, tx).Ended? && IsNext(db, tx, e)
        && Enabled(Log(db, e), Assign(tx, rows))
    case CommitAll(tx) => !PhaseOf(db, tx).Ended? && AllNumbered(db, tx)
    case RollbackAll(tx) => !PhaseOf(db, tx).Ended?
    case Delete(e, gone, top) => e in db.logs && Enabled(Log(db, e), Purge(gone, top))
  }

  function WithoutTx(pending: set<(Tx, Entity)>, tx: Tx): set<(Tx, Entity)> {
    set p | p in pending && p.0 != tx
  }

  /** What one action does to one entity's log. */
  function On(db: Db, a: Action, e: Entity): Event {
    match a
    case AddEntity(_) => Idle
    case Begin(_) => Idle
    case Write(tx, x) => if x == e then Insert(tx) else Idle
    case Number(tx, x, rows) => if x == e then Assign(tx, rows) else Idle
    case CommitAll(tx) => if Holds(Log(db, e), tx) then Commit(tx) else Idle
    case RollbackAll(tx) => Rollback(tx)
    case Delete(x, gone, top) => if x == e && gone <= Log(db, e).entries.Keys then Purge(gone, top) else Idle
  }

  function Perform(db: Db, a: Action): Db {
    var logs := map e | e in db.logs :: Apply(db.logs[e], On(db, a, e));
    match a
    case AddEntity(e) => db.(logs := db.logs[e := EMPTY])
    case Begin(tx) => db.(phases := db.phases[tx := Writing])
    case Write(tx, e) => db.(logs := logs, pending := db.pending + {(tx, e)})
    case Number(tx, e, _) => db.(logs := logs, phases := db.phases[tx := Numbering(Done(db, tx) + {e})])
    case CommitAll(tx) => Db(logs, db.phases[tx := Ended], WithoutTx(db.pending, tx))
    case RollbackAll(tx) => Db(logs, db.phases[tx := Ended], WithoutTx(db.pending, tx))
    case Delete(_, _, _) => db.(logs := logs)
  }

  ghost predicate DbStep(d: Db, f: Db) {
    exists a :: Allowed(d, a) && f == Perform(d, a)
  }

  ghost predicate IsDbRun(dbs: seq<Db>) {
    && |dbs| > 0 && dbs[0] == START
    && forall i :: 0 <= i < |dbs| - 1 ==> DbStep(dbs[i], dbs[i + 1])
  }

  // ---------- locks ----------

  /** A counter is locked by tx exactly when tx has numbered its rows there and not ended. */
  ghost predicate LockOk(db: Db, e: Entity, tx: Tx) {
    Holds(Log(db, e), tx) <==> e in Done(db, tx)
  }

  /** What is announced is written by an open transaction, and every uncommitted row is announced. */
  ghost predicate PendingOk(db: Db, tx: Tx, e: Entity) {
    && ((tx, e) in db.pending ==> e in db.logs && !PhaseOf(db, tx).Ended?)
    && (e in Done(db, tx) || RowsOf(Log(db, e).drafts, tx) != {} ==> (tx, e) in db.pending)
  }

  /** The loop goes upwards. */
  ghost predicate LoopOk(db: Db, tx: Tx) {
    forall x, y :: x in Done(db, tx) && (tx, y) in db.pending && y !in Done(db, tx) ==> x < y
  }

  ghost predicate LocksInOrder(db: Db) {
    && (forall e: Entity, tx: Tx :: LockOk(db, e, tx))
    && (forall e: Entity, tx: Tx :: PendingOk(db, tx, e))
    && (forall tx: Tx :: LoopOk(db, tx))
  }

  lemma StepKeepsLocks(d: Db, f: Db)
    requires LocksInOrder(d) && DbStep(d, f)
    ensures LocksInOrder(f)
  {
    var a :| Allowed(d, a) && f == Perform(d, a);
    forall e: Entity, tx: Tx ensures LockOk(f, e, tx) {
      ActionKeepsLock(d, a, e, tx);
    }
    forall e: Entity, tx: Tx ensures PendingOk(f, tx, e) {
      ActionKeepsPending(d, a, e, tx);
    }
    forall tx: Tx ensures LoopOk(f, tx) {
      ActionKeepsLoop(d, a, tx);
    }
  }

  lemma ActionKeepsLoop(d: Db, a: Action, tx: Tx)
    requires LocksInOrder(d) && Allowed(d, a)
    ensures LoopOk(Perform(d, a), tx)
  {
    var f := Perform(d, a);
    assert LoopOk(d, tx);
    WhatIsNumbered(d, a, tx);
    forall x, y | x in Done(f, tx) && (tx, y) in f.pending && y !in Done(f, tx) ensures x < y {
      assert PendingOk(d, tx, y);
      if a.Number? && a.tx == tx && x == a.e {
        assert IsNext(d, tx, x) && (tx, y) in d.pending && y !in Done(d, tx);
      } else {
        assert x in Done(d, tx) && (tx, y) in d.pending && y !in Done(d, tx);
      }
    }
  }

  /** What an action makes of the entities a transaction has numbered and announced. */
  lemma WhatIsNumbered(d: Db, a: Action, tx: Tx)
    requires Allowed(d, a)
    ensures var f := Perform(d, a);
      && Done(f, tx) == (if a.Number? && a.tx == tx then Done(d, tx) + {a.e}
          else if (a.CommitAll? || a.RollbackAll?) && a.tx == tx then {} else Done(d, tx))
      && (forall y :: (tx, y) in f.pending && !(a.Write? && a.tx == tx) ==> (tx, y) in d.pending)
      && (a.Write? && a.tx == tx ==> Done(f, tx) == {})
  {
  }

  lemma ActionKeepsLock(d: Db, a: Action, e: Entity, tx: Tx)
    requires LocksInOrder(d) && Allowed(d, a)
    ensures LockOk(Perform(d, a), e, tx)
  {
    assert LockOk(d, e, tx) && PendingOk(d, tx, e);
    if a.CommitAll? || a.RollbackAll? {
      assert LockOk(d, e, a.tx);
    }
  }

  lemma ActionKeepsPending(d: Db, a: Action, e: Entity, tx: Tx)
    requires LocksInOrder(d) && Allowed(d, a)
    ensures PendingOk(Perform(d, a), tx, e)
  {
    assert LockOk(d, e, tx) && PendingOk(d, tx, e);
    if a.CommitAll? || a.RollbackAll? {
      assert LockOk(d, e, a.tx) && PendingOk(d, a.tx, e);
    }
  }

  lemma {:induction false} LocksStayInOrder(dbs: seq<Db>, i: nat)
    requires IsDbRun(dbs) && i < |dbs|
    ensures LocksInOrder(dbs[i])
  {
    if i > 0 {
      LocksStayInOrder(dbs, i - 1);
      StepKeepsLocks(dbs[i - 1], dbs[i]);
    }
  }

  /** Seen from one entity, every action is a step of that entity's log, or leaves it alone. */
  lemma StepOfEachLog(d: Db, f: Db, e: Entity)
    requires LocksInOrder(d) && DbStep(d, f)
    ensures Step(Log(d, e), Log(f, e))
  {
    var a :| Allowed(d, a) && f == Perform(d, a);
    assert Enabled(Log(d, e), Idle);
    assert LockOk(d, e, if a.Write? then a.tx else 0);
    if e in d.logs && !a.AddEntity? && !a.Begin? {
      assert Enabled(Log(d, e), On(d, a, e));
    }
  }

  function Logs(dbs: seq<Db>, e: Entity): (r: seq<Stream>)
    ensures |r| == |dbs| && forall i :: 0 <= i < |dbs| ==> r[i] == Log(dbs[i], e)
  {
    seq(|dbs|, i requires 0 <= i < |dbs| => Log(dbs[i], e))
  }

  /** So a run of the whole database is, entity by entity, a run of that entity's log. */
  lemma RunOfEachLog(dbs: seq<Db>, e: Entity)
    requires IsDbRun(dbs)
    ensures IsRun(Logs(dbs, e))
  {
    forall i | 0 <= i < |dbs| - 1 ensures Step(Logs(dbs, e)[i], Logs(dbs, e)[i + 1]) {
      LocksStayInOrder(dbs, i);
      StepOfEachLog(dbs[i], dbs[i + 1], e);
    }
  }

  // ---------- nobody waits forever ----------

  /** tx is at commit and its next step is open to it. */
  ghost predicate CanMove(db: Db, tx: Tx) {
    && PhaseOf(db, tx).Numbering?
    && (AllNumbered(db, tx) || exists e :: IsNext(db, tx, e) && Log(db, e).holder.None?)
  }

  /** Since counters are taken in one order, some transaction at commit can always move: the locks never deadlock. */
  lemma SomebodyMoves(dbs: seq<Db>, tx: Tx) returns (t: Tx)
    requires IsDbRun(dbs) && PhaseOf(dbs[|dbs| - 1], tx).Numbering?
    ensures CanMove(dbs[|dbs| - 1], t)
  {
    LocksStayInOrder(dbs, |dbs| - 1);
    t := FollowTheWaiters(dbs[|dbs| - 1], tx, {});
  }

  ghost predicate IsLeast(s: set<Entity>, e: Entity) {
    e in s && forall x :: x in s ==> e <= x
  }

  lemma LeastOf(s: set<Entity>) returns (e: Entity)
    requires s != {}
    ensures IsLeast(s, e)
    decreases |s|
  {
    e :| e in s;
    if s != {e} {
      var rest := LeastOf(s - {e});
      assert forall x :: x in s ==> x == e || x in s - {e};
      e := if e <= rest then e else rest;
    }
  }

  /** From a waiting transaction to the one it waits for, whose own wait is for a later entity. */
  lemma {:induction false} FollowTheWaiters(db: Db, tx: Tx, passed: set<Entity>) returns (t: Tx)
    requires LocksInOrder(db) && PhaseOf(db, tx).Numbering?
    requires passed <= db.logs.Keys
    requires forall x, y :: x in passed && (tx, y) in db.pending && y !in Done(db, tx) ==> x < y
    ensures CanMove(db, t)
    decreases |db.logs.Keys - passed|
  {
    var waiting := set p | p in db.pending && p.0 == tx && p.1 !in Done(db, tx) :: p.1;
    if waiting == {} {
      forall x | (tx, x) in db.pending ensures x in Done(db, tx) {
        assert x !in Done(db, tx) ==> (tx, x).1 in waiting;
      }
      t := tx;
    } else {
      var e := LeastOf(waiting);
      assert PendingOk(db, tx, e);
      forall x | (tx, x) in db.pending && x !in Done(db, tx) ensures e <= x {
        assert (tx, x).1 in waiting;
      }
      assert IsNext(db, tx, e);
      if Log(db, e).holder.None? {
        t := tx;
      } else {
        var other := Log(db, e).holder.value.tx;
        assert LockOk(db, e, other) && LoopOk(db, other);
        assert e !in passed && passed < passed + {e};
        assert db.logs.Keys - (passed + {e}) < db.logs.Keys - passed;
        t := FollowTheWaiters(db, other, passed + {e});
      }
    }
  }
}
