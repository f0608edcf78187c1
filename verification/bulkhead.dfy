/** The process-local admission pool: a bounded number of tasks, a share of them per actor.
    Each method below is one locked section; `admitted` remembers who was admitted and not yet released. */
module Bulkhead {
  import opened Digraph
  import opened ChannelGraph

  type Task = nat

  datatype Verdict =
    | Admitted
    | CapacityExceeded(occupied: nat, limit: nat)
    | ActorShareExceeded(occupied: nat, limit: nat)

  function Used(perActor: map<Id, nat>, actor: Id): nat {
    if actor in perActor then perActor[actor] else 0
  }

  ghost function Sum(perActor: map<Id, nat>): nat {
    if perActor == map[] then 0
    else
      var a :| a in perActor;
      perActor[a] + Sum(perActor - {a})
  }

  /** The sum does not depend on the order the actors are taken in. */
  lemma {:induction false} SumWithout(perActor: map<Id, nat>, a: Id)
    requires a in perActor
    ensures Sum(perActor) == perActor[a] + Sum(perActor - {a})
    decreases |perActor|
  {
    var b :| b in perActor && Sum(perActor) == perActor[b] + Sum(perActor - {b});
    if a != b {
      SumWithout(perActor - {b}, a);
      SumWithout(perActor - {a}, b);
      assert perActor - {b} - {a} == perActor - {a} - {b};
    }
  }

  lemma SumUpdated(perActor: map<Id, nat>, a: Id, n: nat)
    ensures Sum(perActor[a := n]) == Sum(perActor - {a}) + n
    ensures Sum(perActor) == Sum(perActor - {a}) + Used(perActor, a)
  {
    SumWithout(perActor[a := n], a);
    assert perActor[a := n] - {a} == perActor - {a};
    if a in perActor {
      SumWithout(perActor, a);
    } else {
      assert perActor - {a} == perActor;
    }
  }

  function TasksOf(admitted: map<Task, Id>, actor: Id): set<Task> {
    set t | t in admitted && admitted[t] == actor
  }

  ghost predicate ActorOk(share: nat, perActor: map<Id, nat>, admitted: map<Task, Id>, a: Id) {
    Used(perActor, a) == |TasksOf(admitted, a)| && Used(perActor, a) <= share
  }

  /** The total counts the admitted tasks, and the per-actor counts count each actor's; both within bounds. */
  ghost predicate Accounts(slots: nat, share: nat, total: nat, perActor: map<Id, nat>, admitted: map<Task, Id>) {
    && total == Sum(perActor) == |admitted| && total <= slots
    && forall a: Id :: ActorOk(share, perActor, admitted, a)
  }

  lemma OneTaskMore(admitted: map<Task, Id>, task: Task, actor: Id, a: Id)
    requires task !in admitted
    ensures |TasksOf(admitted[task := actor], a)| == |TasksOf(admitted, a)| + (if a == actor then 1 else 0)
    ensures |admitted[task := actor]| == |admitted| + 1
  {
    var after := admitted[task := actor];
    assert after.Keys == admitted.Keys + {task} && |after| == |after.Keys| && |admitted| == |admitted.Keys|;
    var mine, now := TasksOf(admitted, a), TasksOf(after, a);
    if a == actor {
      assert now == mine + {task} && task !in mine;
    } else {
      assert now == mine;
    }
  }

  lemma OneTaskLess(admitted: map<Task, Id>, task: Task, a: Id)
    requires task in admitted
    ensures |TasksOf(admitted - {task}, a)| == |TasksOf(admitted, a)| - (if a == admitted[task] then 1 else 0)
    ensures |admitted - {task}| == |admitted| - 1
  {
    var left := admitted - {task};
    assert left.Keys == admitted.Keys - {task} && |left| == |left.Keys| && |admitted| == |admitted.Keys|;
    assert TasksOf(left, a) == if a == admitted[task] then TasksOf(admitted, a) - {task} else TasksOf(admitted, a);
  }

  lemma OneActorMore(perActor: map<Id, nat>, actor: Id)
    ensures Sum(perActor[actor := Used(perActor, actor) + 1]) == Sum(perActor) + 1
  {
    SumUpdated(perActor, actor, Used(perActor, actor) + 1);
  }

  lemma AdmitKeepsAccounts(slots: nat, share: nat, total: nat, perActor: map<Id, nat>, admitted: map<Task, Id>,
                           task: Task, actor: Id)
    requires Accounts(slots, share, total, perActor, admitted) && task !in admitted
    requires total < slots && Used(perActor, actor) < share
    ensures Accounts(slots, share, total + 1, perActor[actor := Used(perActor, actor) + 1], admitted[task := actor])
  {
    var after, counted := admitted[task := actor], perActor[actor := Used(perActor, actor) + 1];
    OneActorMore(perActor, actor);
    OneTaskMore(admitted, task, actor, actor);
    forall a: Id ensures ActorOk(share, counted, after, a) {
      assert ActorOk(share, perActor, admitted, a);
      OneTaskMore(admitted, task, actor, a);
    }
  }

  function OneLess(perActor: map<Id, nat>, actor: Id): map<Id, nat> {
    if Used(perActor, actor) <= 1 then perActor - {actor} else perActor[actor := Used(perActor, actor) - 1]
  }

  /** Releasing an admitted task never meets the clamps: the total and the actor's count are both positive. */
  lemma ReleaseKeepsAccounts(slots: nat, share: nat, total: nat, perActor: map<Id, nat>, admitted: map<Task, Id>,
                             task: Task)
    requires Accounts(slots, share, total, perActor, admitted) && task in admitted
    ensures total > 0 && Used(perActor, admitted[task]) > 0
    ensures Accounts(slots, share, total - 1, OneLess(perActor, admitted[task]), admitted - {task})
  {
    var actor, left := admitted[task], admitted - {task};
    var counted := OneLess(perActor, actor);
    assert ActorOk(share, perActor, admitted, actor) && task in TasksOf(admitted, actor);
    SumUpdated(perActor, actor, Used(perActor, actor) - 1);
    OneTaskLess(admitted, task, actor);
    forall a: Id ensures ActorOk(share, counted, left, a) {
      assert ActorOk(share, perActor, admitted, a);
      OneTaskLess(admitted, task, a);
    }
  }

  lemma TouchKeepsAccounts(slots: nat, share: nat, total: nat, perActor: map<Id, nat>, admitted: map<Task, Id>,
                           actor: Id)
    requires Accounts(slots, share, total, perActor, admitted)
    ensures Accounts(slots, share, total, perActor[actor := Used(perActor, actor)], admitted)
  {
    var counted := perActor[actor := Used(perActor, actor)];
    SumUpdated(perActor, actor, Used(perActor, actor));
    forall a: Id ensures ActorOk(share, counted, admitted, a) {
      assert ActorOk(share, perActor, admitted, a);
    }
  }

  lemma AccountsCount(slots: nat, share: nat, total: nat, perActor: map<Id, nat>, admitted: map<Task, Id>, actor: Id)
    requires Accounts(slots, share, total, perActor, admitted)
    ensures total == |admitted| <= slots && Used(perActor, actor) == |TasksOf(admitted, actor)| <= share
  {
    assert ActorOk(share, perActor, admitted, actor);
  }

  class PeekBulkhead {
    const slots: nat
    const share: nat
    var total: nat
    var perActor: map<Id, nat>
    ghost var admitted: map<Task, Id>

    ghost predicate Valid()
      reads this
    {
      Accounts(slots, share, total, perActor, admitted)
    }

    constructor (slots: int, share: int)
      ensures Valid() && total == 0 && admitted == map[]
      ensures this.slots == (if slots < 0 then 0 else slots) && this.share == (if share < 0 then 0 else share)
    {
      this.slots := if slots < 0 then 0 else slots;
      this.share := if share < 0 then 0 else share;
      total, perActor, admitted := 0, map[], map[];
      new;
      assert forall a: Id :: TasksOf(admitted, a) == {};
      assert forall a: Id :: ActorOk(this.share, perActor, admitted, a);
    }

    /** The locked part of a submission. Looking an actor up leaves a zero entry behind. */
    method Admit(actor: Id, ghost task: Task) returns (verdict: Verdict)
      requires Valid() && task !in admitted
      modifies this
      ensures Valid()
      ensures verdict.Admitted? <==> slots >= 1 && Used(old(perActor), actor) < share && old(total) < slots
      ensures admitted == if verdict.Admitted? then old(admitted)[task := actor] else old(admitted)
      ensures verdict.ActorShareExceeded? ==> verdict.occupied == |TasksOf(admitted, actor)| == share == verdict.limit
      ensures verdict.CapacityExceeded? ==> verdict.occupied == |admitted| == slots == verdict.limit
    {
      hide Accounts, TasksOf;
      AccountsCount(slots, share, total, perActor, admitted, actor);
      if slots < 1 {
        return CapacityExceeded(0, 0);
      }
      TouchKeepsAccounts(slots, share, total, perActor, admitted, actor);
      var used := Used(perActor, actor);
      perActor := perActor[actor := used];
      if used >= share {
        return ActorShareExceeded(used, share);
      }
      if total >= slots {
        return CapacityExceeded(total, slots);
      }
      AdmitKeepsAccounts(slots, share, total, perActor, admitted, task, actor);
      total := total + 1;
      perActor := perActor[actor := used + 1];
      admitted := admitted[task := actor];
      return Admitted;
    }

    /** A task finished, or could not be handed to the executor. */
    method Release(actor: Id, ghost task: Task)
      requires Valid() && task in admitted && admitted[task] == actor
      modifies this
      ensures Valid() && admitted == old(admitted) - {task}
      ensures total == old(total) - 1 && Used(perActor, actor) == Used(old(perActor), actor) - 1
      ensures forall a :: a != actor ==> Used(perActor, a) == Used(old(perActor), a)
    {
      hide Accounts, TasksOf;
      ReleaseKeepsAccounts(slots, share, total, perActor, admitted, task);
      total := if total - 1 > 0 then total - 1 else 0;
      var left := (if actor in perActor then perActor[actor] else 0) - 1;
      if left <= 0 {
        perActor := perActor - {actor};
      } else {
        perActor := perActor[actor := left];
      }
      admitted := admitted - {task};
    }

    /** A submission whose hand-off to the executor may fail: then it leaves the accounts as they were. */
    method SubmitNowait(actor: Id, handedOff: bool, ghost task: Task) returns (verdict: Verdict)
      requires Valid() && task !in admitted
      modifies this
      ensures Valid()
      ensures admitted == if verdict.Admitted? && handedOff then old(admitted)[task := actor] else old(admitted)
    {
      verdict := Admit(actor, task);
      if verdict.Admitted? && !handedOff {
        Release(actor, task);
        assert old(admitted)[task := actor] - {task} == old(admitted);
      }
    }

    method Snapshot() returns (occupied: nat, limit: nat, shareLimit: nat)
      requires Valid()
      ensures occupied == |admitted| <= limit == slots && shareLimit == share
    {
      return total, slots, share;
    }
  }
}
