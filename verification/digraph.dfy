/** Finite directed graphs over node ids: paths, cycles and linear extensions.
    The validator, the schema pass and the engine all argue from the same two facts:
    a nonempty finite set in which every member has a predecessor contains a cycle,
    and a finite acyclic relation has a linear extension. */
module Digraph {

  datatype Id = Id(text: string)

  type Relation = set<(Id, Id)>

  ghost predicate IsPath(rel: Relation, p: seq<Id>) {
    && |p| > 0
    && forall i :: 0 <= i < |p| - 1 ==> (p[i], p[i + 1]) in rel
  }

  /** A path of at least one edge from u to v. */
  ghost predicate PathBetween(rel: Relation, u: Id, v: Id, p: seq<Id>) {
    |p| >= 2 && IsPath(rel, p) && p[0] == u && p[|p| - 1] == v
  }

  /** v can be reached from u along at least one edge. */
  ghost predicate Precedes(rel: Relation, u: Id, v: Id) {
    exists p :: PathBetween(rel, u, v, p)
  }

  /** v can be reached from u along any number of edges. */
  ghost predicate Reaches(rel: Relation, u: Id, v: Id) {
    u == v || Precedes(rel, u, v)
  }

  ghost predicate Cyclic(rel: Relation) {
    exists u :: Precedes(rel, u, u)
  }

  ghost predicate Ranks(rel: Relation, rank: map<Id, nat>) {
    forall e :: e in rel ==> e.0 in rank && e.1 in rank && rank[e.0] < rank[e.1]
  }

  lemma EdgePrecedes(rel: Relation, u: Id, v: Id)
    requires (u, v) in rel
    ensures Precedes(rel, u, v)
  {
    assert PathBetween(rel, u, v, [u, v]);
  }

  lemma PrecedesTransitive(rel: Relation, u: Id, v: Id, w: Id)
    requires Precedes(rel, u, v) && Precedes(rel, v, w)
    ensures Precedes(rel, u, w)
  {
    var p :| PathBetween(rel, u, v, p);
    var q :| PathBetween(rel, v, w, q);
    var r := p + q[1..];
    forall i | 0 <= i < |r| - 1 ensures (r[i], r[i + 1]) in rel {
      if i >= |p| - 1 {
        assert (q[i - |p| + 1], q[i - |p| + 2]) in rel;
        assert r[i] == q[i - |p| + 1];
      }
    }
    assert PathBetween(rel, u, w, r);
  }

  /** The last edge of a path: its source is the start of the path or lies after it. */
  lemma LastEdge(rel: Relation, u: Id, v: Id) returns (w: Id)
    requires Precedes(rel, u, v)
    ensures (w, v) in rel && Reaches(rel, u, w)
  {
    var p :| PathBetween(rel, u, v, p);
    w := p[|p| - 2];
    if |p| > 2 {
      assert PathBetween(rel, u, w, p[..|p| - 1]);
    }
  }

  /** The first edge of a path. */
  lemma FirstEdge(rel: Relation, u: Id, v: Id) returns (w: Id)
    requires Precedes(rel, u, v)
    ensures (u, w) in rel && Reaches(rel, w, v)
  {
    var p :| PathBetween(rel, u, v, p);
    w := p[1];
    if |p| > 2 {
      assert PathBetween(rel, w, v, p[1..]);
    }
  }

  /** A set closed under predecessors holds everything that reaches one of its members. */
  lemma {:induction false} ClosedUnderPredecessors(rel: Relation, s: set<Id>, p: seq<Id>)
    requires forall e :: e in rel && e.1 in s ==> e.0 in s
    requires IsPath(rel, p) && p[|p| - 1] in s
    ensures p[0] in s
    decreases |p|
  {
    if |p| > 1 {
      assert (p[0], p[1]) in rel;
      ClosedUnderPredecessors(rel, s, p[1..]);
    }
  }

  /** A set closed under successors holds everything reached from one of its members. */
  lemma {:induction false} ClosedUnderSuccessors(rel: Relation, s: set<Id>, p: seq<Id>)
    requires forall e :: e in rel && e.0 in s ==> e.1 in s
    requires IsPath(rel, p) && p[0] in s
    ensures p[|p| - 1] in s
    decreases |p|
  {
    if |p| > 1 {
      assert (p[0], p[1]) in rel;
      ClosedUnderSuccessors(rel, s, p[1..]);
    }
  }

  ghost function Elements(p: seq<Id>): set<Id> {
    set x | x in p
  }

  ghost predicate Distinct(s: seq<Id>) {
    forall i, j :: 0 <= i < j < |s| ==> s[i] != s[j]
  }

  lemma NextElement(ids: seq<Id>, i: nat)
    requires i < |ids| && Distinct(ids)
    ensures Elements(ids[..i + 1]) == Elements(ids[..i]) + {ids[i]} && ids[i] !in Elements(ids[..i])
    ensures ids[i] in Elements(ids)
  {
    assert ids[..i + 1] == ids[..i] + [ids[i]];
  }

  lemma AppendNew(s: seq<Id>, x: Id)
    requires Distinct(s) && x !in Elements(s)
    ensures Distinct(s + [x]) && Elements(s + [x]) == Elements(s) + {x}
  {
    assert forall i :: 0 <= i < |s| ==> s[i] in Elements(s);
  }

  lemma LastElement(s: seq<Id>)
    requires s != []
    ensures Elements(s) == Elements(s[..|s| - 1]) + {s[|s| - 1]}
  {
    assert s == s[..|s| - 1] + [s[|s| - 1]];
  }

  lemma RemoveLast(ready: seq<Id>)
    requires Distinct(ready) && ready != []
    ensures Distinct(ready[..|ready| - 1]) && ready[|ready| - 1] in Elements(ready)
    ensures Elements(ready[..|ready| - 1]) == Elements(ready) - {ready[|ready| - 1]}
  {
    assert ready == ready[..|ready| - 1] + [ready[|ready| - 1]];
  }

  /** Extend a simple path backwards inside `members` until it repeats a node. */
  lemma {:induction false} BackwardPathCloses(rel: Relation, members: set<Id>, p: seq<Id>)
    requires IsPath(rel, p) && Elements(p) <= members
    requires forall v :: v in members ==> exists u :: u in members && (u, v) in rel
    ensures Cyclic(rel)
    decreases members - Elements(p)
  {
    var v := p[0];
    assert v in Elements(p);
    var u :| u in members && (u, v) in rel;
    var q := [u] + p;
    forall i | 0 <= i < |q| - 1 ensures (q[i], q[i + 1]) in rel {
      if i > 0 { assert (p[i - 1], p[i]) in rel; }
    }
    if u in p {
      var k :| 0 <= k < |p| && p[k] == u;
      assert PathBetween(rel, u, u, q[..k + 2]);
      assert Precedes(rel, u, u);
    } else {
      assert Elements(q) == Elements(p) + {u};
      BackwardPathCloses(rel, members, q);
    }
  }

  /** A nonempty finite set in which every member has a predecessor in the set contains a cycle. */
  lemma PredecessorsInsideMakeACycle(rel: Relation, members: set<Id>)
    requires members != {}
    requires forall v :: v in members ==> exists u :: u in members && (u, v) in rel
    ensures Cyclic(rel)
  {
    var v :| v in members;
    assert Elements([v]) == {v};
    BackwardPathCloses(rel, members, [v]);
  }

  /** Every finite set of nodes can be ranked by an acyclic relation. */
  lemma {:induction false} RankWithin(rel: Relation, members: set<Id>) returns (rank: map<Id, nat>, top: nat)
    requires !Cyclic(rel)
    ensures rank.Keys == members
    ensures forall v :: v in members ==> rank[v] < top
    ensures forall e :: e in rel && e.0 in members && e.1 in members ==> rank[e.0] < rank[e.1]
    decreases |members|
  {
    if members == {} {
      rank, top := map[], 0;
    } else {
      if forall v :: v in members ==> exists u :: u in members && (u, v) in rel {
        PredecessorsInsideMakeACycle(rel, members);
      }
      var v :| v in members && forall u :: u in members ==> (u, v) !in rel;
      var rest := members - {v};
      var inner, bound := RankWithin(rel, rest);
      rank := (map x | x in rest :: inner[x] + 1)[v := 0];
      top := bound + 1;
    }
  }

  /** A relation is acyclic exactly when some ranking makes every edge go up. */
  lemma AcyclicIffRanked(rel: Relation)
    ensures !Cyclic(rel) <==> exists rank :: Ranks(rel, rank)
  {
    if !Cyclic(rel) {
      var members := (set e | e in rel :: e.0) + (set e | e in rel :: e.1);
      var rank, top := RankWithin(rel, members);
      assert Ranks(rel, rank);
    }
    if rank :| Ranks(rel, rank) {
      if u :| Precedes(rel, u, u) {
        var p :| PathBetween(rel, u, u, p);
        RankGrowsAlongPath(rel, rank, p);
        assert false;
      }
    }
  }

  lemma {:induction false} RankGrowsAlongPath(rel: Relation, rank: map<Id, nat>, p: seq<Id>)
    requires Ranks(rel, rank) && IsPath(rel, p) && |p| >= 2
    ensures p[0] in rank && p[|p| - 1] in rank && rank[p[0]] < rank[p[|p| - 1]]
    decreases |p|
  {
    assert (p[0], p[1]) in rel;
    if |p| > 2 {
      RankGrowsAlongPath(rel, rank, p[1..]);
    }
  }

  lemma PrecedesRaisesRank(rel: Relation, rank: map<Id, nat>, u: Id, v: Id)
    requires Ranks(rel, rank) && Precedes(rel, u, v)
    ensures u in rank && v in rank && rank[u] < rank[v]
  {
    var p :| PathBetween(rel, u, v, p);
    RankGrowsAlongPath(rel, rank, p);
  }

  lemma {:induction false} PathOfPaths(steps: Relation, rel: Relation, p: seq<Id>)
    requires forall e :: e in steps ==> Precedes(rel, e.0, e.1)
    requires IsPath(steps, p) && |p| >= 2
    ensures Precedes(rel, p[0], p[|p| - 1])
    decreases |p|
  {
    assert (p[0], p[1]) in steps;
    if |p| > 2 {
      PathOfPaths(steps, rel, p[1..]);
      PrecedesTransitive(rel, p[0], p[1], p[|p| - 1]);
    }
  }

  ghost predicate HasEarlier(rel: Relation, members: set<Id>, v: Id) {
    exists u :: u in members && Precedes(rel, u, v)
  }

  ghost function StepsWithin(rel: Relation, members: set<Id>): Relation {
    set u, v | u in members && v in members && Precedes(rel, u, v) :: (u, v)
  }

  lemma CycleOfSteps(rel: Relation, members: set<Id>)
    requires Cyclic(StepsWithin(rel, members))
    ensures Cyclic(rel)
  {
    var steps := StepsWithin(rel, members);
    var u :| Precedes(steps, u, u);
    var p :| PathBetween(steps, u, u, p);
    PathOfPaths(steps, rel, p);
  }

  lemma StepToMember(rel: Relation, members: set<Id>, v: Id)
    requires v in members && HasEarlier(rel, members, v)
    ensures exists u :: u in members && (u, v) in StepsWithin(rel, members)
  {
    var u :| u in members && Precedes(rel, u, v);
    assert (u, v) in StepsWithin(rel, members);
  }

  /** The same for members preceded at any distance. */
  lemma PrecededInsideMakesACycle(rel: Relation, members: set<Id>)
    requires members != {}
    requires forall v :: v in members ==> HasEarlier(rel, members, v)
    ensures Cyclic(rel)
  {
    hide HasEarlier, Cyclic, StepsWithin;
    forall v | v in members ensures exists u :: u in members && (u, v) in StepsWithin(rel, members) {
      StepToMember(rel, members, v);
    }
    PredecessorsInsideMakeACycle(StepsWithin(rel, members), members);
    CycleOfSteps(rel, members);
  }

  /** Dropping edges keeps a relation acyclic. */
  lemma SubrelationAcyclic(sub: Relation, rel: Relation)
    requires sub <= rel && !Cyclic(rel)
    ensures !Cyclic(sub)
  {
    if u :| Precedes(sub, u, u) {
      var p :| PathBetween(sub, u, u, p);
      assert PathBetween(rel, u, u, p);
      assert Precedes(rel, u, u);
      assert false;
    }
  }
}
