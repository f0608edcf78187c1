/** The two trigger bodies on the log tables: one notes which entities a transaction wrote, the other,
    deferred to commit, numbers its rows entity by entity. */
module AssignTrigger {
  import opened ChannelGraph
  import opened CommitLog
  import opened Transactions

  datatype Row = Row(tx: Tx, number: Option<nat>)

  type Rows = map<(Entity, nat), Row>

  /** The rows one transaction still has to number on one entity. */
  function Unnumbered(rows: Rows, e: Entity, tx: Tx): set<nat> {
    set k | k in rows && k.0 == e && rows[k].tx == tx && rows[k].number.None? :: k.1
  }

  function Elems(rows: seq<nat>): set<nat> {
    set r | r in rows
  }

  function UpTo(members: set<nat>, r: nat): set<nat> {
    set q | q in members && q <= r
  }

  /** row_number() over the rows in sequence order. */
  function Rank(members: set<nat>, r: nat): nat {
    |UpTo(members, r)|
  }

  /** The update of one entity's rows above a base. */
  function NumberRows(rows: Rows, e: Entity, tx: Tx, base: nat): Rows {
    var mine := Unnumbered(rows, e, tx);
    map k | k in rows :: if k.0 == e && k.1 in mine then rows[k].(number := Some(base + Rank(mine, k.1))) else rows[k]
  }

  /** Numbering by rank is numbering by place in the ascending list of rows. */
  lemma {:induction false} RankIsPlace(rows: seq<nat>, members: set<nat>, base: nat, i: nat)
    requires Enumerates(rows, members) && i < |rows|
    ensures Rank(members, rows[i]) == i + 1
    ensures rows[i] in Numbered(rows, base) && Numbered(rows, base)[rows[i]] == base + Rank(members, rows[i])
  {
    NumberedAt(rows, base);
    PrefixSize(rows, i + 1);
    RanksAPrefix(rows, members, i);
  }

  lemma RanksAPrefix(rows: seq<nat>, members: set<nat>, i: nat)
    requires Enumerates(rows, members) && i < |rows|
    ensures UpTo(members, rows[i]) == Elems(rows[..i + 1])
  {
    forall q | q in members && q <= rows[i] ensures q in rows[..i + 1] {
      var j :| 0 <= j < |rows| && rows[j] == q;
      assert j <= i;
      assert rows[..i + 1][j] == q;
    }
    forall q | q in rows[..i + 1] ensures q in members && q <= rows[i] {
      var j :| 0 <= j < i + 1 && rows[..i + 1][j] == q;
      assert rows[j] == q;
    }
  }

  lemma {:induction false} PrefixSize(rows: seq<nat>, n: nat)
    requires Ascending(rows) && n <= |rows|
    ensures |Elems(rows[..n])| == n
  {
    if n > 0 {
      PrefixSize(rows, n - 1);
      assert rows[..n] == rows[..n - 1] + [rows[n - 1]];
      OneElementMore(rows[..n - 1], rows[n - 1]);
    }
  }

  lemma OneElementMore(rows: seq<nat>, last: nat)
    requires forall j :: 0 <= j < |rows| ==> rows[j] < last
    ensures |Elems(rows + [last])| == |Elems(rows)| + 1
  {
    var more := rows + [last];
    forall r | r in Elems(rows) + {last} ensures r in Elems(more) {
      assert more[|rows|] == last;
    }
    assert Elems(more) == Elems(rows) + {last} && last !in Elems(rows);
  }

  /** The numbers one update hands out. */
  function Given(members: set<nat>, base: nat): set<nat> {
    set r | r in members :: base + Rank(members, r)
  }

  /** They are exactly base + 1 .. base + how many. */
  lemma GivenFillsTheRange(members: set<nat>, base: nat)
    ensures forall k: nat :: k in Given(members, base) <==> base < k <= base + |members|
  {
    var rows := InSequence(members);
    forall r | r in members ensures base < base + Rank(members, r) <= base + |members| {
      var i :| 0 <= i < |rows| && rows[i] == r;
      RankIsPlace(rows, members, base, i);
    }
    forall k: nat | base < k <= base + |members| ensures k in Given(members, base) {
      RankIsPlace(rows, members, base, k - base - 1);
      assert rows[k - base - 1] in members;
    }
  }

  /** The members in ascending order. */
  lemma InSequence(members: set<nat>) returns (rows: seq<nat>)
    ensures Enumerates(rows, members) && |rows| == |members|
    decreases |members|
  {
    if members == {} {
      rows := [];
    } else {
      var least := LeastOf(members);
      var rest := InSequence(members - {least});
      rows := [least] + rest;
      assert forall i :: 0 <= i < |rest| ==> rest[i] in members - {least};
    }
  }

  /** COALESCE(MAX(...), base). */
  method Greatest(numbers: set<nat>, base: nat) returns (top: nat)
    requires forall k :: k in numbers ==> k > base
    ensures numbers == {} ==> top == base
    ensures numbers != {} ==> top in numbers && forall k :: k in numbers ==> k <= top
  {
    top := base;
    var left := numbers;
    while left != {}
      invariant left <= numbers && base <= top
      invariant top in numbers || (top == base && left == numbers)
      invariant forall k :: k in numbers && k !in left ==> k <= top
    {
      var k :| k in left;
      left := left - {k};
      top := if k > top then k else top;
    }
  }

  function Counted(counters: map<Entity, nat>, e: Entity): nat {
    if e in counters then counters[e] else 0
  }

  /** One pass of the trigger's loop. */
  method NumberEntity(rows: Rows, counters: map<Entity, nat>, e: Entity, tx: Tx)
      returns (after: Rows, counted: map<Entity, nat>)
    ensures after == NumberRows(rows, e, tx, Counted(counters, e))
    ensures counted == counters[e := Counted(counters, e) + |Unnumbered(rows, e, tx)|]
  {
    counted := counters;
    if e !in counted {
      counted := counted[e := 0];
    }
    var base, mine := counted[e], Unnumbered(rows, e, tx);
    GivenFillsTheRange(mine, base);
    after := NumberRows(rows, e, tx, base);
    var next := Greatest(Given(mine, base), base);
    if mine != {} {
      assert base + |mine| in Given(mine, base);
    } else {
      assert Given(mine, base) == {};
    }
    counted := counted[e := next];
  }

  /** The rows once the loop has passed the entities in `done`. */
  ghost predicate RowsSoFar(rows: Rows, counters: map<Entity, nat>, done: seq<Entity>, tx: Tx, after: Rows) {
    && after.Keys == rows.Keys
    && forall k :: k in rows ==>
         after[k] == (if k.0 in done then NumberRows(rows, k.0, tx, Counted(counters, k.0))[k] else rows[k])
  }

  /** The counters at the same point. */
  ghost predicate CountersSoFar(rows: Rows, counters: map<Entity, nat>, done: seq<Entity>, tx: Tx,
                                counted: map<Entity, nat>) {
    forall e: Entity :: Counted(counted, e) == Counted(counters, e)
        + (if e in done then |Unnumbered(rows, e, tx)| else 0)
  }

  lemma SameUnnumbered(rows: Rows, counters: map<Entity, nat>, done: seq<Entity>, tx: Tx, after: Rows, e: Entity)
    requires RowsSoFar(rows, counters, done, tx, after) && e !in done
    ensures Unnumbered(after, e, tx) == Unnumbered(rows, e, tx)
  {
  }

  lemma RowsOneMore(rows: Rows, counters: map<Entity, nat>, done: seq<Entity>, tx: Tx, after: Rows, e: Entity)
    requires RowsSoFar(rows, counters, done, tx, after) && e !in done
    ensures RowsSoFar(rows, counters, done + [e], tx, NumberRows(after, e, tx, Counted(counters, e)))
  {
    SameUnnumbered(rows, counters, done, tx, after, e);
    var base := Counted(counters, e);
    forall k | k in rows && k.0 == e ensures NumberRows(after, e, tx, base)[k] == NumberRows(rows, e, tx, base)[k] {}
    forall k | k in rows && k.0 != e ensures NumberRows(after, e, tx, base)[k] == after[k] {}
  }

  class Tables {
    var rows: Rows
    var counters: map<Entity, nat>
    var pending: set<(Tx, Entity)>

    /** One row per transaction and entity, however many statements insert. */
    method NoteCommit(tx: Tx, inserted: seq<Entity>)
      modifies this`pending
      ensures forall p :: p in pending <==> p in old(pending) || (p.0 == tx && p.1 in inserted)
    {
      for i := 0 to |inserted|
        invariant forall p :: p in pending <==> p in old(pending) || (p.0 == tx && p.1 in inserted[..i])
      {
        assert inserted[..i + 1] == inserted[..i] + [inserted[i]];
        pending := pending + {(tx, inserted[i])};
      }
      assert inserted[..|inserted|] == inserted;
    }

    /** Every pending entity's rows are numbered above its counter, which moves up by their count;
        nothing else in the tables changes. */
    method AssignCommitSeq(tx: Tx, entities: seq<Entity>)
      requires Ascending(entities) && forall e :: e in entities <==> (tx, e) in pending
      modifies this
      ensures RowsSoFar(old(rows), old(counters), entities, tx, rows)
      ensures CountersSoFar(old(rows), old(counters), entities, tx, counters)
      ensures pending == WithoutTx(old(pending), tx)
    {
      for i := 0 to |entities|
        invariant pending == old(pending)
        invariant RowsSoFar(old(rows), old(counters), entities[..i], tx, rows)
        invariant CountersSoFar(old(rows), old(counters), entities[..i], tx, counters)
      {
        var e := entities[i];
        assert entities[..i + 1] == entities[..i] + [e];
        SameUnnumbered(old(rows), old(counters), entities[..i], tx, rows, e);
        RowsOneMore(old(rows), old(counters), entities[..i], tx, rows, e);
        rows, counters := NumberEntity(rows, counters, e, tx);
      }
      assert entities[..|entities|] == entities;
      pending := WithoutTx(pending, tx);
    }
  }
}
