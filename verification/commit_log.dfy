/** One entity's change log: rows written by transactions, numbered at commit time under the counter's
    row lock, read up to a captured bound, and deleted with a purge mark left behind.
    Every SQL statement is one atomic step; a row is visible to others once its transaction commits. */
module CommitLog {
  import opened ChannelGraph

  type Tx = nat

  /** A place in the log: the number given at commit, then the log sequence. */
  datatype Position = Position(commit: nat, seqNo: nat)

  predicate Before(p: Position, q: Position) {
    p.commit < q.commit || (p.commit == q.commit && p.seqNo < q.seqNo)
  }

  predicate OptBefore(p: Option<Position>, q: Option<Position>) {
    q.Some? && (p.None? || Before(p.value, q.value))
  }

  /** The counter row, locked by `tx`, whose rows have been numbered in this order. */
  datatype Assignment = Assignment(tx: Tx, rows: seq<nat>)

  /** `drafts` are rows of open transactions; `entries` maps a committed row to its number.
      `born` and `deleted` only remember what happened: the rows in numbering order and the numbers purged. */
  datatype Stream = Stream(nextSeq: nat, drafts: map<nat, Tx>, counter: nat, holder: Option<Assignment>,
                           entries: map<nat, nat>, mark: Option<Position>, born: seq<nat>, deleted: set<nat>)

  const EMPTY := Stream(1, map[], 0, None, map[], None, [], {})

  datatype Event =
    | Insert(tx: Tx)
    | Assign(tx: Tx, rows: seq<nat>)
    | Commit(tx: Tx)
    | Rollback(tx: Tx)
    | Purge(gone: set<nat>, top: Option<Position>)
    | Idle

  function RowsOf(drafts: map<nat, Tx>, tx: Tx): set<nat> {
    set r | r in drafts && drafts[r] == tx
  }

  predicate Ascending(s: seq<nat>) {
    forall i, j :: 0 <= i < j < |s| ==> s[i] < s[j]
  }

  ghost predicate Enumerates(rows: seq<nat>, members: set<nat>) {
    Ascending(rows) && forall r :: r in rows <==> r in members
  }

  predicate Holds(s: Stream, tx: Tx) {
    s.holder.Some? && s.holder.value.tx == tx
  }

  /** The greatest position among the rows about to go. */
  ghost predicate IsTop(entries: map<nat, nat>, gone: set<nat>, top: Option<Position>)
    requires gone <= entries.Keys
  {
    match top
    case None => gone == {}
    case Some(p) =>
      && p.seqNo in gone && entries[p.seqNo] == p.commit
      && forall r :: r in gone ==> !Before(p, Position(entries[r], r))
  }

  ghost predicate Enabled(s: Stream, event: Event) {
    match event
    case Insert(tx) => !Holds(s, tx)
    case Assign(tx, rows) => s.holder.None? && Enumerates(rows, RowsOf(s.drafts, tx))
    case Commit(tx) => Holds(s, tx)
    case Rollback(tx) => true
    case Purge(gone, top) => gone <= s.entries.Keys && IsTop(s.entries, gone, top)
    case Idle => true
  }

  /** Numbered rows: the row at index i gets base + i + 1. */
  function Numbered(rows: seq<nat>, base: nat): (m: map<nat, nat>)
  {
    if rows == [] then map[] else Numbered(rows[..|rows| - 1], base)[rows[|rows| - 1] := base + |rows|]
  }

  function Raised(mark: Option<Position>, top: Option<Position>): Option<Position> {
    if OptBefore(mark, top) then top else mark
  }

  function Apply(s: Stream, event: Event): Stream
    requires event.Commit? ==> s.holder.Some?
    requires event.Purge? ==> event.gone <= s.entries.Keys
  {
    match event
    case Insert(tx) => s.(drafts := s.drafts[s.nextSeq := tx], nextSeq := s.nextSeq + 1)
    case Assign(tx, rows) => s.(holder := Some(Assignment(tx, rows)))
    case Commit(tx) =>
      var rows := s.holder.value.rows;
      s.(entries := s.entries + Numbered(rows, s.counter), drafts := s.drafts - RowsOf(s.drafts, tx),
         counter := s.counter + |rows|, holder := None, born := s.born + rows)
    case Rollback(tx) =>
      s.(drafts := s.drafts - RowsOf(s.drafts, tx), holder := if Holds(s, tx) then None else s.holder)
    case Purge(gone, top) =>
      s.(entries := s.entries - gone, mark := Raised(s.mark, top),
         deleted := s.deleted + (set r | r in gone :: s.entries[r]))
    case Idle => s
  }

  ghost predicate Step(s: Stream, t: Stream) {
    exists event :: Enabled(s, event) && t == Apply(s, event)
  }

  // ---------- what every step keeps ----------

  ghost predicate NoRepeat(s: seq<nat>) {
    forall i, j :: 0 <= i < j < |s| ==> s[i] != s[j]
  }

  /** A row in the table carries the number it was given, and that number is not purged. */
  ghost predicate EntryOk(s: Stream, r: nat) {
    r in s.entries ==> 1 <= s.entries[r] <= |s.born| && s.born[s.entries[r] - 1] == r && s.entries[r] !in s.deleted
  }

  /** A number given and not purged is still in the table. */
  ghost predicate NumberOk(s: Stream, k: nat) {
    1 <= k <= |s.born| && k !in s.deleted ==> s.born[k - 1] in s.entries && s.entries[s.born[k - 1]] == k
  }

  /** Numbers 1..counter were each given to exactly one row, and a row is in the table exactly when its
      number has not been purged. */
  ghost predicate NumbersInOrder(s: Stream) {
    && |s.born| == s.counter && NoRepeat(s.born)
    && (forall k :: k in s.deleted ==> 1 <= k <= s.counter)
    && (forall r :: EntryOk(s, r))
    && (forall k :: NumberOk(s, k))
  }

  /** Row ids come from the sequence: drafts and numbered rows never share one, nor use one not yet drawn. */
  ghost predicate FreshRows(s: Stream) {
    && (forall r :: r in s.drafts ==> r < s.nextSeq && r !in s.born)
    && (forall r :: r in s.born ==> r < s.nextSeq)
  }

  ghost predicate HolderNumbersItsRows(s: Stream) {
    s.holder.Some? ==> Enumerates(s.holder.value.rows, RowsOf(s.drafts, s.holder.value.tx))
  }

  /** A position that was really given to a row. */
  ghost predicate IsPlace(s: Stream, p: Position) {
    1 <= p.commit <= |s.born| && s.born[p.commit - 1] == p.seqNo
  }

  /** The mark is the greatest position ever deleted. */
  ghost predicate MarkIsGreatestDeleted(s: Stream) {
    match s.mark
    case None => s.deleted == {}
    case Some(p) => p.commit in s.deleted && IsPlace(s, p) && forall k :: k in s.deleted ==> k <= p.commit
  }

  ghost predicate Valid(s: Stream) {
    NumbersInOrder(s) && FreshRows(s) && HolderNumbersItsRows(s) && MarkIsGreatestDeleted(s)
  }

  /** History only grows: numbers once given stay with their rows and purged stays purged. */
  ghost predicate Grows(s: Stream, t: Stream) {
    s.born <= t.born && s.deleted <= t.deleted
  }

  lemma {:induction false} NumberedAt(rows: seq<nat>, base: nat)
    requires Ascending(rows)
    ensures Numbered(rows, base).Keys == set r | r in rows
    ensures forall i :: 0 <= i < |rows| ==> Numbered(rows, base)[rows[i]] == base + i + 1
  {
    if rows != [] {
      var n := |rows| - 1;
      NumberedAt(rows[..n], base);
      assert rows == rows[..n] + [rows[n]];
    }
  }

  lemma {:induction false} JoinWithoutRepeat(born: seq<nat>, rows: seq<nat>)
    requires NoRepeat(born) && Ascending(rows) && forall r :: r in rows ==> r !in born
    ensures NoRepeat(born + rows)
  {
    var all := born + rows;
    forall i, j | 0 <= i < j < |all| ensures all[i] != all[j] {
      if i < |born| <= j {
        assert rows[j - |born|] in rows && born[i] in born;
      }
    }
  }

  lemma CommittedRowOk(s: Stream, tx: Tx, r: nat)
    requires Valid(s) && Holds(s, tx)
    ensures EntryOk(Apply(s, Commit(tx)), r)
  {
    var rows, t := s.holder.value.rows, Apply(s, Commit(tx));
    NumberedAt(rows, s.counter);
    assert EntryOk(s, r);
    if r in rows {
      var i :| 0 <= i < |rows| && rows[i] == r;
      assert t.born[s.counter + i] == r;
    }
  }

  lemma CommittedNumberOk(s: Stream, tx: Tx, k: nat)
    requires Valid(s) && Holds(s, tx)
    ensures NumberOk(Apply(s, Commit(tx)), k)
  {
    var rows, t := s.holder.value.rows, Apply(s, Commit(tx));
    NumberedAt(rows, s.counter);
    assert NumberOk(s, k);
    if s.counter < k <= |t.born| {
      assert t.born[k - 1] == rows[k - 1 - s.counter];
    } else if 1 <= k <= s.counter && k !in s.deleted {
      assert t.born[k - 1] == s.born[k - 1] && s.born[k - 1] in s.born;
      assert forall r :: r in rows ==> r in RowsOf(s.drafts, tx);
    }
  }

  lemma CommitKeepsNumbers(s: Stream, tx: Tx)
    requires Valid(s) && Holds(s, tx)
    ensures NumbersInOrder(Apply(s, Commit(tx)))
  {
    assert forall r :: r in s.holder.value.rows ==> r in RowsOf(s.drafts, tx);
    JoinWithoutRepeat(s.born, s.holder.value.rows);
    forall r ensures EntryOk(Apply(s, Commit(tx)), r) {
      CommittedRowOk(s, tx, r);
    }
    forall k ensures NumberOk(Apply(s, Commit(tx)), k) {
      CommittedNumberOk(s, tx, k);
    }
  }

  lemma CommitKeepsRows(s: Stream, tx: Tx)
    requires Valid(s) && Holds(s, tx)
    ensures FreshRows(Apply(s, Commit(tx)))
  {
    var rows, t := s.holder.value.rows, Apply(s, Commit(tx));
    forall r | r in t.drafts ensures r !in t.born {
      assert r in rows ==> r in RowsOf(s.drafts, tx);
    }
    forall r | r in t.born ensures r < t.nextSeq {
      assert r in s.born || r in rows;
    }
  }

  lemma PurgeKeepsNumbers(s: Stream, gone: set<nat>, top: Option<Position>)
    requires Valid(s) && Enabled(s, Purge(gone, top))
    ensures NumbersInOrder(Apply(s, Purge(gone, top)))
  {
    var t := Apply(s, Purge(gone, top));
    forall r, q | r in t.entries && q in gone ensures s.entries[q] != s.entries[r] {
      assert EntryOk(s, r) && EntryOk(s, q);
    }
    forall r ensures EntryOk(t, r) {
      assert EntryOk(s, r);
    }
    forall k: nat ensures NumberOk(t, k) {
      assert NumberOk(s, k);
    }
    forall k | k in t.deleted ensures 1 <= k <= t.counter {
      if k !in s.deleted {
        var r :| r in gone && s.entries[r] == k;
        assert EntryOk(s, r);
      }
    }
  }

  lemma PurgeRaisesMark(s: Stream, gone: set<nat>, top: Option<Position>)
    requires Valid(s) && Enabled(s, Purge(gone, top))
    ensures MarkIsGreatestDeleted(Apply(s, Purge(gone, top)))
  {
    var t := Apply(s, Purge(gone, top));
    forall k | k in t.deleted && k !in s.deleted ensures top.Some? && k <= top.value.commit {
      var r :| r in gone && s.entries[r] == k;
      assert !Before(top.value, Position(s.entries[r], r));
    }
    if top.Some? {
      assert EntryOk(s, top.value.seqNo);
      assert top.value.commit in t.deleted && IsPlace(s, top.value);
      if s.mark.Some? && s.mark.value.commit == top.value.commit {
        assert false;
      }
    }
  }

  lemma DraftStepKeepsValid(s: Stream, event: Event)
    requires Valid(s) && Enabled(s, event) && (event.Insert? || event.Assign? || event.Rollback?)
    ensures Valid(Apply(s, event))
  {
    var t := Apply(s, event);
    forall r ensures EntryOk(t, r) {
      assert EntryOk(s, r);
    }
    forall k: nat ensures NumberOk(t, k) {
      assert NumberOk(s, k);
    }
    if t.holder.Some? {
      assert RowsOf(t.drafts, t.holder.value.tx) == RowsOf(s.drafts, t.holder.value.tx);
    }
  }

  lemma StepKeepsValid(s: Stream, t: Stream)
    requires Valid(s) && Step(s, t)
    ensures Valid(t) && Grows(s, t)
  {
    var event :| Enabled(s, event) && t == Apply(s, event);
    match event
    case Commit(tx) =>
      CommitKeepsNumbers(s, tx);
      CommitKeepsRows(s, tx);
    case Purge(gone, top) =>
      PurgeKeepsNumbers(s, gone, top);
      PurgeRaisesMark(s, gone, top);
    case Idle =>
    case _ => DraftStepKeepsValid(s, event);
  }

  // ---------- runs ----------

  ghost predicate IsRun(states: seq<Stream>) {
    && |states| > 0 && states[0] == EMPTY
    && forall i :: 0 <= i < |states| - 1 ==> Step(states[i], states[i + 1])
  }

  lemma {:induction false} RunIsValid(states: seq<Stream>, i: nat)
    requires IsRun(states) && i < |states|
    ensures Valid(states[i])
  {
    if i > 0 {
      RunIsValid(states, i - 1);
      StepKeepsValid(states[i - 1], states[i]);
    }
  }

  lemma {:induction false} RunGrows(states: seq<Stream>, i: nat, j: nat)
    requires IsRun(states) && i <= j < |states|
    ensures Grows(states[i], states[j])
  {
    if i < j {
      RunGrows(states, i, j - 1);
      RunIsValid(states, j - 1);
      StepKeepsValid(states[j - 1], states[j]);
    }
  }

  /** The purge mark only moves up, over any run. */
  lemma MarkOnlyMovesUp(states: seq<Stream>, i: nat, j: nat)
    requires IsRun(states) && i <= j < |states| && states[i].mark.Some?
    ensures states[j].mark.Some? && !Before(states[j].mark.value, states[i].mark.value)
    ensures states[i].mark.value.commit <= states[j].mark.value.commit
  {
    RunIsValid(states, i);
    RunIsValid(states, j);
    RunGrows(states, i, j);
    assert states[i].mark.value.commit in states[j].deleted;
  }

  function Numbers(entries: map<nat, nat>): set<nat> {
    set r | r in entries :: entries[r]
  }

  /** In every run, the numbers of the rows in the table and of the rows purged are exactly 1..counter,
      no number is held twice, and none is both present and purged. */
  lemma NumbersHaveNoGap(states: seq<Stream>)
    requires IsRun(states)
    ensures var s := states[|states| - 1];
      && (forall k: nat :: k in Numbers(s.entries) + s.deleted <==> 1 <= k <= s.counter)
      && Numbers(s.entries) !! s.deleted
      && forall q, r :: q in s.entries && r in s.entries && s.entries[q] == s.entries[r] ==> q == r
  {
    var s := states[|states| - 1];
    RunIsValid(states, |states| - 1);
    forall r | r in s.entries ensures EntryOk(s, r) {}
    forall k: nat | 1 <= k <= s.counter && k !in s.deleted ensures k in Numbers(s.entries) {
      assert NumberOk(s, k);
    }
  }

  /** The greatest number visible when the bound is captured, or 0. */
  ghost predicate IsBound(s: Stream, bound: nat) {
    && (forall r :: r in s.entries ==> s.entries[r] <= bound)
    && (bound != 0 ==> exists r :: r in s.entries && s.entries[r] == bound)
    && (s.entries == map[] ==> bound == 0)
  }

  /** Once a bound is captured, every row ever seen later at or below it was already in the table. */
  lemma NothingAppearsBelowTheBound(states: seq<Stream>, i: nat, j: nat, bound: nat, r: nat)
    requires IsRun(states) && i <= j < |states| && IsBound(states[i], bound)
    requires r in states[j].entries && states[j].entries[r] <= bound
    ensures r in states[i].entries && states[i].entries[r] == states[j].entries[r]
  {
    RunIsValid(states, i);
    RunIsValid(states, j);
    RunGrows(states, i, j);
    var s, k := states[i], states[j].entries[r];
    assert EntryOk(states[j], r);
    var top :| top in s.entries && s.entries[top] == bound;
    assert EntryOk(s, top);
    assert NumberOk(s, k);
  }

  /** Recording the counter makes numbering follow commits: a later commit gets only greater numbers. */
  lemma LaterCommitsGetGreaterNumbers(states: seq<Stream>, i: nat, j: nat, q: nat, r: nat)
    requires IsRun(states) && i <= j < |states|
    requires q in states[i].entries && r in states[j].entries && r !in states[i].born
    ensures states[i].entries[q] < states[j].entries[r]
  {
    RunIsValid(states, i);
    RunIsValid(states, j);
    RunGrows(states, i, j);
    assert EntryOk(states[i], q) && EntryOk(states[j], r);
    assert forall k :: 0 <= k < |states[i].born| ==> states[j].born[k] in states[i].born;
  }
}
