/** Paging through a change log up to a captured bound, and the two checks that look at the purge mark:
    the one when a range is opened and the one that closes a dataset load. */
module ChangePages {
  import opened ChannelGraph
  import opened CommitLog

  predicate InOrder(page: seq<Position>) {
    forall i, j :: 0 <= i < j < |page| ==> page[i].commit < page[j].commit
  }

  /** A committed row, after `lo` and no later than the bound. */
  predicate InWindow(s: Stream, lo: nat, bound: nat, p: Position) {
    p.seqNo in s.entries && s.entries[p.seqNo] == p.commit && lo < p.commit <= bound
  }

  /** The oldest `limit` rows of the window, in commit order; `more` exactly when one was left out. */
  ghost predicate IsPage(s: Stream, lo: nat, bound: nat, limit: nat, page: seq<Position>, more: bool) {
    && |page| <= limit && InOrder(page)
    && (forall p :: p in page ==> InWindow(s, lo, bound, p))
    && (forall p, q :: InWindow(s, lo, bound, p) && p !in page && q in page ==> q.commit < p.commit)
    && (more <==> exists p :: InWindow(s, lo, bound, p) && p !in page)
    && (more ==> |page| == limit)
  }

  /** The rows of the table in the order of the commit index. */
  ghost predicate IsCommitIndex(s: Stream, index: seq<Position>) {
    && InOrder(index)
    && forall p :: p in index <==> p.seqNo in s.entries && s.entries[p.seqNo] == p.commit
  }

  function After(after: Option<Position>): nat {
    if after.Some? then after.value.commit else 0
  }

  predicate Fits(lo: nat, bound: nat, p: Position) {
    lo < p.commit <= bound
  }

  /** Rows met so far, taken while fewer than `limit + 1`. */
  ghost predicate Taken(index: seq<Position>, i: nat, lo: nat, bound: nat, limit: nat, rows: seq<Position>)
    requires i <= |index|
  {
    && InOrder(rows) && |rows| <= limit + 1
    && (forall p :: p in rows ==> p in index[..i] && Fits(lo, bound, p))
    && (forall p :: p in index[..i] && Fits(lo, bound, p) && p !in rows ==>
        |rows| == limit + 1 && forall q :: q in rows ==> q.commit < p.commit)
  }

  lemma TakeNext(index: seq<Position>, i: nat, lo: nat, bound: nat, limit: nat, rows: seq<Position>)
    requires i < |index| && InOrder(index) && Taken(index, i, lo, bound, limit, rows)
    ensures Taken(index, i + 1, lo, bound, limit,
                  if Fits(lo, bound, index[i]) && |rows| < limit + 1 then rows + [index[i]] else rows)
  {
    assert index[..i + 1] == index[..i] + [index[i]];
    forall q | q in index[..i] ensures q.commit < index[i].commit {}
  }

  /** The query asks for one row more than the page; a limit below one is refused. */
  method ReadEntriesAfter(ghost s: Stream, index: seq<Position>, after: Option<Position>, bound: nat, limit: int)
      returns (result: Option<(seq<Position>, bool)>)
    requires IsCommitIndex(s, index)
    ensures result.Some? <==> limit >= 1
    ensures result.Some? ==> IsPage(s, After(after), bound, limit, result.value.0, result.value.1)
  {
    if limit < 1 {
      return None;
    }
    var rows: seq<Position>, lo := [], After(after);
    for i := 0 to |index|
      invariant Taken(index, i, lo, bound, limit, rows)
    {
      TakeNext(index, i, lo, bound, limit, rows);
      if lo < index[i].commit <= bound && |rows| < limit + 1 {
        rows := rows + [index[i]];
      }
    }
    assert index[..|index|] == index;
    var more := |rows| > limit;
    var page := if more then rows[..limit] else rows;
    CutToPage(s, index, lo, bound, limit, rows);
    return Some((page, more));
  }

  lemma CutToPage(s: Stream, index: seq<Position>, lo: nat, bound: nat, limit: nat, rows: seq<Position>)
    requires IsCommitIndex(s, index) && limit >= 1 && Taken(index, |index|, lo, bound, limit, rows)
    ensures IsPage(s, lo, bound, limit, if |rows| > limit then rows[..limit] else rows, |rows| > limit)
  {
    assert index[..|index|] == index;
    assert forall p :: p in rows ==> InWindow(s, lo, bound, p);
    assert forall p :: InWindow(s, lo, bound, p) && p !in rows ==> |rows| == limit + 1 && forall q :: q in rows ==>
        q.commit < p.commit;
    if |rows| > limit {
      DropLast(s, lo, bound, limit, rows);
    }
  }

  lemma DropLast(s: Stream, lo: nat, bound: nat, limit: nat, rows: seq<Position>)
    requires |rows| == limit + 1 && InOrder(rows) && forall p :: p in rows ==> InWindow(s, lo, bound, p)
    requires forall p, q :: InWindow(s, lo, bound, p) && p !in rows && q in rows ==> q.commit < p.commit
    ensures IsPage(s, lo, bound, limit, rows[..limit], true)
  {
    var page, last := rows[..limit], rows[limit];
    assert rows == page + [last];
    assert last in rows && InWindow(s, lo, bound, last);
    forall q | q in page ensures q.commit < last.commit {
      var i :| 0 <= i < limit && page[i] == q;
      assert rows[i] == q;
    }
    forall p, q | InWindow(s, lo, bound, p) && p !in page && q in page ensures q.commit < p.commit {
      assert q in rows && (p in rows ==> p == last);
    }
  }

  // ---------- pages tile the range ----------

  /** `got` lists, once each and in order, places in (lo, hi], and misses only rows that were purged. */
  ghost predicate Scanned(s: Stream, lo: nat, hi: nat, got: seq<Position>) {
    && InOrder(got)
    && (forall p :: p in got ==> IsPlace(s, p) && lo < p.commit <= hi)
    && (forall k :: lo < k <= hi && k <= |s.born| && k !in s.deleted ==> Position(k, s.born[k - 1]) in got)
  }

  function End(lo: nat, page: seq<Position>): nat {
    if page == [] then lo else page[|page| - 1].commit
  }

  lemma ScannedStays(s: Stream, t: Stream, lo: nat, hi: nat, got: seq<Position>)
    requires Grows(s, t) && Scanned(s, lo, hi, got) && hi <= |s.born|
    ensures Scanned(t, lo, hi, got)
  {
    forall p | p in got ensures IsPlace(t, p) {}
    forall k | lo < k <= hi && k !in t.deleted ensures Position(k, t.born[k - 1]) in got {
      assert t.born[k - 1] == s.born[k - 1];
    }
  }

  lemma NextPageScans(s: Stream, lo: nat, hi: nat, got: seq<Position>, bound: nat, limit: nat, page: seq<Position>,
                      more: bool)
    requires Valid(s) && lo <= hi <= |s.born| && Scanned(s, lo, hi, got) && IsPage(s, hi, bound, limit, page, more)
    ensures hi <= End(hi, page) <= |s.born| && Scanned(s, lo, End(hi, page), got + page)
  {
    var all, end := got + page, End(hi, page);
    forall p | p in page ensures IsPlace(s, p) && hi < p.commit <= end {
      assert InWindow(s, hi, bound, p) && EntryOk(s, p.seqNo);
      var i :| 0 <= i < |page| && page[i] == p;
    }
    if page != [] {
      assert page[|page| - 1] in page;
    }
    forall k | lo < k <= end && k !in s.deleted ensures Position(k, s.born[k - 1]) in all {
      assert NumberOk(s, k);
      var p := Position(k, s.born[k - 1]);
      if k > hi {
        assert page[|page| - 1] in page && InWindow(s, hi, bound, page[|page| - 1]);
        assert InWindow(s, hi, bound, p);
      }
    }
    forall i, j | 0 <= i < j < |all| ensures all[i].commit < all[j].commit {
      if i < |got| <= j {
        assert got[i] in got && page[j - |got|] in page;
      }
    }
  }

  /** One page read in some state of a run. */
  datatype Read = Read(moment: nat, limit: nat, page: seq<Position>, more: bool)

  function EndOf(start: nat, pages: seq<Read>): nat {
    if pages == [] then start else End(EndOf(start, pages[..|pages| - 1]), pages[|pages| - 1].page)
  }

  function AllOf(pages: seq<Read>): seq<Position> {
    if pages == [] then [] else AllOf(pages[..|pages| - 1]) + pages[|pages| - 1].page
  }

  /** Pages read one after another from `start`, at times not before `captured`. */
  ghost predicate IsReading(states: seq<Stream>, captured: nat, start: nat, bound: nat, pages: seq<Read>) {
    pages != [] ==>
      var n := |pages| - 1;
      && IsReading(states, captured, start, bound, pages[..n])
      && captured <= pages[n].moment < |states|
      && (n > 0 ==> pages[n - 1].moment <= pages[n].moment)
      && IsPage(states[pages[n].moment], EndOf(start, pages[..n]), bound, pages[n].limit, pages[n].page, pages[n].more)
  }

  lemma {:induction false} ReadingScans(states: seq<Stream>, captured: nat, start: nat, bound: nat, pages: seq<Read>)
    requires IsRun(states) && captured < |states| && start <= |states[captured].born|
    requires IsReading(states, captured, start, bound, pages) && pages != []
    ensures var s := states[pages[|pages| - 1].moment];
      && start <= EndOf(start, pages) <= |s.born| && Scanned(s, start, EndOf(start, pages), AllOf(pages))
  {
    var n := |pages| - 1;
    var s := states[pages[n].moment];
    RunIsValid(states, pages[n].moment);
    if n == 0 {
      RunGrows(states, captured, pages[n].moment);
      assert Scanned(s, start, start, []);
      NextPageScans(s, start, start, [], bound, pages[n].limit, pages[n].page, pages[n].more);
      assert AllOf(pages[..n]) == [] && AllOf(pages) == [] + pages[n].page;
    } else {
      ReadingScans(states, captured, start, bound, pages[..n]);
      RunGrows(states, pages[n - 1].moment, pages[n].moment);
      ScannedStays(states[pages[n - 1].moment], s, start, EndOf(start, pages[..n]), AllOf(pages[..n]));
      NextPageScans(s, start, EndOf(start, pages[..n]), AllOf(pages[..n]), bound, pages[n].limit, pages[n].page,
          pages[n].more);
    }
  }

  /** Pages read up to a captured bound, until none is left, list in order and once each the rows that were
      visible in the range when the bound was captured, all of them except those purged meanwhile. */
  lemma PagesTileTheRange(states: seq<Stream>, captured: nat, start: nat, bound: nat, pages: seq<Read>)
    requires IsRun(states) && captured < |states| && start <= |states[captured].born|
    requires IsBound(states[captured], bound)
    requires IsReading(states, captured, start, bound, pages) && pages != [] && !pages[|pages| - 1].more
    ensures InOrder(AllOf(pages))
    ensures forall p :: p in AllOf(pages) ==> InWindow(states[captured], start, bound, p)
    ensures forall p ::
      InWindow(states[captured], start, bound, p) && p !in AllOf(pages) ==>
          p.commit in states[pages[|pages| - 1].moment].deleted
  {
    var n := |pages| - 1;
    var s := states[pages[n].moment];
    ReadingScans(states, captured, start, bound, pages);
    ReadsWereVisible(states, captured, start, bound, pages);
    forall p | InWindow(states[captured], start, bound, p) && p.commit !in s.deleted ensures p in AllOf(pages) {
      VisibleRowIsRead(states, captured, start, bound, pages, p);
    }
  }

  lemma VisibleRowIsRead(states: seq<Stream>, captured: nat, start: nat, bound: nat, pages: seq<Read>, p: Position)
    requires IsRun(states) && captured < |states| && start <= |states[captured].born|
    requires IsReading(states, captured, start, bound, pages) && pages != [] && !pages[|pages| - 1].more
    requires InWindow(states[captured], start, bound, p) && p.commit !in states[pages[|pages| - 1].moment].deleted
    ensures p in AllOf(pages)
  {
    var n := |pages| - 1;
    RunIsValid(states, captured);
    RunIsValid(states, pages[n].moment);
    RunGrows(states, captured, pages[n].moment);
    ReadingScans(states, captured, start, bound, pages);
    RowIsRead(states[captured], states[pages[n].moment], start, bound, pages, p);
  }

  lemma RowIsRead(c: Stream, s: Stream, start: nat, bound: nat, pages: seq<Read>, p: Position)
    requires Valid(c) && Valid(s) && Grows(c, s) && pages != [] && !pages[|pages| - 1].more
    requires Scanned(s, start, EndOf(start, pages), AllOf(pages))
    requires var last := pages[|pages| - 1];
      IsPage(s, EndOf(start, pages[..|pages| - 1]), bound, last.limit, last.page, last.more)
    requires InWindow(c, start, bound, p) && p.commit !in s.deleted
    ensures p in AllOf(pages)
  {
    RowStays(c, s, p);
    RowWithinEnd(s, start, bound, pages, p);
    RowAmong(s, start, EndOf(start, pages), AllOf(pages), p);
  }

  lemma RowAmong(s: Stream, lo: nat, hi: nat, got: seq<Position>, p: Position)
    requires Scanned(s, lo, hi, got) && IsPlace(s, p) && lo < p.commit <= hi && p.commit !in s.deleted
    ensures p in got
  {
    assert p == Position(p.commit, s.born[p.commit - 1]);
  }

  lemma RowWithinEnd(s: Stream, start: nat, bound: nat, pages: seq<Read>, p: Position)
    requires pages != [] && !pages[|pages| - 1].more
    requires var last := pages[|pages| - 1];
      IsPage(s, EndOf(start, pages[..|pages| - 1]), bound, last.limit, last.page, last.more)
    requires p.seqNo in s.entries && s.entries[p.seqNo] == p.commit && p.commit <= bound
    ensures p.commit <= EndOf(start, pages)
  {
    var last, lo := pages[|pages| - 1], EndOf(start, pages[..|pages| - 1]);
    EndIsLater(s, lo, bound, last);
    if p.commit > lo {
      NoRowIsLeft(s, lo, bound, last, p);
    }
  }

  /** A committed row that is not purged keeps its place. */
  lemma RowStays(c: Stream, s: Stream, p: Position)
    requires Valid(c) && Valid(s) && Grows(c, s) && p.commit !in s.deleted
    requires p.seqNo in c.entries && c.entries[p.seqNo] == p.commit
    ensures IsPlace(s, p) && p.seqNo in s.entries && s.entries[p.seqNo] == p.commit
  {
    assert EntryOk(c, p.seqNo) && NumberOk(s, p.commit);
  }

  lemma EndIsLater(s: Stream, lo: nat, bound: nat, last: Read)
    requires IsPage(s, lo, bound, last.limit, last.page, last.more)
    ensures lo <= End(lo, last.page)
  {
    if last.page != [] {
      assert last.page[|last.page| - 1] in last.page;
    }
  }

  lemma NoRowIsLeft(s: Stream, lo: nat, bound: nat, last: Read, p: Position)
    requires IsPage(s, lo, bound, last.limit, last.page, last.more) && !last.more && InWindow(s, lo, bound, p)
    ensures p in last.page && p.commit <= End(lo, last.page)
  {
    var i :| 0 <= i < |last.page| && last.page[i] == p;
  }

  lemma {:induction false} ReadsWereVisible(states: seq<Stream>, captured: nat, start: nat, bound: nat,
                                            pages: seq<Read>)
    requires IsRun(states) && captured < |states| && start <= |states[captured].born|
    requires IsBound(states[captured], bound) && IsReading(states, captured, start, bound, pages)
    ensures forall p :: p in AllOf(pages) ==> InWindow(states[captured], start, bound, p)
  {
    if pages != [] {
      var n := |pages| - 1;
      ReadsWereVisible(states, captured, start, bound, pages[..n]);
      if n > 0 {
        ReadingScans(states, captured, start, bound, pages[..n]);
      }
      forall p | p in pages[n].page ensures InWindow(states[captured], start, bound, p) {
        assert InWindow(states[pages[n].moment], EndOf(start, pages[..n]), bound, p);
        NothingAppearsBelowTheBound(states, captured, pages[n].moment, bound, p.seqNo);
      }
    }
  }

  // ---------- the purge checks ----------

  /** Opening is refused when the durable cursor is behind the mark. */
  predicate Refused(durable: Option<Position>, mark: Option<Position>) {
    durable.Some? && mark.Some? && Before(durable.value, mark.value)
  }

  /** Exactly when something after the cursor has been deleted. */
  lemma RefusedIffDeletedAfterCursor(s: Stream, durable: Position)
    requires Valid(s) && IsPlace(s, durable)
    ensures Refused(Some(durable), s.mark) <==> exists k :: k in s.deleted && k > durable.commit
  {
    if s.mark.Some? && s.mark.value.commit == durable.commit {
      assert s.mark.value == durable;
    }
  }

  /** The check that closes a load: has the mark moved, and past the start? */
  function MovedPastStart(start: Option<Position>, before: Option<Position>, after: Option<Position>): bool {
    if after.None? then false
    else if before.Some? && !Before(before.value, after.value) then false
    else if start.None? then true
    else Before(start.value, after.value)
  }

  /** It fails the load exactly when a row after both the start and the earlier mark was deleted meanwhile. */
  lemma ClosingCheckIsExact(s: Stream, t: Stream, start: Option<Position>)
    requires Valid(s) && Valid(t) && Grows(s, t) && (start.Some? ==> IsPlace(s, start.value))
    ensures MovedPastStart(start, s.mark, t.mark)
      <==> exists k :: k in t.deleted && k !in s.deleted && k > After(start) && k > After(s.mark)
  {
    if t.mark.Some? {
      var top := t.mark.value;
      assert IsPlace(t, top);
      if s.mark.Some? {
        assert IsPlace(t, s.mark.value);
      }
      if start.Some? {
        assert IsPlace(t, start.value);
      }
      assert top.commit in t.deleted;
    }
  }

  /** When the range starts at or after the earlier mark, passing the check means nothing in it was deleted. */
  lemma CheckedLoadMissedNothing(s: Stream, t: Stream, start: Option<Position>)
    requires Valid(s) && Valid(t) && Grows(s, t) && (start.Some? ==> IsPlace(s, start.value))
    requires After(s.mark) <= After(start)
    ensures !MovedPastStart(start, s.mark, t.mark) <==>
      forall k :: k in t.deleted && k > After(start) ==> k in s.deleted
  {
    ClosingCheckIsExact(s, t, start);
  }

  lemma OneMoreStep(states: seq<Stream>, event: Event, t: Stream)
    requires IsRun(states) && Enabled(states[|states| - 1], event) && t == Apply(states[|states| - 1], event)
    ensures IsRun(states + [t])
  {
    var n := |states| - 1;
    assert Step(states[n], t);
    forall i | 0 <= i < n + 1 ensures Step((states + [t])[i], (states + [t])[i + 1]) {}
  }

  /** Two transactions write a row each and commit in the opposite order. */
  lemma TwoRowsCommitted() returns (states: seq<Stream>)
    ensures IsRun(states) && states[|states| - 1] == Stream(3, map[], 2, None, map[2 := 1, 1 := 2], None, [2, 1], {})
  {
    states := [EMPTY];
    OneMoreStep(states, Insert(1), Stream(2, map[1 := 1], 0, None, map[], None, [], {}));
    states := states + [Stream(2, map[1 := 1], 0, None, map[], None, [], {})];
    OneMoreStep(states, Insert(2), Stream(3, map[1 := 1, 2 := 2], 0, None, map[], None, [], {}));
    states := states + [Stream(3, map[1 := 1, 2 := 2], 0, None, map[], None, [], {})];
    states := BothCommit(states);
  }

  lemma BothCommit(before: seq<Stream>) returns (states: seq<Stream>)
    requires IsRun(before) && before[|before| - 1] == Stream(3, map[1 := 1, 2 := 2], 0, None, map[], None, [], {})
    ensures IsRun(states) && states[|states| - 1] == Stream(3, map[], 2, None, map[2 := 1, 1 := 2], None, [2, 1], {})
  {
    var drafts: map<nat, Tx> := map[1 := 1, 2 := 2];
    states := before;
    OneMoreStep(states, Assign(2, [2]), Stream(3, drafts, 0, Some(Assignment(2, [2])), map[], None, [], {}));
    states := states + [Stream(3, drafts, 0, Some(Assignment(2, [2])), map[], None, [], {})];
    NumberedAt([2], 0);
    assert drafts - RowsOf(drafts, 2) == map[1 := 1] && map[] + Numbered([2], 0) == map[2 := 1];
    OneMoreStep(states, Commit(2), Stream(3, map[1 := 1], 1, None, map[2 := 1], None, [2], {}));
    states := states + [Stream(3, map[1 := 1], 1, None, map[2 := 1], None, [2], {})];
    states := SecondCommits(states);
  }

  lemma SecondCommits(before: seq<Stream>) returns (states: seq<Stream>)
    requires IsRun(before) && before[|before| - 1] == Stream(3, map[1 := 1], 1, None, map[2 := 1], None, [2], {})
    ensures IsRun(states) && states[|states| - 1] == Stream(3, map[], 2, None, map[2 := 1, 1 := 2], None, [2, 1], {})
  {
    var drafts: map<nat, Tx> := map[1 := 1];
    states := before;
    OneMoreStep(states, Assign(1, [1]), Stream(3, drafts, 1, Some(Assignment(1, [1])), map[2 := 1], None, [2], {}));
    states := states + [Stream(3, drafts, 1, Some(Assignment(1, [1])), map[2 := 1], None, [2], {})];
    NumberedAt([1], 1);
    assert drafts - RowsOf(drafts, 1) == map[] && map[2 := 1] + Numbered([1], 1) == map[2 := 1, 1 := 2];
    assert [2] + [1] == [2, 1];
    OneMoreStep(states, Commit(1), Stream(3, map[], 2, None, map[2 := 1, 1 := 2], None, [2, 1], {}));
    states := states + [Stream(3, map[], 2, None, map[2 := 1, 1 := 2], None, [2, 1], {})];
  }

  /** Behind the mark the closing check can be blind: the row numbered 2 is purged, then during a load from
      the beginning the row numbered 1, and the check passes. */
  lemma PurgeBehindTheMarkGoesUnseen() returns (states: seq<Stream>)
    ensures IsRun(states) && |states| > 1
    ensures var s, t := states[|states| - 2], states[|states| - 1];
      1 in t.deleted && 1 !in s.deleted && !MovedPastStart(None, s.mark, t.mark)
  {
    states := TwoRowsCommitted();
    var entries: map<nat, nat> := map[2 := 1, 1 := 2];
    assert entries - {1} == map[2 := 1] && (set r | r in {1} :: entries[r]) == {2};
    OneMoreStep(states, Purge({1}, Some(Position(2, 1))),
        Stream(3, map[], 2, None, map[2 := 1], Some(Position(2, 1)), [2, 1], {2}));
    states := states + [Stream(3, map[], 2, None, map[2 := 1], Some(Position(2, 1)), [2, 1], {2})];
    var left: map<nat, nat> := map[2 := 1];
    assert left - {2} == map[] && (set r | r in {2} :: left[r]) == {1} && {2} + {1} == {2, 1};
    OneMoreStep(states, Purge({2}, Some(Position(1, 2))),
        Stream(3, map[], 2, None, map[], Some(Position(2, 1)), [2, 1], {2, 1}));
    states := states + [Stream(3, map[], 2, None, map[], Some(Position(2, 1)), [2, 1], {2, 1})];
  }
}
