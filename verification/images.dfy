/** Row images of the change log: what an update stores, how both rows are rebuilt from it, and decoding a
    page of images in one statement instead of one by one. */
module Images {
  import opened ChannelGraph

  datatype Json = JsonNull | Json(text: string)

  type Image = map<string, Json>

  /** The old row's columns whose value differs from the new row's. */
  function ChangedColumns(before: Image, after: Image): Image {
    map k | k in before && !(k in after && after[k] == before[k]) :: before[k]
  }

  datatype Operation = Inserted | Updated | Deleted

  /** What the trigger stores for one row. */
  datatype Stored = Stored(after: Option<Image>, before: Option<Image>, changed: Option<Image>)

  function UpdateImage(before: Image, after: Image): Stored {
    Stored(Some(after), None, Some(ChangedColumns(before, after)))
  }

  /** Rebuilding an update writes the changed columns over a copy of the new row. */
  method Rebuild(operation: Operation, image: Stored) returns (before: Option<Image>, after: Option<Image>)
    requires operation.Inserted? || operation.Updated? ==> image.after.Some?
    requires operation.Deleted? ==> image.before.Some?
    ensures (before, after) == Rebuilt(operation, image)
  {
    if operation.Inserted? {
      return None, image.after;
    }
    if operation.Deleted? {
      return image.before, None;
    }
    var row := image.after.value;
    var changed := if image.changed.Some? then image.changed.value else map[];
    var left := changed.Keys;
    while left != {}
      invariant left <= changed.Keys
      invariant row == image.after.value + (changed - left)
    {
      var key :| key in left;
      row := row[key := changed[key]];
      left := left - {key};
    }
    assert changed - {} == changed;
    return Some(row), image.after;
  }

  function Rebuilt(operation: Operation, image: Stored): (Option<Image>, Option<Image>)
    requires operation.Inserted? || operation.Updated? ==> image.after.Some?
    requires operation.Deleted? ==> image.before.Some?
  {
    match operation
    case Inserted => (None, image.after)
    case Deleted => (image.before, None)
    case Updated => (Some(image.after.value + (if image.changed.Some? then image.changed.value else map[])),
        image.after)
  }

  /** An update rebuilds to exactly its two rows if and only if the new row has no column the old one lacks. */
  lemma UpdateRebuilds(before: Image, after: Image)
    ensures Rebuilt(Updated, UpdateImage(before, after)) == (Some(before), Some(after)) <==> after.Keys <= before.Keys
  {
    var row := after + ChangedColumns(before, after);
    if after.Keys <= before.Keys {
      assert row.Keys == before.Keys;
      assert row == before;
    } else {
      assert row.Keys != before.Keys;
    }
  }

  // ---------- decoding ----------

  /** What a column's type comes from; `rest` is what the grouping does not look at. */
  datatype Attribute = Attribute(name: string, kind: string, details: seq<Option<string>>, rest: string)

  datatype Target = Target(attributes: seq<Attribute>, snapshots: map<string, string>)

  datatype Cell = SqlNull | Cell(text: string)

  /** Outside answers: the physical type of a column, the value of a cast or none when it is an error, and the
      row that decoded cells make. */
  datatype Sql<!R> = Sql(physical: (string, seq<Option<string>>, map<string, string>) -> string,
                         cast: (string, string) -> Option<Cell>,
                         row: (seq<string>, seq<Cell>, Target) -> R)

  /** `image ->> key`. */
  function Extract(image: Image, key: string): Option<string> {
    if key in image && image[key].Json? then Some(image[key].text) else None
  }

  /** `CAST((extracted) AS physical)`: null stays null. */
  function CastAs<R>(sql: Sql<R>, extracted: Option<string>, physical: string): Option<Cell> {
    if extracted.None? then Some(SqlNull) else sql.cast(extracted.value, physical)
  }

  function Names(target: Target): seq<string> {
    ["row_id"] + seq(|target.attributes|, i requires 0 <= i < |target.attributes| => target.attributes[i].name)
  }

  function PhysicalTypes<R>(sql: Sql<R>, target: Target): (t: seq<string>)
    ensures |t| == |Names(target)|
  {
    ["bigint"] + seq(|target.attributes|, i requires 0 <= i < |target.attributes| =>
      sql.physical(target.attributes[i].kind, target.attributes[i].details, target.snapshots))
  }

  /** The cells of one column list, or none when some cast is an error. */
  function Casts<R>(sql: Sql<R>, extracted: seq<Option<string>>, physical: seq<string>): (cells: Option<seq<Cell>>)
    requires |extracted| == |physical|
    ensures cells.Some? ==> |cells.value| == |extracted|
  {
    if extracted == [] then Some([])
    else
      var n := |extracted| - 1;
      var rest, last := Casts(sql, extracted[..n], physical[..n]), CastAs(sql, extracted[n], physical[n]);
      if rest.Some? && last.Some? then Some(rest.value + [last.value]) else None
  }

  function ExtractAll(image: Image, names: seq<string>): seq<Option<string>> {
    seq(|names|, i requires 0 <= i < |names| => Extract(image, names[i]))
  }

  /** One image decoded alone: a null image stays null; no result at all when a cast is an error. */
  function DecodeImage<R>(sql: Sql<R>, image: Option<Image>, target: Target): Option<Option<R>> {
    if image.None? then Some(None)
    else
      var cells := Casts(sql, ExtractAll(image.value, Names(target)), PhysicalTypes(sql, target));
      if cells.None? then None else Some(Some(sql.row(Names(target), cells.value, target)))
  }

  datatype Key = Key(attributes: seq<(string, string, seq<Option<string>>)>, snapshots: map<string, string>)

  function TargetKey(target: Target): Key {
    Key(seq(|target.attributes|, i requires 0 <= i < |target.attributes| =>
          (target.attributes[i].name, target.attributes[i].kind, target.attributes[i].details)), target.snapshots)
  }

  /** Targets of one key have the same columns, cast alike. */
  lemma SameKeyCastsAlike<R>(sql: Sql<R>, a: Target, b: Target)
    requires TargetKey(a) == TargetKey(b)
    ensures Names(a) == Names(b) && PhysicalTypes(sql, a) == PhysicalTypes(sql, b)
  {
    var x, y := TargetKey(a).attributes, TargetKey(b).attributes;
    assert |x| == |y|;
    forall i | 0 <= i < |a.attributes|
      ensures a.attributes[i].name == b.attributes[i].name && a.attributes[i].kind == b.attributes[i].kind
      ensures a.attributes[i].details == b.attributes[i].details
    {
      assert x[i] == y[i];
    }
  }

  datatype Pending = Pending(index: nat, image: Image, target: Target)

  /** Each image's owner is a group of its target's key. */
  ghost predicate Grouped(pending: seq<Pending>, groups: seq<Target>, owners: seq<nat>) {
    && |owners| == |pending|
    && forall i :: 0 <= i < |pending| ==>
        owners[i] < |groups| && TargetKey(groups[owners[i]]) == TargetKey(pending[i].target)
  }

  method AssignGroups(pending: seq<Pending>) returns (groups: seq<Target>, owners: seq<nat>)
    ensures Grouped(pending, groups, owners) && (pending != [] ==> groups != [])
    ensures forall g, h :: 0 <= g < h < |groups| ==> TargetKey(groups[g]) != TargetKey(groups[h])
  {
    groups, owners := [], [];
    var seen: map<Key, nat> := map[];
    for i := 0 to |pending|
      invariant Grouped(pending[..i], groups, owners) && (i > 0 ==> groups != [])
      invariant forall key :: key in seen ==> seen[key] < |groups| && TargetKey(groups[seen[key]]) == key
      invariant forall g :: 0 <= g < |groups| ==> TargetKey(groups[g]) in seen && seen[TargetKey(groups[g])] == g
    {
      var key := TargetKey(pending[i].target);
      if key !in seen {
        seen := seen[key := |groups|];
        groups := groups + [pending[i].target];
      }
      owners := owners + [seen[key]];
    }
    assert pending[..|pending|] == pending;
  }

  function Guarded(group: nat, owner: nat, image: Image, names: seq<string>): seq<Option<string>> {
    if owner == group then ExtractAll(image, names) else seq(|names|, _ => None)
  }

  /** The cells of one group's columns for one image of the page: extracted only when the image is the group's own. */
  function GroupCells<R>(sql: Sql<R>, group: nat, owner: nat, image: Image, target: Target): Option<seq<Cell>> {
    Casts(sql, Guarded(group, owner, image, Names(target)), PhysicalTypes(sql, target))
  }

  /** A page's statement: every image's cells for every group, or none when any cast is an error. */
  ghost predicate IsPageResult<R>(sql: Sql<R>, groups: seq<Target>, pending: seq<Pending>, owners: seq<nat>,
                                  rows: Option<seq<seq<seq<Cell>>>>)
    requires |owners| == |pending|
  {
    && (rows.None? ==> exists i, g ::
        0 <= i < |pending| && 0 <= g < |groups| && GroupCells(sql, g, owners[i], pending[i].image, groups[g]).None?)
    && (rows.Some? ==>
          && |rows.value| == |pending|
          && forall i :: 0 <= i < |pending| ==> IsPageRow(sql, groups, pending[i], owners[i], rows.value[i]))
  }

  ghost predicate IsPageRow<R>(sql: Sql<R>, groups: seq<Target>, p: Pending, owner: nat, row: seq<seq<Cell>>) {
    && |row| == |groups|
    && forall g :: 0 <= g < |groups| ==> GroupCells(sql, g, owner, p.image, groups[g]) == Some(row[g])
  }

  /** A row of a statement's result: its ordinal, counted from one, and its cells. */
  datatype ResultRow = ResultRow(n: nat, cells: seq<seq<Cell>>)

  /** The rows of a result, each once under its ordinal, in any order. */
  ghost predicate Numbered(rows: seq<ResultRow>, all: seq<seq<seq<Cell>>>) {
    && (forall k :: 0 <= k < |all| ==> ResultRow(k + 1, all[k]) in rows)
    && (forall r :: r in rows ==> 1 <= r.n <= |all| && r.cells == all[r.n - 1])
  }

  function InOrder(all: seq<seq<seq<Cell>>>): (rows: seq<ResultRow>)
    ensures Numbered(rows, all)
  {
    var rows := seq(|all|, k requires 0 <= k < |all| => ResultRow(k + 1, all[k]));
    assert forall k :: 0 <= k < |all| ==> rows[k] == ResultRow(k + 1, all[k]);
    rows
  }

  lemma TakeAny(rows: seq<ResultRow>, left: seq<ResultRow>, i: nat, all: seq<seq<seq<Cell>>>)
    requires i < |left| && Numbered(rows + left, all)
    ensures Numbered(rows + [left[i]] + (left[..i] + left[i + 1..]), all)
  {
    var before, after := rows + left, rows + [left[i]] + (left[..i] + left[i + 1..]);
    forall r | r in before ensures r in after {
      if r !in rows {
        var k :| 0 <= k < |left| && left[k] == r;
        assert k < i ==> left[..i][k] == r;
        assert k > i ==> left[i + 1..][k - i - 1] == r;
      }
    }
    assert forall r :: r in after ==> r in before;
  }

  /** A database returns the rows of a statement without ORDER BY in any order. */
  method InAnyOrder(all: seq<seq<seq<Cell>>>) returns (rows: seq<ResultRow>)
    ensures Numbered(rows, all)
  {
    hide Numbered;
    var left := InOrder(all);
    rows := [];
    assert rows + left == left;
    while left != []
      invariant Numbered(rows + left, all)
    {
      var i :| 0 <= i < |left|;
      TakeAny(rows, left, i, all);
      rows, left := rows + [left[i]], left[..i] + left[i + 1..];
    }
    assert rows + left == rows;
  }

  /** The rows of a result by their ordinals. */
  method ByOrdinal(rows: seq<ResultRow>, ghost all: seq<seq<seq<Cell>>>) returns (byN: map<nat, seq<seq<Cell>>>)
    requires Numbered(rows, all)
    ensures forall n :: 1 <= n <= |all| ==> n in byN && byN[n] == all[n - 1]
  {
    byN := map[];
    for i := 0 to |rows|
      invariant forall j :: 0 <= j < i ==> rows[j].n in byN && byN[rows[j].n] == rows[j].cells
    {
      assert rows[i] in rows;
      byN := byN[rows[i].n := rows[i].cells];
    }
    forall n | 1 <= n <= |all| ensures n in byN && byN[n] == all[n - 1] {
      assert ResultRow(n - 1 + 1, all[n - 1]) in rows;
    }
  }

  method SelectPage<R>(sql: Sql<R>, groups: seq<Target>, pending: seq<Pending>, owners: seq<nat>)
      returns (rows: Option<seq<ResultRow>>, ghost page: Option<seq<seq<seq<Cell>>>>)
    requires |owners| == |pending|
    ensures IsPageResult(sql, groups, pending, owners, page)
    ensures rows.Some? <==> page.Some?
    ensures rows.Some? ==> Numbered(rows.value, page.value)
  {
    hide Numbered, Casts, PhysicalTypes;
    var all: seq<seq<seq<Cell>>> := [];
    for i := 0 to |pending|
      invariant |all| == i && forall j :: 0 <= j < i ==> IsPageRow(sql, groups, pending[j], owners[j], all[j])
    {
      var row: seq<seq<Cell>> := [];
      for g := 0 to |groups|
        invariant |row| == g
        invariant forall h :: 0 <= h < g ==> GroupCells(sql, h, owners[i], pending[i].image, groups[h]) == Some(row[h])
      {
        var cells := GroupCells(sql, g, owners[i], pending[i].image, groups[g]);
        if cells.None? {
          return None, None;
        }
        row := row + [cells.value];
      }
      all := all + [row];
    }
    var result := InAnyOrder(all);
    return Some(result), Some(all);
  }

  /** The statement for a page of one target: no guard. */
  method SelectTargetPage<R>(sql: Sql<R>, target: Target, pending: seq<Pending>)
      returns (rows: Option<seq<ResultRow>>, ghost page: Option<seq<seq<seq<Cell>>>>)
    ensures IsPageResult(sql, [target], pending, seq(|pending|, _ => 0), page)
    ensures rows.Some? <==> page.Some?
    ensures rows.Some? ==> Numbered(rows.value, page.value)
  {
    hide Numbered, Casts, PhysicalTypes;
    var all: seq<seq<seq<Cell>>> := [];
    for i := 0 to |pending|
      invariant |all| == i && forall j :: 0 <= j < i ==> IsPageRow(sql, [target], pending[j], 0, all[j])
    {
      var cells := Casts(sql, ExtractAll(pending[i].image, Names(target)), PhysicalTypes(sql, target));
      if cells.None? {
        assert GroupCells(sql, 0, 0, pending[i].image, [target][0]).None?;
        return None, None;
      }
      all := all + [[cells.value]];
    }
    var result := InAnyOrder(all);
    return Some(result), Some(all);
  }

  lemma {:induction false} NullsCast<R>(sql: Sql<R>, extracted: seq<Option<string>>, physical: seq<string>)
    requires |extracted| == |physical| && forall i :: 0 <= i < |extracted| ==> extracted[i].None?
    ensures Casts(sql, extracted, physical).Some?
  {
    if extracted != [] {
      NullsCast(sql, extracted[..|extracted| - 1], physical[..|physical| - 1]);
    }
  }

  /** Another group's columns never fail; the owner's are the image's own. */
  lemma GuardedCells<R>(sql: Sql<R>, groups: seq<Target>, p: Pending, owner: nat, g: nat)
    requires owner < |groups| && g < |groups| && TargetKey(groups[owner]) == TargetKey(p.target)
    ensures g != owner ==> GroupCells(sql, g, owner, p.image, groups[g]).Some?
    ensures GroupCells(sql, owner, owner, p.image, groups[owner]) ==
        Casts(sql, ExtractAll(p.image, Names(p.target)), PhysicalTypes(sql, p.target))
  {
    if g != owner {
      NullsCast(sql, Guarded(g, owner, p.image, Names(groups[g])), PhysicalTypes(sql, groups[g]));
    }
    SameKeyCastsAlike(sql, groups[owner], p.target);
  }

  /** The non-null images, in order, with their places. */
  ghost predicate Picked(images: seq<(Option<Image>, Target)>, pending: seq<Pending>) {
    && (forall j :: 0 <= j < |pending| ==>
        pending[j].index < |images| && images[pending[j].index] == (Some(pending[j].image), pending[j].target))
    && (forall i, j :: 0 <= i < j < |pending| ==> pending[i].index < pending[j].index)
    && (forall i :: 0 <= i < |images| && images[i].0.Some? ==> Includes(pending, i))
  }

  ghost predicate Includes(pending: seq<Pending>, i: nat) {
    exists j :: 0 <= j < |pending| && pending[j].index == i
  }

  lemma PickOne(images: seq<(Option<Image>, Target)>, i: nat, pending: seq<Pending>, more: seq<Pending>)
    requires i < |images| && Picked(images[..i], pending)
    requires more == if images[i].0.Some? then pending + [Pending(i, images[i].0.value, images[i].1)] else pending
    ensures Picked(images[..i + 1], more)
  {
    forall k | 0 <= k <= i && images[k].0.Some? ensures Includes(more, k) {
      if k < i {
        assert images[..i][k].0.Some?;
        assert Includes(pending, k);
        var j :| 0 <= j < |pending| && pending[j].index == k;
        assert more[j].index == k;
      } else {
        assert more[|pending|].index == k;
      }
    }
  }

  method PickPending(images: seq<(Option<Image>, Target)>) returns (pending: seq<Pending>)
    ensures Picked(images, pending)
  {
    pending := [];
    for i := 0 to |images|
      invariant Picked(images[..i], pending)
    {
      var more := if images[i].0.Some? then pending + [Pending(i, images[i].0.value, images[i].1)] else pending;
      assert images[i].0.Some? ==> more[|pending|].index == i;
      PickOne(images, i, pending, more);
      pending := more;
    }
    assert images[..|images|] == images;
  }

  /** The images decoded from the page, at their places; a null image stays null. */
  ghost predicate IsStored<R>(sql: Sql<R>, pending: seq<Pending>, all: seq<seq<seq<Cell>>>, owners: seq<nat>,
                              decoded: seq<Option<R>>)
    requires |all| == |pending| == |owners|
    requires forall j :: 0 <= j < |pending| ==> pending[j].index < |decoded| && owners[j] < |all[j]|
  {
    && (forall j :: 0 <= j < |pending| ==>
          decoded[pending[j].index] == Some(sql.row(Names(pending[j].target), all[j][owners[j]], pending[j].target)))
    && (forall i :: 0 <= i < |decoded| && !Includes(pending, i) ==> decoded[i] == None)
  }

  /** The page's cells put back, whatever order the rows came in. */
  method StoreDecoded<R>(sql: Sql<R>, n: nat, pending: seq<Pending>, rows: seq<ResultRow>, owners: seq<nat>,
                         ghost all: seq<seq<seq<Cell>>>)
      returns (decoded: seq<Option<R>>)
    requires |all| == |pending| == |owners| && Numbered(rows, all)
    requires forall j :: 0 <= j < |pending| ==> pending[j].index < n && owners[j] < |all[j]|
    requires forall i, j :: 0 <= i < j < |pending| ==> pending[i].index < pending[j].index
    ensures |decoded| == n && IsStored(sql, pending, all, owners, decoded)
  {
    var byN := ByOrdinal(rows, all);
    decoded := seq(n, _ => None);
    for ordinal := 1 to |pending| + 1
      invariant |decoded| == n
      invariant forall j :: 0 <= j < ordinal - 1 ==>
        decoded[pending[j].index] == Some(sql.row(Names(pending[j].target), all[j][owners[j]], pending[j].target))
      invariant forall i :: 0 <= i < n && !Includes(pending, i) ==> decoded[i] == None
    {
      var p := pending[ordinal - 1];
      assert Includes(pending, p.index);
      decoded := decoded[p.index := Some(sql.row(Names(p.target), byN[ordinal][owners[ordinal - 1]], p.target))];
    }
  }

  /** A page decodes when every image alone does, and then gives, position by position, what decoding that
      image alone gives. */
  method DecodeImages<R>(sql: Sql<R>, images: seq<(Option<Image>, Target)>) returns (decoded: Option<seq<Option<R>>>)
    ensures decoded.None? <==> exists i :: 0 <= i < |images| && DecodeImage(sql, images[i].0, images[i].1).None?
    ensures decoded.Some? ==> |decoded.value| == |images|
    ensures decoded.Some? ==>
      forall i :: 0 <= i < |images| ==> DecodeImage(sql, images[i].0, images[i].1) == Some(decoded.value[i])
  {
    var pending := PickPending(images);
    if pending == [] {
      NothingPending(sql, images);
      return Some(seq(|images|, _ => None));
    }
    hide DecodeImage, IsPageResult, IsStored, Numbered;
    var groups, owners := AssignGroups(pending);
    var rows;
    ghost var page;
    if |groups| == 1 {
      rows, page := SelectTargetPage(sql, groups[0], pending);
      assert groups == [groups[0]] && owners == seq(|pending|, _ => 0);
    } else {
      rows, page := SelectPage(sql, groups, pending, owners);
    }
    if rows.None? {
      PageFailsWithAnImage(sql, images, pending, groups, owners);
      return None;
    }
    PageHasOwners(sql, pending, groups, owners, page.value);
    var stored := StoreDecoded(sql, |images|, pending, rows.value, owners, page.value);
    StoredIsDecoded(sql, images, pending, groups, owners, page.value, stored);
    return Some(stored);
  }

  lemma NothingPending<R>(sql: Sql<R>, images: seq<(Option<Image>, Target)>)
    requires Picked(images, [])
    ensures forall i :: 0 <= i < |images| ==> DecodeImage(sql, images[i].0, images[i].1) == Some(None)
  {
    assert forall i :: 0 <= i < |images| && images[i].0.Some? ==> Includes([], i);
  }

  lemma PageHasOwners<R>(sql: Sql<R>, pending: seq<Pending>, groups: seq<Target>, owners: seq<nat>,
                         page: seq<seq<seq<Cell>>>)
    requires Grouped(pending, groups, owners) && IsPageResult(sql, groups, pending, owners, Some(page))
    ensures |page| == |pending| && forall j :: 0 <= j < |pending| ==> owners[j] < |page[j]|
  {
    forall j | 0 <= j < |pending| ensures owners[j] < |page[j]| {
      assert IsPageRow(sql, groups, pending[j], owners[j], page[j]);
    }
  }

  lemma StoredIsDecoded<R>(sql: Sql<R>, images: seq<(Option<Image>, Target)>, pending: seq<Pending>,
                           groups: seq<Target>, owners: seq<nat>, page: seq<seq<seq<Cell>>>, stored: seq<Option<R>>)
    requires Picked(images, pending) && Grouped(pending, groups, owners) && |stored| == |images|
    requires IsPageResult(sql, groups, pending, owners, Some(page)) && |page| == |pending|
    requires forall j :: 0 <= j < |pending| ==> pending[j].index < |stored| && owners[j] < |page[j]|
    requires IsStored(sql, pending, page, owners, stored)
    ensures forall i :: 0 <= i < |images| ==> DecodeImage(sql, images[i].0, images[i].1) == Some(stored[i])
  {
    forall i | 0 <= i < |images| ensures DecodeImage(sql, images[i].0, images[i].1) == Some(stored[i]) {
      if images[i].0.Some? {
        assert Includes(pending, i);
        var j :| 0 <= j < |pending| && pending[j].index == i;
        OwnCellsDecode(sql, groups, pending[j], owners[j], page[j]);
      } else if Includes(pending, i) {
        assert false;
      }
    }
  }

  lemma OwnCellsDecode<R>(sql: Sql<R>, groups: seq<Target>, p: Pending, owner: nat, row: seq<seq<Cell>>)
    requires owner < |groups| && TargetKey(groups[owner]) == TargetKey(p.target)
    requires IsPageRow(sql, groups, p, owner, row) && owner < |row|
    ensures DecodeImage(sql, Some(p.image), p.target) == Some(Some(sql.row(Names(p.target), row[owner], p.target)))
  {
    GuardedCells(sql, groups, p, owner, owner);
  }

  lemma PageFailsWithAnImage<R>(sql: Sql<R>, images: seq<(Option<Image>, Target)>, pending: seq<Pending>,
                                groups: seq<Target>, owners: seq<nat>)
    requires Picked(images, pending) && Grouped(pending, groups, owners)
    requires IsPageResult(sql, groups, pending, owners, None)
    ensures exists i :: 0 <= i < |images| && DecodeImage(sql, images[i].0, images[i].1).None?
  {
    var j, g :| 0 <= j < |pending| && 0 <= g < |groups|
        && GroupCells(sql, g, owners[j], pending[j].image, groups[g]).None?;
    GuardedCells(sql, groups, pending[j], owners[j], g);
    assert DecodeImage(sql, images[pending[j].index].0, images[pending[j].index].1).None?;
  }

  // ---------- entries ----------

  datatype LogRow = LogRow(operation: Operation, image: Stored, target: Target)

  predicate WellFormed(row: LogRow) {
    if row.operation.Deleted? then row.image.before.Some? else row.image.after.Some?
  }

  /** One entry read alone: its two images rebuilt and decoded. */
  function EntryFromRow<R>(sql: Sql<R>, row: LogRow): Option<(Option<R>, Option<R>)>
    requires WellFormed(row)
  {
    var (before, after) := Rebuilt(row.operation, row.image);
    var b, a := DecodeImage(sql, before, row.target), DecodeImage(sql, after, row.target);
    if b.Some? && a.Some? then Some((b.value, a.value)) else None
  }

  method MakeSlots(rows: seq<LogRow>) returns (slots: seq<(Option<Image>, Target)>)
    requires forall i :: 0 <= i < |rows| ==> WellFormed(rows[i])
    ensures |slots| == 2 * |rows| && forall i :: 0 <= i < |rows| ==> SlotsOf(rows[i], slots[2 * i], slots[2 * i + 1])
  {
    slots := [];
    for i := 0 to |rows|
      invariant |slots| == 2 * i
      invariant forall j :: 0 <= j < i ==> SlotsOf(rows[j], slots[2 * j], slots[2 * j + 1])
    {
      var before, after := Rebuild(rows[i].operation, rows[i].image);
      slots := slots + [(before, rows[i].target), (after, rows[i].target)];
    }
  }

  /** A page of entries, each with its own two images, as reading each entry alone gives them. */
  method EntriesDecoded<R>(sql: Sql<R>, rows: seq<LogRow>) returns (entries: Option<seq<(Option<R>, Option<R>)>>)
    requires forall i :: 0 <= i < |rows| ==> WellFormed(rows[i])
    ensures entries.None? <==> exists i :: 0 <= i < |rows| && EntryFromRow(sql, rows[i]).None?
    ensures entries.Some? ==> |entries.value| == |rows|
    ensures entries.Some? ==> forall i :: 0 <= i < |rows| ==> EntryFromRow(sql, rows[i]) == Some(entries.value[i])
  {
    var slots := MakeSlots(rows);
    var decoded := DecodeImages(sql, slots);
    hide DecodeImage, EntryFromRow, SlotsOf;
    if decoded.None? {
      var k :| 0 <= k < |slots| && DecodeImage(sql, slots[k].0, slots[k].1).None?;
      var i := EntryOfSlot(sql, rows, slots, k);
      assert EntryFromRow(sql, rows[i]).None?;
      return None;
    }
    var all := PairUp(decoded.value);
    forall i | 0 <= i < |rows| ensures EntryFromRow(sql, rows[i]) == Some(all[i]) {
      EntryFromSlots(sql, rows[i], slots[2 * i], slots[2 * i + 1], decoded.value[2 * i], decoded.value[2 * i + 1]);
    }
    return Some(all);
  }

  lemma EntryOfSlot<R>(sql: Sql<R>, rows: seq<LogRow>, slots: seq<(Option<Image>, Target)>, k: nat) returns (i: nat)
    requires forall i :: 0 <= i < |rows| ==> WellFormed(rows[i])
    requires |slots| == 2 * |rows| && forall i :: 0 <= i < |rows| ==> SlotsOf(rows[i], slots[2 * i], slots[2 * i + 1])
    requires k < |slots| && DecodeImage(sql, slots[k].0, slots[k].1).None?
    ensures i < |rows| && EntryFromRow(sql, rows[i]).None?
  {
    hide DecodeImage;
    i := k / 2;
    assert k == 2 * i || k == 2 * i + 1;
    assert SlotsOf(rows[i], slots[2 * i], slots[2 * i + 1]);
  }

  method PairUp<R>(decoded: seq<Option<R>>) returns (pairs: seq<(Option<R>, Option<R>)>)
    requires |decoded| % 2 == 0
    ensures |pairs| == |decoded| / 2
    ensures forall i :: 0 <= i < |pairs| ==> pairs[i] == (decoded[2 * i], decoded[2 * i + 1])
  {
    pairs := [];
    for i := 0 to |decoded| / 2
      invariant |pairs| == i && forall j :: 0 <= j < i ==> pairs[j] == (decoded[2 * j], decoded[2 * j + 1])
    {
      pairs := pairs + [(decoded[2 * i], decoded[2 * i + 1])];
    }
  }

  lemma EntryFromSlots<R>(sql: Sql<R>, row: LogRow, before: (Option<Image>, Target), after: (Option<Image>, Target),
                          b: Option<R>, a: Option<R>)
    requires SlotsOf(row, before, after)
    requires DecodeImage(sql, before.0, before.1) == Some(b) && DecodeImage(sql, after.0, after.1) == Some(a)
    ensures EntryFromRow(sql, row) == Some((b, a))
  {
  }

  predicate SlotsOf(row: LogRow, before: (Option<Image>, Target), after: (Option<Image>, Target)) {
    WellFormed(row) && before == (Rebuilt(row.operation, row.image).0, row.target)
        && after == (Rebuilt(row.operation, row.image).1, row.target)
  }
}
