/** Long lists in stored outputs: clipping before storage, which records the original lengths by path, and
    cutting when a preview is read. */
module Previews {
  import opened TemplateTyping

  const PREVIEW_LIST_CAP := 100

  function Least(a: nat, b: nat): nat {
    if a < b then a else b
  }

  /** The read-time cut: a value with at most `cap` elements in every list, and whether anything was cut. */
  function Cut(v: Value, cap: nat): (Value, bool) {
    match v
    case List(items) =>
      var n := Least(cap, |items|);
      (List(seq(n, i requires 0 <= i < n => Cut(items[i], cap).0)),
       |items| > cap || exists i :: 0 <= i < n && Cut(items[i], cap).1)
    case Dict(fields) =>
      (Dict(seq(|fields|, i requires 0 <= i < |fields| => Field(fields[i].key, Cut(fields[i].value, cap).0))),
       exists i :: 0 <= i < |fields| && Cut(fields[i].value, cap).1)
    case _ => (v, false)
  }

  /** Cutting what was already cut changes nothing and reports nothing. */
  lemma {:induction false} CutTwice(v: Value, cap: nat)
    ensures Cut(Cut(v, cap).0, cap) == (Cut(v, cap).0, false)
  {
    match v
    case List(items) =>
      var cut := Cut(v, cap).0;
      forall i | 0 <= i < |cut.items| ensures Cut(cut.items[i], cap) == (cut.items[i], false) {
        CutTwice(items[i], cap);
      }
      assert Cut(cut, cap).0.items == cut.items;
    case Dict(fields) =>
      var cut := Cut(v, cap).0;
      forall i | 0 <= i < |fields| ensures Cut(cut.fields[i].value, cap) == (cut.fields[i].value, false) {
        CutTwice(fields[i].value, cap);
      }
      assert Cut(cut, cap).0.fields == cut.fields;
    case _ =>
  }

  // ---------- the paths lengths are recorded under ----------

  function Digit(d: nat): char
    requires d < 10
  {
    "0123456789"[d]
  }

  function Text(n: nat): (s: string)
    ensures s != "" && '.' !in s && (|s| == 1 <==> n < 10)
  {
    if n < 10 then [Digit(n)] else Text(n / 10) + [Digit(n % 10)]
  }

  lemma {:induction false} TextIsInjective(a: nat, b: nat)
    ensures Text(a) == Text(b) ==> a == b
  {
    if Text(a) == Text(b) {
      assert Text(a)[|Text(a)| - 1] == Digit(a % 10) && Text(b)[|Text(b)| - 1] == Digit(b % 10);
      if a >= 10 && b >= 10 {
        assert Text(a)[..|Text(a)| - 1] == Text(a / 10) && Text(b)[..|Text(b)| - 1] == Text(b / 10);
        TextIsInjective(a / 10, b / 10);
      }
    }
  }

  function Child(path: string, name: string): string {
    if path == "" then name else path + "." + name
  }

  type Lengths = seq<(string, nat)>

  /** Every length the clipper writes, in the order it writes them. */
  function Visits(v: Value, cap: nat, path: string): Lengths
    decreases v, 1, 0
  {
    match v
    case List(items) => [(path, |items|)] + VisitItems(v, cap, path, Least(cap, |items|))
    case Dict(fields) => VisitFields(v, cap, path, |fields|)
    case _ => []
  }

  function VisitItems(v: Value, cap: nat, path: string, n: nat): Lengths
    requires v.List? && n <= |v.items|
    decreases v, 0, n
  {
    if n == 0 then [] else VisitItems(v, cap, path, n - 1) + Visits(v.items[n - 1], cap, Child(path, Text(n - 1)))
  }

  function VisitFields(v: Value, cap: nat, path: string, n: nat): Lengths
    requires v.Dict? && n <= |v.fields|
    decreases v, 0, n
  {
    if n == 0 then []
    else
      var last := v.fields[n - 1];
      VisitFields(v, cap, path, n - 1) + Visits(last.value, cap, Child(path, last.key))
  }

  function WriteAll(totals: map<string, nat>, visits: Lengths): map<string, nat> {
    if visits == [] then totals
    else WriteAll(totals, visits[..|visits| - 1])[visits[|visits| - 1].0 := visits[|visits| - 1].1]
  }

  lemma {:induction false} WriteBoth(totals: map<string, nat>, a: Lengths, b: Lengths)
    ensures WriteAll(totals, a + b) == WriteAll(WriteAll(totals, a), b)
  {
    if b == [] {
      assert a + b == a;
    } else {
      WriteBoth(totals, a, b[..|b| - 1]);
      assert (a + b)[..|a + b| - 1] == a + b[..|b| - 1];
    }
  }

  /** Clips every list to its first `cap` elements and records its length under its path. */
  method ClipLists(v: Value, cap: nat, path: string, totals: map<string, nat>)
      returns (clipped: Value, recorded: map<string, nat>)
    ensures clipped == Cut(v, cap).0
    ensures recorded == WriteAll(totals, Visits(v, cap, path))
    decreases v, 1
  {
    clipped, recorded := v, totals;
    match v
    case List(items) =>
      recorded := recorded[path := |items|];
      WriteBoth(totals, [(path, |items|)], VisitItems(v, cap, path, Least(cap, |items|)));
      assert [(path, |items|)][..0] == [];
      assert recorded == WriteAll(totals, [(path, |items|)]);
      clipped, recorded := ClipItems(v, cap, path, recorded);
    case Dict(fields) =>
      clipped, recorded := ClipFields(v, cap, path, totals);
    case _ =>
  }

  method ClipItems(v: Value, cap: nat, path: string, totals: map<string, nat>)
      returns (clipped: Value, recorded: map<string, nat>)
    requires v.List?
    ensures clipped == Cut(v, cap).0
    ensures recorded == WriteAll(totals, VisitItems(v, cap, path, Least(cap, |v.items|)))
    decreases v, 0
  {
    recorded := totals;
    var n := Least(cap, |v.items|);
    var kept: seq<Value> := v.items[..n];
    for index := 0 to n
      invariant |kept| == n && forall i :: index <= i < n ==> kept[i] == v.items[i]
      invariant forall i :: 0 <= i < index ==> kept[i] == Cut(v.items[i], cap).0
      invariant recorded == WriteAll(totals, VisitItems(v, cap, path, index))
    {
      WriteBoth(totals, VisitItems(v, cap, path, index), Visits(v.items[index], cap, Child(path, Text(index))));
      var item;
      item, recorded := ClipLists(v.items[index], cap, Child(path, Text(index)), recorded);
      kept := kept[index := item];
    }
    clipped := List(kept);
    assert kept == Cut(v, cap).0.items;
  }

  method ClipFields(v: Value, cap: nat, path: string, totals: map<string, nat>)
      returns (clipped: Value, recorded: map<string, nat>)
    requires v.Dict?
    ensures clipped == Cut(v, cap).0
    ensures recorded == WriteAll(totals, VisitFields(v, cap, path, |v.fields|))
    decreases v, 0
  {
    recorded := totals;
    var fields := v.fields;
    for index := 0 to |v.fields|
      invariant |fields| == |v.fields| && forall i :: index <= i < |fields| ==> fields[i] == v.fields[i]
      invariant forall i :: 0 <= i < index ==> fields[i] == Field(v.fields[i].key, Cut(v.fields[i].value, cap).0)
      invariant recorded == WriteAll(totals, VisitFields(v, cap, path, index))
    {
      var child := Child(path, v.fields[index].key);
      WriteBoth(totals, VisitFields(v, cap, path, index), Visits(v.fields[index].value, cap, child));
      var item;
      item, recorded := ClipLists(v.fields[index].value, cap, child, recorded);
      fields := fields[index := Field(v.fields[index].key, item)];
    }
    clipped := Dict(fields);
    assert fields == Cut(v, cap).0.fields;
  }

  method PreviewCopy(output: Value, cap: nat) returns (copied: Value, totals: map<string, nat>)
    ensures copied == Cut(output, cap).0 && totals == Totals(output, cap)
  {
    copied, totals := ClipLists(output, cap, "", map[]);
  }

  function Totals(output: Value, cap: nat): map<string, nat> {
    WriteAll(map[], Visits(output, cap, ""))
  }

  /** The preview of a stored value, told the lengths recorded when it was stored. */
  function Preview(output: Value, cap: nat, totals: map<string, nat>): (Value, bool) {
    var (preview, truncated) := Cut(output, cap);
    (preview, truncated || LongTotal(totals, cap))
  }

  // ---------- the lengths tell what was cut ----------

  predicate TooLong(visits: Lengths, cap: nat) {
    exists i :: 0 <= i < |visits| && visits[i].1 > cap
  }

  lemma TooLongJoins(a: Lengths, b: Lengths, cap: nat)
    ensures TooLong(a + b, cap) <==> TooLong(a, cap) || TooLong(b, cap)
  {
    forall i | 0 <= i < |a| && a[i].1 > cap ensures TooLong(a + b, cap) {
      assert (a + b)[i] == a[i];
    }
    forall i | 0 <= i < |b| && b[i].1 > cap ensures TooLong(a + b, cap) {
      assert (a + b)[|a| + i] == b[i];
    }
  }

  /** Something is cut exactly when some list visited is too long. */
  lemma {:induction false} CutIffTooLong(v: Value, cap: nat, path: string)
    ensures Cut(v, cap).1 <==> TooLong(Visits(v, cap, path), cap)
    decreases v, 1, 0
  {
    match v
    case List(items) =>
      var n := Least(cap, |items|);
      ItemsCutIffTooLong(v, cap, path, n);
      TooLongJoins([(path, |items|)], VisitItems(v, cap, path, n), cap);
      assert TooLong([(path, |items|)], cap) <==> |items| > cap by {
        assert [(path, |items|)][0].1 == |items|;
      }
    case Dict(fields) =>
      FieldsCutIffTooLong(v, cap, path, |fields|);
      assert Cut(v, cap).1 <==> AnyCut(ValuesOf(fields), cap, |fields|) by {
        var values := ValuesOf(fields);
        assert forall i :: 0 <= i < |fields| ==> values[i] == fields[i].value;
      }
    case _ =>
  }

  predicate AnyCut(values: seq<Value>, cap: nat, n: nat)
    requires n <= |values|
  {
    exists i :: 0 <= i < n && Cut(values[i], cap).1
  }

  lemma OneMoreCut(values: seq<Value>, cap: nat, n: nat)
    requires 0 < n <= |values|
    ensures AnyCut(values, cap, n) <==> AnyCut(values, cap, n - 1) || Cut(values[n - 1], cap).1
  {
  }

  function ValuesOf(fields: seq<Field>): seq<Value> {
    seq(|fields|, i requires 0 <= i < |fields| => fields[i].value)
  }

  lemma {:induction false} ItemsCutIffTooLong(v: Value, cap: nat, path: string, n: nat)
    requires v.List? && n <= |v.items|
    ensures TooLong(VisitItems(v, cap, path, n), cap) <==> AnyCut(v.items, cap, n)
    decreases v, 0, n
  {
    if n > 0 {
      ItemsCutIffTooLong(v, cap, path, n - 1);
      OneMoreCut(v.items, cap, n);
      CutIffTooLong(v.items[n - 1], cap, Child(path, Text(n - 1)));
      TooLongJoins(VisitItems(v, cap, path, n - 1), Visits(v.items[n - 1], cap, Child(path, Text(n - 1))), cap);
    }
  }

  lemma {:induction false} FieldsCutIffTooLong(v: Value, cap: nat, path: string, n: nat)
    requires v.Dict? && n <= |v.fields|
    ensures TooLong(VisitFields(v, cap, path, n), cap) <==> AnyCut(ValuesOf(v.fields), cap, n)
    decreases v, 0, n
  {
    if n > 0 {
      var m := n - 1;
      var value, child := v.fields[m].value, Child(path, v.fields[m].key);
      FieldsCutIffTooLong(v, cap, path, m);
      CutIffTooLong(value, cap, child);
      OneMoreCut(ValuesOf(v.fields), cap, n);
      TooLongJoins(VisitFields(v, cap, path, m), Visits(value, cap, child), cap);
    }
  }

  predicate DistinctPaths(visits: Lengths) {
    forall i, j :: 0 <= i < j < |visits| ==> visits[i].0 != visits[j].0
  }

  /** No later list is recorded under the same path. */
  predicate IsLast(visits: Lengths, i: nat)
    requires i < |visits|
  {
    forall j :: i < j < |visits| ==> visits[j].0 != visits[i].0
  }

  /** Some list that was too long is the last one recorded under its path. */
  predicate LongIsLast(visits: Lengths, cap: nat) {
    exists i :: 0 <= i < |visits| && visits[i].1 > cap && IsLast(visits, i)
  }

  predicate LongTotal(totals: map<string, nat>, cap: nat) {
    exists path :: path in totals && totals[path] > cap
  }

  /** The last write to a path is the one that stays. */
  lemma {:induction false} LastWriteStays(visits: Lengths, i: nat)
    requires i < |visits| && IsLast(visits, i)
    ensures visits[i].0 in WriteAll(map[], visits) && WriteAll(map[], visits)[visits[i].0] == visits[i].1
  {
    var n := |visits| - 1;
    if i < n {
      assert visits[n].0 != visits[i].0;
      assert IsLast(visits[..n], i);
      LastWriteStays(visits[..n], i);
    }
  }

  /** Whatever is recorded was the last write to its path. */
  lemma {:induction false} RecordedByTheLast(visits: Lengths, path: string) returns (i: nat)
    requires path in WriteAll(map[], visits)
    ensures i < |visits| && IsLast(visits, i) && visits[i] == (path, WriteAll(map[], visits)[path])
  {
    var n := |visits| - 1;
    if visits[n].0 == path {
      i := n;
    } else {
      i := RecordedByTheLast(visits[..n], path);
      assert visits[i] == visits[..n][i];
      forall j | i < j < |visits| ensures visits[j].0 != visits[i].0 {
        if j < n { assert visits[..n][j].0 != visits[..n][i].0; }
      }
    }
  }

  lemma LongTotalIffLongIsLast(visits: Lengths, cap: nat)
    ensures LongTotal(WriteAll(map[], visits), cap) <==> LongIsLast(visits, cap)
  {
    var totals := WriteAll(map[], visits);
    if path :| path in totals && totals[path] > cap {
      var i := RecordedByTheLast(visits, path);
    }
    if i :| 0 <= i < |visits| && visits[i].1 > cap && IsLast(visits, i) {
      LastWriteStays(visits, i);
    }
  }

  // ---------- distinct paths ----------

  predicate PlainName(name: string) {
    name != "" && '.' !in name
  }

  /** Every key in every object is plain, and an object's keys are distinct. */
  predicate PlainKeys(v: Value) {
    match v
    case List(items) => forall i :: 0 <= i < |items| ==> PlainKeys(items[i])
    case Dict(fields) =>
      && DistinctKeys(fields)
      && forall i :: 0 <= i < |fields| ==> PlainName(fields[i].key) && PlainKeys(fields[i].value)
    case _ => true
  }

  /** p is a, or goes on below it. */
  predicate Begins(p: string, a: string) {
    p == a || (|p| > |a| && p[..|a|] == a && p[|a|] == '.')
  }

  predicate Under(path: string, p: string) {
    path == "" || Begins(p, path)
  }

  lemma DotInLonger(p: string, a: string, b: string)
    requires Begins(p, a) && Begins(p, b)
    ensures |a| < |b| ==> b[|a|] == '.'
  {
    if |a| < |b| {
      assert p[..|b|] == b;
      assert p[..|b|][|a|] == p[|a|];
    }
  }

  lemma OneFirstName(p: string, a: string, b: string)
    requires PlainName(a) && PlainName(b) && Begins(p, a) && Begins(p, b)
    ensures a == b
  {
    DotInLonger(p, a, b);
    DotInLonger(p, b, a);
    assert |a| == |b|;
    assert p[..|a|] == a && p[..|b|] == b;
  }

  lemma BelowAChild(path: string, a: string, p: string)
    requires PlainName(a) && Begins(p, Child(path, a))
    ensures p != path && Under(path, p)
    ensures path == "" ==> Begins(p, a)
    ensures path != "" ==> |p| > |path| + 1 && Begins(p[|path| + 1..], a)
  {
    if path != "" {
      var child := path + "." + a;
      assert child[..|path|] == path && child[|path|] == '.' && child[|path| + 1..] == a;
      assert p[..|child|] == child;
      assert p[..|path|] == p[..|child|][..|path|] && p[|path|] == p[..|child|][|path|];
      assert p[|path| + 1..|child|] == p[..|child|][|path| + 1..];
      var rest := p[|path| + 1..];
      assert rest[..|a|] == p[|path| + 1..|child|];
    }
  }

  lemma SiblingsApart(path: string, a: string, b: string, p: string)
    requires PlainName(a) && PlainName(b) && Begins(p, Child(path, a)) && Begins(p, Child(path, b))
    ensures a == b
  {
    BelowAChild(path, a, p);
    BelowAChild(path, b, p);
    OneFirstName(if path == "" then p else p[|path| + 1..], a, b);
  }

  /** Every path visited lies under one of the first n names. */
  ghost predicate AllBelow(visits: Lengths, path: string, names: seq<string>) {
    forall i :: 0 <= i < |visits| ==> BelowOne(visits[i].0, path, names)
  }

  ghost predicate BelowOne(p: string, path: string, names: seq<string>) {
    exists k :: 0 <= k < |names| && Begins(p, Child(path, names[k]))
  }

  lemma JoinBelow(a: Lengths, b: Lengths, path: string, names: seq<string>, name: string)
    requires AllBelow(a, path, names) && DistinctPaths(a) && DistinctPaths(b)
    requires forall i :: 0 <= i < |b| ==> Under(Child(path, name), b[i].0)
    requires PlainName(name) && name !in names && forall k :: 0 <= k < |names| ==> PlainName(names[k])
    ensures AllBelow(a + b, path, names + [name]) && DistinctPaths(a + b)
  {
    forall i | 0 <= i < |a + b|
      ensures BelowOne((a + b)[i].0, path, names + [name])
    {
      if i < |a| {
        assert BelowOne(a[i].0, path, names);
        var k :| 0 <= k < |names| && Begins(a[i].0, Child(path, names[k]));
        assert (names + [name])[k] == names[k];
      } else {
        assert (names + [name])[|names|] == name;
      }
    }
    forall i, j | 0 <= i < |a| && 0 <= j < |b| ensures a[i].0 != b[j].0 {
      assert BelowOne(a[i].0, path, names);
      var k :| 0 <= k < |names| && Begins(a[i].0, Child(path, names[k]));
      if a[i].0 == b[j].0 {
        SiblingsApart(path, names[k], name, a[i].0);
      }
    }
    DistinctJoin(a, b);
  }

  lemma DistinctJoin(a: Lengths, b: Lengths)
    requires DistinctPaths(a) && DistinctPaths(b)
    requires forall i, j :: 0 <= i < |a| && 0 <= j < |b| ==> a[i].0 != b[j].0
    ensures DistinctPaths(a + b)
  {
    var all := a + b;
    forall i, j | 0 <= i < j < |all| ensures all[i].0 != all[j].0 {
      if i < |a| <= j {
        assert all[i] == a[i] && all[j] == b[j - |a|];
      }
    }
  }

  function IndexNames(n: nat): seq<string> {
    seq(n, i requires 0 <= i < n => Text(i))
  }

  function KeyNames(fields: seq<Field>): seq<string> {
    seq(|fields|, i requires 0 <= i < |fields| => fields[i].key)
  }

  lemma BelowIsUnder(visits: Lengths, path: string, names: seq<string>)
    requires AllBelow(visits, path, names) && forall k :: 0 <= k < |names| ==> PlainName(names[k])
    ensures forall i :: 0 <= i < |visits| ==> visits[i].0 != path && Under(path, visits[i].0)
  {
    forall i | 0 <= i < |visits| ensures visits[i].0 != path && Under(path, visits[i].0) {
      assert BelowOne(visits[i].0, path, names);
      var k :| 0 <= k < |names| && Begins(visits[i].0, Child(path, names[k]));
      BelowAChild(path, names[k], visits[i].0);
    }
  }

  lemma {:induction false} PathsAreDistinct(v: Value, cap: nat, path: string)
    requires PlainKeys(v)
    ensures DistinctPaths(Visits(v, cap, path))
    ensures forall i :: 0 <= i < |Visits(v, cap, path)| ==> Under(path, Visits(v, cap, path)[i].0)
    decreases v, 1, 0
  {
    hide AllBelow;
    match v
    case List(items) =>
      var n := Least(cap, |items|);
      ItemPathsAreDistinct(v, cap, path, n);
      BelowIsUnder(VisitItems(v, cap, path, n), path, IndexNames(n));
    case Dict(fields) =>
      FieldPathsAreDistinct(v, cap, path, |fields|);
      assert fields[..|fields|] == fields;
      BelowIsUnder(VisitFields(v, cap, path, |fields|), path, KeyNames(fields));
    case _ =>
  }

  /** The lists below the next element lie apart from those below the elements before it. */
  lemma JoinItem(a: Lengths, b: Lengths, path: string, m: nat)
    requires AllBelow(a, path, IndexNames(m)) && DistinctPaths(a) && DistinctPaths(b)
    requires forall i :: 0 <= i < |b| ==> Under(Child(path, Text(m)), b[i].0)
    ensures AllBelow(a + b, path, IndexNames(m + 1)) && DistinctPaths(a + b)
  {
    forall k | 0 <= k < m ensures IndexNames(m)[k] != Text(m) && PlainName(IndexNames(m)[k]) {
      TextIsInjective(k, m);
    }
    JoinBelow(a, b, path, IndexNames(m), Text(m));
    assert IndexNames(m + 1) == IndexNames(m) + [Text(m)];
  }

  lemma {:induction false} ItemPathsAreDistinct(v: Value, cap: nat, path: string, n: nat)
    requires v.List? && n <= |v.items| && PlainKeys(v)
    ensures DistinctPaths(VisitItems(v, cap, path, n)) && AllBelow(VisitItems(v, cap, path, n), path, IndexNames(n))
    decreases v, 0, n
  {
    if n > 0 {
      hide DistinctPaths, AllBelow, Under, IndexNames;
      var m := n - 1;
      ItemPathsAreDistinct(v, cap, path, m);
      PathsAreDistinct(v.items[m], cap, Child(path, Text(m)));
      JoinItem(VisitItems(v, cap, path, m), Visits(v.items[m], cap, Child(path, Text(m))), path, m);
    }
  }

  lemma {:induction false} FieldPathsAreDistinct(v: Value, cap: nat, path: string, n: nat)
    requires v.Dict? && n <= |v.fields| && PlainKeys(v)
    ensures DistinctPaths(VisitFields(v, cap, path, n))
    ensures AllBelow(VisitFields(v, cap, path, n), path, KeyNames(v.fields[..n]))
    decreases v, 0, n
  {
    if n > 0 {
      var m := n - 1;
      var name := v.fields[m].key;
      FieldPathsAreDistinct(v, cap, path, m);
      PathsAreDistinct(v.fields[m].value, cap, Child(path, name));
      JoinBelow(VisitFields(v, cap, path, m), Visits(v.fields[m].value, cap, Child(path, name)), path,
          KeyNames(v.fields[..m]), name);
      assert KeyNames(v.fields[..n]) == KeyNames(v.fields[..m]) + [name];
    }
  }

  /** Clipping for storage and previewing later with the recorded lengths gives the value that previewing the
      original gives, and the same flag exactly when nothing was too long or some list that was is the last one
      recorded under its path. */
  lemma ClippedPreviewsTheSame(output: Value, cap: nat)
    ensures Preview(Cut(output, cap).0, cap, Totals(output, cap)).0 == Preview(output, cap, map[]).0
    ensures Preview(Cut(output, cap).0, cap, Totals(output, cap)) == Preview(output, cap, map[])
       <==> (TooLong(Visits(output, cap, ""), cap) ==> LongIsLast(Visits(output, cap, ""), cap))
  {
    CutTwice(output, cap);
    CutIffTooLong(output, cap, "");
    LongTotalIffLongIsLast(Visits(output, cap, ""), cap);
  }

  /** With plain keys no two lists share a path, so the previews always agree. */
  lemma PlainKeysPreviewTheSame(output: Value, cap: nat)
    requires PlainKeys(output)
    ensures Preview(Cut(output, cap).0, cap, Totals(output, cap)) == Preview(output, cap, map[])
  {
    var visits := Visits(output, cap, "");
    ClippedPreviewsTheSame(output, cap);
    PathsAreDistinct(output, cap, "");
    if TooLong(visits, cap) {
      var i :| 0 <= i < |visits| && visits[i].1 > cap;
      assert IsLast(visits, i);
    }
  }

  function Nulls(n: nat): Value {
    List(seq(n, i => Null))
  }

  lemma {:induction false} NullsVisitNothing(length: nat, cap: nat, path: string, n: nat)
    requires n <= length
    ensures VisitItems(Nulls(length), cap, path, n) == []
  {
    if n > 0 {
      NullsVisitNothing(length, cap, path, n - 1);
      assert Nulls(length).items[n - 1] == Null;
    }
  }

  /** Without them they need not: a dotted key shares its path with a nested list, whose length replaces the one
      that was too long, and the preview of the clipped output no longer says that anything is missing. */
  lemma DottedKeyHidesACut() returns (output: Value)
    ensures Preview(output, PREVIEW_LIST_CAP, map[]).1
    ensures !Preview(Cut(output, PREVIEW_LIST_CAP).0, PREVIEW_LIST_CAP, Totals(output, PREVIEW_LIST_CAP)).1
  {
    var long, inner := Nulls(PREVIEW_LIST_CAP + 1), Dict([Field("b", List([]))]);
    output := Dict([Field("a.b", long), Field("a", inner)]);
    var visits := Visits(output, PREVIEW_LIST_CAP, "");
    TwoVisits(PREVIEW_LIST_CAP, long, inner, output);
    assert visits == [("a.b", PREVIEW_LIST_CAP + 1), ("a.b", 0)];
    assert visits[0].1 > PREVIEW_LIST_CAP && visits[1].0 == visits[0].0;
    CutTwice(output, PREVIEW_LIST_CAP);
    CutIffTooLong(output, PREVIEW_LIST_CAP, "");
    LongTotalIffLongIsLast(visits, PREVIEW_LIST_CAP);
  }

  lemma LongVisit(cap: nat, path: string)
    ensures Visits(Nulls(cap + 1), cap, path) == [(path, cap + 1)]
  {
    var long := Nulls(cap + 1);
    NullsVisitNothing(cap + 1, cap, path, cap);
    assert long.List? && |long.items| == cap + 1 && Least(cap, cap + 1) == cap;
    assert [(path, cap + 1)] + [] == [(path, cap + 1)];
  }

  lemma EmptyVisit(cap: nat, path: string)
    ensures Visits(List([]), cap, path) == [(path, 0)]
  {
    assert VisitItems(List([]), cap, path, 0) == [];
  }

  lemma FieldVisits(fields: seq<Field>, cap: nat, path: string, n: nat)
    requires n < |fields|
    ensures VisitFields(Dict(fields), cap, path, n + 1)
         == VisitFields(Dict(fields), cap, path, n) + Visits(fields[n].value, cap, Child(path, fields[n].key))
  {}

  lemma TwoVisits(cap: nat, long: Value, inner: Value, output: Value)
    requires long == Nulls(cap + 1) && inner == Dict([Field("b", List([]))])
    requires output == Dict([Field("a.b", long), Field("a", inner)])
    ensures Visits(output, cap, "") == [("a.b", cap + 1), ("a.b", 0)]
  {
    LongVisit(cap, "a.b");
    EmptyVisit(cap, "a.b");
    hide Visits, VisitFields, Nulls;
    assert Child("a", "b") == "a.b" && Child("", "a") == "a" && Child("", "a.b") == "a.b";
    VisitsOfDict(inner.fields, cap, "a");
    VisitsOfDict(output.fields, cap, "");
    FieldVisits(inner.fields, cap, "a", 0);
    FieldVisits(output.fields, cap, "", 0);
    FieldVisits(output.fields, cap, "", 1);
  }

  lemma VisitsOfDict(fields: seq<Field>, cap: nat, path: string)
    ensures Visits(Dict(fields), cap, path) == VisitFields(Dict(fields), cap, path, |fields|)
    ensures VisitFields(Dict(fields), cap, path, 0) == []
  {}
}
