/**
 * The JSON station catalog (pkg/noxon/jsonStationsModel.go): a forest of
 * directory and station entries whose ids are assigned in pre-order when the
 * model is built, searched depth first, and served through `Data` and
 * `Count`. The JSON parsing itself is not modelled: the forest arrives as a
 * value. After `json.Unmarshal` no entry is shared between two parents, so a
 * value tree describes the pointer tree exactly.
 */
module JsonStationsModel {
  import opened Wrappers
  import opened Items
  import Decimal

  datatype Entry = Entry(id: string, dirName: string, stationName: string, stationDescription: string,
                         stationUrl: string, children: seq<Entry>)

  datatype JsonModel = JsonModel(data: seq<Entry>)

  predicate IsDir(e: Entry) {
    |e.dirName| > 0
  }

  predicate IsStation(e: Entry) {
    |e.stationName| > 0
  }

  /** Every entry of a forest, parents before children, siblings in order. */
  function Preorder(es: seq<Entry>): seq<Entry>
    decreases es
  {
    if es == [] then [] else [es[0]] + Preorder(es[0].children) + Preorder(es[1..])
  }

  /** The first entry of a sequence carrying `id`: the reference for the depth-first search. */
  function FirstWithId(s: seq<Entry>, id: string): (r: Option<Entry>)
    ensures r.Some? ==> r.value.id == id
    ensures r.Some? ==> exists k :: 0 <= k < |s| && s[k] == r.value && forall j :: 0 <= j < k ==> s[j].id != id
    ensures r.None? ==> forall e :: e in s ==> e.id != id
    decreases |s|
  {
    if s == [] then None
    else if s[0].id == id then Some(s[0])
    else
      var r := FirstWithId(s[1..], id);
      if r.None? then r
      else
        var k :| 0 <= k < |s[1..]| && s[1..][k] == r.value && forall j :: 0 <= j < k ==> s[1..][j].id != id;
        assert s[k + 1] == r.value && forall j :: 0 <= j < k + 1 ==> s[j].id != id;
        r
  }

  lemma {:induction false} FirstWithIdAppend(a: seq<Entry>, b: seq<Entry>, id: string)
    ensures FirstWithId(a + b, id) == if FirstWithId(a, id).Some? then FirstWithId(a, id) else FirstWithId(b, id)
    decreases |a|
  {
    if a != [] {
      assert (a + b)[1..] == a[1..] + b;
      FirstWithIdAppend(a[1..], b, id);
    } else {
      assert a + b == b;
    }
  }

  /**
   * `findEntry`: the nested depth-first search, which tests an entry, then
   * searches its children, then moves on to the next sibling. It finds the
   * first entry in pre-order that carries the id.
   */
  function FindIn(es: seq<Entry>, id: string): (r: Option<Entry>)
    ensures r == FirstWithId(Preorder(es), id)
    decreases es
  {
    if es == [] then None
    else if es[0].id == id then
      assert Preorder(es) == [es[0]] + (Preorder(es[0].children) + Preorder(es[1..]));
      Some(es[0])
    else
      var inChildren := FindIn(es[0].children, id);
      FirstWithIdAppend([es[0]], Preorder(es[0].children) + Preorder(es[1..]), id);
      FirstWithIdAppend(Preorder(es[0].children), Preorder(es[1..]), id);
      assert Preorder(es) == [es[0]] + (Preorder(es[0].children) + Preorder(es[1..]));
      if inChildren.Some? then inChildren else FindIn(es[1..], id)
  }

  /** The catalog's `findEntry`: the first entry in pre-order that carries the id. */
  function FindEntry(m: JsonModel, id: string): (r: Option<Entry>)
    ensures r == FirstWithId(Preorder(m.data), id)
    ensures r.Some? ==> r.value.id == id && r.value in Preorder(m.data)
  {
    FindIn(m.data, id)
  }

  /**
   * `entryToItem`: a directory wins over a station; an entry that is
   * neither, like a missing one, yields the empty directory and no id.
   */
  function EntryToItem(e: Option<Entry>): (r: Fetch)
    ensures r.Fetched?
    ensures r.id != "" ==> e.Some? && r.id == e.value.id
    ensures e.Some? && IsDir(e.value) ==>
      r.item.ItemDir? && r.item.title == e.value.dirName && r.item.urlDir == "" && r.id == e.value.id
    ensures e.Some? && !IsDir(e.value) && IsStation(e.value) ==>
      r.item.ItemStation? && r.item.stationName == e.value.stationName
      && r.item.stationDescription == e.value.stationDescription && r.item.stationUrl == e.value.stationUrl
      && r.item.stationFormat == "" && r.item.stationBandWidth == ""
      && r.item.stationMime == "MP3" && r.id == e.value.id
    ensures e.None? || (!IsDir(e.value) && !IsStation(e.value)) ==> r == Fetched(EmptyDir, "")
  {
    if e.Some? && IsDir(e.value) then
      Fetched(ItemDir("", e.value.dirName, ""), e.value.id)
    else if e.Some? && IsStation(e.value) then
      Fetched(ItemStation("", "", e.value.stationName, e.value.stationUrl, e.value.stationDescription, "", "", "MP3"),
              e.value.id)
    else
      Fetched(EmptyDir, "")
  }

  /** `Count`: root entries, children of a found parent, 0 for an unknown parent. */
  function Count(m: JsonModel, parent: Option<string>): (n: int)
    ensures n >= 0
    ensures parent.None? ==> n == |m.data|
    ensures parent.Some? && FindEntry(m, parent.value).Some? ==> n == |FindEntry(m, parent.value).value.children|
    ensures parent.Some? && FindEntry(m, parent.value).None? ==> n == 0
  {
    if parent.None? then |m.data|
    else match FindEntry(m, parent.value)
      case Some(e) => |e.children|
      case None => 0
  }

  /**
   * `Data`: root entry `index`, child `index` of a parent, or (index < 0)
   * the parent entry itself. Neither the root slice nor a child slice is
   * bounds-checked, so an index outside them is a Go runtime panic.
   */
  function Data(m: JsonModel, parent: Option<string>, index: int): (r: Fetch)
    ensures r.IndexPanic? <==> (parent.None? || (index >= 0 && FindEntry(m, parent.value).Some?))
                               && !(0 <= index < Count(m, parent))
    ensures parent.None? && 0 <= index < |m.data| ==> r == EntryToItem(Some(m.data[index]))
    ensures parent.Some? && index >= 0 && FindEntry(m, parent.value).Some?
            && index < |FindEntry(m, parent.value).value.children|
            ==> r == EntryToItem(Some(FindEntry(m, parent.value).value.children[index]))
    ensures parent.Some? && index < 0 ==> r == EntryToItem(FindEntry(m, parent.value))
    ensures parent.Some? && FindEntry(m, parent.value).None? ==> r == Fetched(EmptyDir, "")
  {
    if parent.None? then
      if 0 <= index < |m.data| then EntryToItem(Some(m.data[index])) else IndexPanic
    else if index >= 0 then
      match FindEntry(m, parent.value)
      case Some(e) => if index < |e.children| then EntryToItem(Some(e.children[index])) else IndexPanic
      case None => Fetched(EmptyDir, "")
    else
      EntryToItem(FindEntry(m, parent.value))
  }

  /** Same catalog fields and the same number of children: only the id may differ. */
  predicate SameFields(a: Entry, b: Entry) {
    a.dirName == b.dirName && a.stationName == b.stationName && a.stationDescription == b.stationDescription
    && a.stationUrl == b.stationUrl && |a.children| == |b.children|
  }

  lemma {:induction false} PreorderAppend(a: seq<Entry>, b: seq<Entry>)
    ensures Preorder(a + b) == Preorder(a) + Preorder(b)
    decreases |a|
  {
    if a == [] {
      assert a + b == b;
    } else {
      assert (a + b)[0] == a[0];
      assert (a + b)[1..] == a[1..] + b;
      PreorderAppend(a[1..], b);
    }
  }

  lemma PreorderSingle(e: Entry)
    ensures Preorder([e]) == [e] + Preorder(e.children)
  {
    assert [e][1..] == [];
  }

  /**
   * `xs` is `ys` renumbered from `index`: entry by entry the same fields and
   * number of children, and the k-th entry is named by the decimal
   * rendering of `index + k`.
   */
  ghost predicate NumberedFrom(xs: seq<Entry>, ys: seq<Entry>, index: nat) {
    |xs| == |ys|
    && forall k :: 0 <= k < |xs| ==> xs[k].id == Decimal.NatToString(index + k) && SameFields(xs[k], ys[k])
  }

  lemma NumberedConcat(a: seq<Entry>, b: seq<Entry>, x: seq<Entry>, y: seq<Entry>, index: nat)
    requires NumberedFrom(a, x, index) && NumberedFrom(b, y, index + |a|)
    ensures NumberedFrom(a + b, x + y, index)
  {
    forall k | 0 <= k < |a + b|
      ensures (a + b)[k].id == Decimal.NatToString(index + k) && SameFields((a + b)[k], (x + y)[k])
    {
      if k >= |a| {
        assert (a + b)[k] == b[k - |a|] && (x + y)[k] == y[k - |a|];
        assert index + k == index + |a| + (k - |a|);
      }
    }
  }

  /** One step of `indexer`: numbering an entry and its indexed children extends the numbering. */
  lemma IndexStep(indexed: seq<Entry>, done: seq<Entry>, entry: Entry, index: nat, next: nat, children: seq<Entry>)
    requires NumberedFrom(Preorder(indexed), Preorder(done), index)
    requires next == index + |Preorder(done)|
    requires |children| == |entry.children|
    requires NumberedFrom(Preorder(children), Preorder(entry.children), next + 1)
    ensures NumberedFrom(Preorder(indexed + [entry.(id := Decimal.NatToString(next), children := children)]),
                         Preorder(done + [entry]), index)
    ensures |Preorder(done + [entry])| == |Preorder(done)| + 1 + |Preorder(entry.children)|
  {
    var indexedEntry := entry.(id := Decimal.NatToString(next), children := children);
    PreorderSnoc(indexed, indexedEntry);
    PreorderSnoc(done, entry);
    NumberedSnoc(Preorder(indexed), Preorder(done), indexedEntry, entry,
                 Preorder(children), Preorder(entry.children), index, next);
  }

  /** Numbering an entry and then its renumbered descendants continues a numbering. */
  lemma NumberedSnoc(a: seq<Entry>, x: seq<Entry>, ie: Entry, e: Entry, b: seq<Entry>, y: seq<Entry>,
                     index: nat, next: nat)
    requires NumberedFrom(a, x, index) && next == index + |a|
    requires ie.id == Decimal.NatToString(next) && SameFields(ie, e)
    requires NumberedFrom(b, y, next + 1)
    ensures NumberedFrom(a + ([ie] + b), x + ([e] + y), index)
  {
    assert NumberedFrom([ie], [e], next);
    NumberedConcat([ie], b, [e], y, next);
    NumberedConcat(a, [ie] + b, x, [e] + y, index);
  }

  /** Appending one entry appends it and its descendants to the pre-order. */
  lemma PreorderSnoc(es: seq<Entry>, e: Entry)
    ensures Preorder(es + [e]) == Preorder(es) + ([e] + Preorder(e.children))
  {
    PreorderAppend(es, [e]);
    PreorderSingle(e);
  }

  /**
   * The indexer of `NewJsonModelFromJson`: walks the forest in pre-order,
   * giving each entry the decimal rendering of a shared counter and
   * incrementing it. Since the pre-order sequence together with each
   * entry's number of children determines the tree, the ensures say that
   * the forest keeps its shape and fields and that the k-th entry in
   * pre-order gets id `index + k`.
   */
  method Indexer(entries: seq<Entry>, index: nat) returns (indexed: seq<Entry>, next: nat)
    ensures |indexed| == |entries|
    ensures NumberedFrom(Preorder(indexed), Preorder(entries), index)
    ensures next == index + |Preorder(entries)|
    decreases entries
  {
    indexed, next := [], index;
    var i := 0;
    while i < |entries|
      invariant 0 <= i <= |entries| && |indexed| == i
      invariant NumberedFrom(Preorder(indexed), Preorder(entries[..i]), index)
      invariant next == index + |Preorder(entries[..i])|
    {
      var entry := entries[i];
      var id := Decimal.NatToString(next);
      var children, after := Indexer(entry.children, next + 1);
      var indexedEntry := entry.(id := id, children := children);
      assert entries[..i + 1] == entries[..i] + [entry];
      IndexStep(indexed, entries[..i], entry, index, next, children);
      indexed := indexed + [indexedEntry];
      next := after;
      i := i + 1;
    }
    assert entries[..i] == entries;
  }

  /** The k-th entry in pre-order is named by the decimal rendering of k. */
  ghost predicate IdsArePositions(es: seq<Entry>) {
    forall k :: 0 <= k < |Preorder(es)| ==> Preorder(es)[k].id == Decimal.NatToString(k)
  }

  /** `NewJsonModelFromJson` after the JSON has been parsed into `data`. */
  method NewJsonModelFromJson(data: seq<Entry>) returns (m: JsonModel)
    ensures |m.data| == |data| && |Preorder(m.data)| == |Preorder(data)|
    ensures IdsArePositions(m.data)
    ensures forall k :: 0 <= k < |Preorder(data)| ==> SameFields(Preorder(m.data)[k], Preorder(data)[k])
  {
    var indexed, _ := Indexer(data, 0);
    m := JsonModel(indexed);
  }

  ghost predicate DistinctIds(s: seq<Entry>) {
    forall i, j :: 0 <= i < j < |s| ==> s[i].id != s[j].id
  }

  /** Ids assigned by position are pairwise distinct. */
  lemma PositionalIdsDistinct(es: seq<Entry>)
    requires IdsArePositions(es)
    ensures DistinctIds(Preorder(es))
  {
    forall i, j | 0 <= i < j < |Preorder(es)|
      ensures Preorder(es)[i].id != Preorder(es)[j].id
    {
      Decimal.NatToStringInjective(i, j);
    }
  }

  lemma {:induction false} FirstWithIdDistinct(s: seq<Entry>, k: int)
    requires DistinctIds(s) && 0 <= k < |s|
    ensures FirstWithId(s, s[k].id) == Some(s[k])
    decreases |s|
  {
    if k > 0 {
      assert s[0].id != s[k].id;
      assert s[1..][k - 1] == s[k];
      FirstWithIdDistinct(s[1..], k - 1);
    }
  }

  /** In an indexed catalog the search for the k-th id finds exactly the k-th entry. */
  lemma FindIndexed(m: JsonModel, k: int)
    requires IdsArePositions(m.data) && 0 <= k < |Preorder(m.data)|
    ensures FindEntry(m, Decimal.NatToString(k)) == Some(Preorder(m.data)[k])
  {
    PositionalIdsDistinct(m.data);
    FirstWithIdDistinct(Preorder(m.data), k);
  }

  lemma {:induction false} RootsInPreorder(es: seq<Entry>, j: int)
    requires 0 <= j < |es|
    ensures es[j] in Preorder(es)
    decreases |es|
  {
    if j > 0 {
      assert es[1..][j - 1] == es[j];
      RootsInPreorder(es[1..], j - 1);
    }
  }

  lemma {:induction false} ChildrenInPreorder(es: seq<Entry>, e: Entry, j: int)
    requires e in Preorder(es) && 0 <= j < |e.children|
    ensures e.children[j] in Preorder(es)
    decreases es
  {
    assert es != [];
    if e == es[0] {
      RootsInPreorder(e.children, j);
    } else if e in Preorder(es[0].children) {
      ChildrenInPreorder(es[0].children, e, j);
    } else {
      ChildrenInPreorder(es[1..], e, j);
    }
  }

  /** Every entry is a directory or a station and carries an id. */
  ghost predicate WellFormed(m: JsonModel) {
    forall k :: 0 <= k < |Preorder(m.data)| ==>
      (IsDir(Preorder(m.data)[k]) || IsStation(Preorder(m.data)[k])) && Preorder(m.data)[k].id != ""
  }

  /** The entry `Data(parent, i)` reads, for an index inside `Count(parent)`. */
  lemma ChildEntry(m: JsonModel, parent: Option<string>, i: int) returns (c: Entry)
    requires parent.None? || FindEntry(m, parent.value).Some?
    requires 0 <= i < Count(m, parent)
    ensures c in Preorder(m.data) && Data(m, parent, i) == EntryToItem(Some(c))
  {
    if parent.None? {
      c := m.data[i];
      RootsInPreorder(m.data, i);
    } else {
      var e := FindEntry(m, parent.value).value;
      c := e.children[i];
      ChildrenInPreorder(m.data, e, i);
    }
  }

  /**
   * The round trip the repository's test walks: for every reachable parent
   * and every index below its count, the entry has an id, that id can be
   * looked up again, and the lookup returns the same id.
   */
  lemma DataRoundTrip(m: JsonModel, parent: Option<string>, i: int)
    requires WellFormed(m)
    requires parent.None? || FindEntry(m, parent.value).Some?
    requires 0 <= i < Count(m, parent)
    ensures var f := Data(m, parent, i);
      f.Fetched? && f.id != "" && FindEntry(m, f.id).Some?
      && Data(m, Some(f.id), -1).Fetched? && Data(m, Some(f.id), -1).id == f.id
  {
    var c := ChildEntry(m, parent, i);
    var k :| 0 <= k < |Preorder(m.data)| && Preorder(m.data)[k] == c;
    var found := FindEntry(m, c.id);
    assert found.Some?;
    var x := found.value;
    var kx :| 0 <= kx < |Preorder(m.data)| && Preorder(m.data)[kx] == x;
  }

  /** With the ids the indexer assigns, the lookup by id also returns the very same item. */
  lemma IndexedDataRoundTrip(m: JsonModel, parent: Option<string>, i: int)
    requires WellFormed(m) && IdsArePositions(m.data)
    requires parent.None? || FindEntry(m, parent.value).Some?
    requires 0 <= i < Count(m, parent)
    ensures Data(m, Some(Data(m, parent, i).id), -1) == Data(m, parent, i)
  {
    var c := ChildEntry(m, parent, i);
    var k :| 0 <= k < |Preorder(m.data)| && Preorder(m.data)[k] == c;
    FindIndexed(m, k);
  }

  /** Indexing a forest of named entries yields a well-formed catalog. */
  lemma IndexedIsWellFormed(data: seq<Entry>, m: JsonModel)
    requires forall k :: 0 <= k < |Preorder(data)| ==> IsDir(Preorder(data)[k]) || IsStation(Preorder(data)[k])
    requires |Preorder(m.data)| == |Preorder(data)| && IdsArePositions(m.data)
    requires forall k :: 0 <= k < |Preorder(data)| ==> SameFields(Preorder(m.data)[k], Preorder(data)[k])
    ensures WellFormed(m)
  {
  }
}
