/**
 * Pagination of catalog listings (`min` and `CollectFromModel` in
 * pkg/noxon/noxon.go): the specification of which entries a page holds.
 * The page is defined over any lookup `fetch` (the `StationsModel`
 * interface's `Data` under one parent) and any `build` (the items' `build`
 * method for one request); `Page` instantiates both. The loop that
 * collects a page is `CollectPage`, which `Noxon.NoxonServer.CollectFromModel`
 * calls with the catalog's lookup.
 */
module Paging {
  import opened Wrappers
  import opened Items
  import opened Catalog

  /** Go's `min` helper. */
  function Min(one: int, two: int): (r: int)
    ensures r <= one && r <= two && (r == one || r == two)
  {
    if one < two then one else two
  }

  function Max0(x: int): nat {
    if x < 0 then 0 else x
  }

  /** The exclusive end of a page: one past the requested end, clamped to the parent's count. */
  function TrueEnd(m: StationsModel, parent: Option<string>, end: int): int {
    Min(end + 1, Count(m, parent))
  }

  /** The lookups under one parent, by index. */
  function FetchUnder(m: StationsModel, parent: Option<string>): int -> Fetch {
    i => Data(m, parent, i)
  }

  /** The `build` method of the items, for one request. */
  function BuildFor(c: Context): (Item, string) -> Item {
    (item, id) => Build(item, c, id)
  }

  /** The built items for indices `i .. stop-1` in order, or None when one lookup panics. */
  function PageFrom(fetch: int -> Fetch, build: (Item, string) -> Item, i: int, stop: int): Option<seq<Item>>
    decreases stop - i
  {
    if i >= stop then Some([])
    else
      match fetch(i)
      case IndexPanic => None
      case Fetched(item, id) =>
        match PageFrom(fetch, build, i + 1, stop)
        case None => None
        case Some(rest) => Some([build(item, id)] + rest)
  }

  /** The page for 0-based `start` and inclusive `end`, as `CollectFromModel` assembles it. */
  function Page(m: StationsModel, c: Context, parent: Option<string>, start: int, end: int): Option<seq<Item>> {
    PageFrom(FetchUnder(m, parent), BuildFor(c), start, TrueEnd(m, parent, end))
  }

  /** `prefix` in front of a page still to be collected; a panic stays a panic. */
  function Prepend(prefix: seq<Item>, rest: Option<seq<Item>>): Option<seq<Item>> {
    if rest.Some? then Some(prefix + rest.value) else None
  }

  lemma PrependNothing(rest: Option<seq<Item>>)
    ensures Prepend([], rest) == rest
  {
    if rest.Some? {
      assert [] + rest.value == rest.value;
    }
  }

  lemma PrependTwice(a: seq<Item>, b: seq<Item>, rest: Option<seq<Item>>)
    ensures Prepend(a, Prepend(b, rest)) == Prepend(a + b, rest)
  {
    if rest.Some? {
      assert a + (b + rest.value) == (a + b) + rest.value;
    }
  }

  /** One step of collecting: a panic ends the page; otherwise the built item comes first. */
  lemma PageFromStep(fetch: int -> Fetch, build: (Item, string) -> Item, i: int, stop: int)
    requires i < stop
    ensures fetch(i).IndexPanic? ==> PageFrom(fetch, build, i, stop).None?
    ensures fetch(i).Fetched? ==>
      PageFrom(fetch, build, i, stop) == Prepend([build(fetch(i).item, fetch(i).id)], PageFrom(fetch, build, i + 1, stop))
  {
  }

  /**
   * The loop of `CollectFromModel`: look up index `i`, build the item,
   * append it, for `i` from `start` up to `stop`. A panicking lookup ends
   * the loop with the panic.
   */
  method CollectPage(fetch: int -> Fetch, build: (Item, string) -> Item, start: int, stop: int)
    returns (ret: Option<seq<Item>>)
    ensures ret == PageFrom(fetch, build, start, stop)
  {
    ghost var page := PageFrom(fetch, build, start, stop);
    var items: seq<Item> := [];
    var i := start;
    PrependNothing(page);
    while i < stop
      invariant start <= i && (i <= stop || i == start)
      invariant page == Prepend(items, PageFrom(fetch, build, i, stop))
      decreases stop - i
    {
      var f := fetch(i);
      PageFromStep(fetch, build, i, stop);
      if f.IndexPanic? {
        return None;
      }
      var built := build(f.item, f.id);
      PrependTwice(items, [built], PageFrom(fetch, build, i + 1, stop));
      items := items + [built];
      i := i + 1;
    }
    assert items + [] == items;
    return Some(items);
  }

  /** A page is missing exactly when one of the lookups from `i` up to `stop` panics. */
  lemma {:induction false} PageFromPanics(fetch: int -> Fetch, build: (Item, string) -> Item, i: int, stop: int)
    ensures PageFrom(fetch, build, i, stop).None? <==> exists j :: i <= j < stop && fetch(j).IndexPanic?
    decreases stop - i
  {
    if i < stop {
      PageFromPanics(fetch, build, i + 1, stop);
      if fetch(i).IndexPanic? {
        assert i <= i < stop;
      }
    }
  }

  /** A page holds one item per index from `i` up to `stop`. */
  lemma {:induction false} PageFromLength(fetch: int -> Fetch, build: (Item, string) -> Item, i: int, stop: int)
    requires PageFrom(fetch, build, i, stop).Some?
    ensures |PageFrom(fetch, build, i, stop).value| == Max0(stop - i)
    decreases stop - i
  {
    if i < stop {
      PageFromLength(fetch, build, i + 1, stop);
    }
  }

  /** Item `k` of a page is the lookup of index `i + k`, built. */
  lemma {:induction false} PageFromItem(fetch: int -> Fetch, build: (Item, string) -> Item, i: int, stop: int, k: int)
    requires PageFrom(fetch, build, i, stop).Some?
    requires 0 <= k < |PageFrom(fetch, build, i, stop).value|
    ensures fetch(i + k).Fetched?
    ensures PageFrom(fetch, build, i, stop).value[k] == build(fetch(i + k).item, fetch(i + k).id)
    decreases stop - i
  {
    var f := fetch(i);
    var rest := PageFrom(fetch, build, i + 1, stop);
    assert f.Fetched? && rest.Some?;
    var page := PageFrom(fetch, build, i, stop).value;
    assert page == [build(f.item, f.id)] + rest.value;
    if k == 0 {
      assert page[0] == build(f.item, f.id);
    } else {
      PageFromItem(fetch, build, i + 1, stop, k - 1);
      assert page[k] == rest.value[k - 1];
      assert i + 1 + (k - 1) == i + k;
    }
  }

  /**
   * A page never reads past the parent's count, and only a negative start
   * at the root of the JSON catalog can make it panic; item `k` is the
   * lookup of index `start + k`.
   */
  lemma PageContents(m: StationsModel, c: Context, parent: Option<string>, start: int, end: int)
    requires start >= 0 || parent.Some? || m.NullStations?
    ensures var p := Page(m, c, parent, start, end);
      p.Some? && |p.value| == Max0(Min(end + 1, Count(m, parent)) - start)
      && forall k :: 0 <= k < |p.value| ==> p.value[k] == Build(Data(m, parent, start + k).item, c, Data(m, parent, start + k).id)
  {
    var fetch, build, stop := FetchUnder(m, parent), BuildFor(c), TrueEnd(m, parent, end);
    PageFromPanics(fetch, build, start, stop);
    forall j | start <= j < stop
      ensures fetch(j).Fetched?
    {
      assert fetch(j) == Data(m, parent, j);
    }
    var p := PageFrom(fetch, build, start, stop);
    PageFromLength(fetch, build, start, stop);
    forall k | 0 <= k < |p.value|
      ensures p.value[k] == Build(Data(m, parent, start + k).item, c, Data(m, parent, start + k).id)
    {
      PageFromItem(fetch, build, start, stop, k);
      assert fetch(start + k) == Data(m, parent, start + k);
      assert build(fetch(start + k).item, fetch(start + k).id) == Build(fetch(start + k).item, c, fetch(start + k).id);
    }
  }

  /** At the root of the JSON catalog a negative start panics whenever the page is not empty. */
  lemma NegativeRootStartPanics(m: StationsModel, c: Context, start: int, end: int)
    requires m.JsonStations? && start < 0 && start < TrueEnd(m, None, end)
    ensures Page(m, c, None, start, end).None?
  {
    var fetch := FetchUnder(m, None);
    PageFromPanics(fetch, BuildFor(c), start, TrueEnd(m, None, end));
    assert fetch(start) == Data(m, None, start);
  }
}
