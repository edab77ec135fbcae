/** The asset loop of one page: resolve each asset's description, apply the
    tradable filter, number the kept assets and append them to the item or
    currency list. */
module PageProcessing {
  import opened InventoryTypes
  import opened DescriptionLookup

  /** The accumulators one fetch threads through all of its pages. */
  datatype Accumulator = Accumulator(inventory: seq<Item>, currency: seq<Item>, pos: int)

  datatype PageState = PageState(table: Table, acc: Accumulator)

  /** The tradable filter: with `tradableOnly` an asset is kept only when its
      description exists and is tradable. */
  predicate Keep(tradableOnly: bool, d: Option<Description>) {
    !tradableOnly || (d.Some? && d.value.tradable)
  }

  /** Push a kept item onto the list its asset belongs to and advance the
      position counter. */
  function Append(acc: Accumulator, item: Item): Accumulator {
    if IsCurrency(item.asset) then acc.(currency := acc.currency + [item], pos := acc.pos + 1)
    else acc.(inventory := acc.inventory + [item], pos := acc.pos + 1)
  }

  /** The asset loop as a fold over the page's assets, in page order. */
  function ProcessAssets(tradableOnly: bool, contextid: string, descriptions: seq<Description>,
                         s: PageState, assets: seq<Asset>): PageState
    decreases |assets|
  {
    if assets == [] then s
    else
      var r := Lookup(s.table, descriptions, AssetKey(assets[0]));
      var acc := if Keep(tradableOnly, r.found)
                 then Append(s.acc, Item(assets[0], r.found, contextid, s.acc.pos))
                 else s.acc;
      ProcessAssets(tradableOnly, contextid, descriptions, PageState(r.table, acc), assets[1..])
  }

  // ---------------------------------------------------------------------------
  // Reference definition: resolve, then filter, then number, then split.

  /** The description each asset of the page resolves to, in page order. */
  function ResolveAll(table: Table, descriptions: seq<Description>, assets: seq<Asset>): (ds: seq<Option<Description>>)
    ensures |ds| == |assets|
    decreases |assets|
  {
    if assets == [] then []
    else
      var r := Lookup(table, descriptions, AssetKey(assets[0]));
      [r.found] + ResolveAll(r.table, descriptions, assets[1..])
  }

  /** The assets the tradable filter keeps, with their descriptions, in order. */
  function KeptAssets(tradableOnly: bool, assets: seq<Asset>, ds: seq<Option<Description>>): seq<(Asset, Option<Description>)>
    requires |ds| == |assets|
    decreases |assets|
  {
    if assets == [] then []
    else
      (if Keep(tradableOnly, ds[0]) then [(assets[0], ds[0])] else [])
      + KeptAssets(tradableOnly, assets[1..], ds[1..])
  }

  /** Consecutive positions from `pos` on, one per kept asset. */
  function Numbered(kept: seq<(Asset, Option<Description>)>, contextid: string, pos: int): seq<Item> {
    seq(|kept|, i requires 0 <= i < |kept| => Item(kept[i].0, kept[i].1, contextid, pos + i))
  }

  /** The items that are (or are not) currencies, in order. */
  function OfKind(items: seq<Item>, currency: bool): seq<Item>
    decreases |items|
  {
    if items == [] then []
    else (if IsCurrency(items[0].asset) == currency then [items[0]] else []) + OfKind(items[1..], currency)
  }

  lemma NumberedCons(p: (Asset, Option<Description>), rest: seq<(Asset, Option<Description>)>, contextid: string, pos: int)
    ensures Numbered([p] + rest, contextid, pos) == [Item(p.0, p.1, contextid, pos)] + Numbered(rest, contextid, pos + 1)
  {
  }

  lemma OfKindCons(x: Item, rest: seq<Item>, currency: bool)
    ensures OfKind([x] + rest, currency) == (if IsCurrency(x.asset) == currency then [x] else []) + OfKind(rest, currency)
  {
    assert ([x] + rest)[1..] == rest;
  }

  /** The asset loop appends to `inventory` exactly the kept non-currency
      assets and to `currency` exactly the kept currency assets, both in page
      order, numbered consecutively from the counter; dropped assets use no
      position. */
  lemma {:induction false} ProcessMatchesReference(tradableOnly: bool, contextid: string, descriptions: seq<Description>,
                                                   s: PageState, assets: seq<Asset>)
    ensures var r := ProcessAssets(tradableOnly, contextid, descriptions, s, assets);
      var kept := Numbered(KeptAssets(tradableOnly, assets, ResolveAll(s.table, descriptions, assets)), contextid, s.acc.pos);
      && r.acc.inventory == s.acc.inventory + OfKind(kept, false)
      && r.acc.currency == s.acc.currency + OfKind(kept, true)
      && r.acc.pos == s.acc.pos + |kept|
    decreases |assets|
  {
    if assets != [] {
      var a := assets[0];
      var l := Lookup(s.table, descriptions, AssetKey(a));
      var item := Item(a, l.found, contextid, s.acc.pos);
      var acc1 := if Keep(tradableOnly, l.found) then Append(s.acc, item) else s.acc;
      var s1 := PageState(l.table, acc1);
      assert ProcessAssets(tradableOnly, contextid, descriptions, s, assets)
          == ProcessAssets(tradableOnly, contextid, descriptions, s1, assets[1..]);
      ProcessMatchesReference(tradableOnly, contextid, descriptions, s1, assets[1..]);
      var ds := ResolveAll(s.table, descriptions, assets);
      var ds1 := ResolveAll(l.table, descriptions, assets[1..]);
      assert ds == [l.found] + ds1;
      assert ds[0] == l.found && ds[1..] == ds1;
      var k1 := KeptAssets(tradableOnly, assets[1..], ds1);
      if Keep(tradableOnly, l.found) {
        assert KeptAssets(tradableOnly, assets, ds) == [(a, l.found)] + k1;
        NumberedCons((a, l.found), k1, contextid, s.acc.pos);
        KeptStep(s.acc, item, Numbered(k1, contextid, s.acc.pos + 1));
      } else {
        assert KeptAssets(tradableOnly, assets, ds) == k1;
      }
    }
  }

  /** Appending a kept item and then the rest equals appending the split of
      the item followed by the rest. */
  lemma KeptStep(acc: Accumulator, item: Item, rest: seq<Item>)
    ensures var acc1 := Append(acc, item);
      && acc1.inventory + OfKind(rest, false) == acc.inventory + OfKind([item] + rest, false)
      && acc1.currency + OfKind(rest, true) == acc.currency + OfKind([item] + rest, true)
      && acc1.pos + |rest| == acc.pos + |[item] + rest|
  {
    OfKindCons(item, rest, false);
    OfKindCons(item, rest, true);
    if IsCurrency(item.asset) {
      assert OfKind([item] + rest, false) == OfKind(rest, false);
      assert acc.currency + [item] + OfKind(rest, true) == acc.currency + ([item] + OfKind(rest, true));
    } else {
      assert OfKind([item] + rest, true) == OfKind(rest, true);
      assert acc.inventory + [item] + OfKind(rest, false) == acc.inventory + ([item] + OfKind(rest, false));
    }
  }

  // ---------------------------------------------------------------------------
  // Which descriptions the assets of one page receive.

  /** Within one page the index is either the one the page started with or
      that one merged with the page. */
  lemma LookupStaysInTwoStates(m: Table, descriptions: seq<Description>, c: Table, key: string)
    requires c == m || c == Merge(m, descriptions)
    ensures var t := Lookup(c, descriptions, key).table; t == m || t == Merge(m, descriptions)
  {
    if c == Merge(m, descriptions) {
      MergeIdempotent(m, descriptions);
    }
  }

  lemma {:induction false} PageIndexStates(tradableOnly: bool, contextid: string, descriptions: seq<Description>,
                                           m: Table, s: PageState, assets: seq<Asset>)
    requires s.table == m || s.table == Merge(m, descriptions)
    ensures var t := ProcessAssets(tradableOnly, contextid, descriptions, s, assets).table;
      t == m || t == Merge(m, descriptions)
    decreases |assets|
  {
    if assets != [] {
      var r := Lookup(s.table, descriptions, AssetKey(assets[0]));
      LookupStaysInTwoStates(m, descriptions, s.table, AssetKey(assets[0]));
      var acc := if Keep(tradableOnly, r.found)
                 then Append(s.acc, Item(assets[0], r.found, contextid, s.acc.pos))
                 else s.acc;
      PageIndexStates(tradableOnly, contextid, descriptions, m, PageState(r.table, acc), assets[1..]);
    }
  }

  /** Each asset receives either what the starting index held for its key or
      what the merged index holds; an asset whose key the starting index
      lacks receives the page's last description for that key (or none). */
  lemma {:induction false} ResolvedDescription(m: Table, descriptions: seq<Description>, c: Table, assets: seq<Asset>, i: int)
    requires c == m || c == Merge(m, descriptions)
    requires 0 <= i < |assets|
    ensures var d := ResolveAll(c, descriptions, assets)[i];
      var k := AssetKey(assets[i]);
      && (k !in m ==> d == PageValue(descriptions, k))
      && (d == Get(m, k) || d == Get(Merge(m, descriptions), k))
    decreases |assets|
  {
    var k0 := AssetKey(assets[0]);
    var r := Lookup(c, descriptions, k0);
    if i == 0 {
      MergeGet(m, descriptions, k0);
      if c != m {
        MergeIdempotent(m, descriptions);
      }
    } else {
      LookupStaysInTwoStates(m, descriptions, c, k0);
      ResolvedDescription(m, descriptions, r.table, assets[1..], i - 1);
      assert ResolveAll(c, descriptions, assets)[i] == ResolveAll(r.table, descriptions, assets[1..])[i - 1];
    }
  }

  /** On the first page (an empty index) every asset receives exactly the
      page's last description with its key, or none. */
  lemma FirstPageResolution(descriptions: seq<Description>, assets: seq<Asset>, i: int)
    requires 0 <= i < |assets|
    ensures ResolveAll(map[], descriptions, assets)[i] == PageValue(descriptions, AssetKey(assets[i]))
  {
    ResolvedDescription(map[], descriptions, map[], assets, i);
  }

  // ---------------------------------------------------------------------------
  // The invariant the accumulators keep across pages.

  function Positions(items: seq<Item>): seq<int> {
    seq(|items|, i requires 0 <= i < |items| => items[i].pos)
  }

  /** The integers lo, lo + 1, ..., hi - 1. */
  function Range(lo: int, hi: int): seq<int>
    requires lo <= hi
  {
    seq(hi - lo, i requires 0 <= i < hi - lo => lo + i)
  }

  ghost predicate Increasing(s: seq<int>) {
    forall i, j :: 0 <= i < j < |s| ==> s[i] < s[j]
  }

  /** A kept item in the list of its kind, below the counter. */
  predicate Fits(tradableOnly: bool, contextid: string, currency: bool, bound: int, item: Item) {
    && IsCurrency(item.asset) == currency
    && item.contextid == contextid
    && Keep(tradableOnly, item.description)
    && item.pos < bound
  }

  /** What the accumulators promise: every item passed the filter and sits in
      the list of its kind; each list is in increasing position order; and
      the positions of both lists together are exactly 1, 2, ..., pos - 1. */
  ghost predicate WellFormed(tradableOnly: bool, contextid: string, acc: Accumulator) {
    && acc.pos == 1 + |acc.inventory| + |acc.currency|
    && (forall i :: 0 <= i < |acc.inventory| ==> Fits(tradableOnly, contextid, false, acc.pos, acc.inventory[i]))
    && (forall i :: 0 <= i < |acc.currency| ==> Fits(tradableOnly, contextid, true, acc.pos, acc.currency[i]))
    && Increasing(Positions(acc.inventory))
    && Increasing(Positions(acc.currency))
    && multiset(Positions(acc.inventory)) + multiset(Positions(acc.currency)) == multiset(Range(1, acc.pos))
  }

  /** A fetch starts from empty lists and position 1. */
  lemma InitialWellFormed(tradableOnly: bool, contextid: string)
    ensures WellFormed(tradableOnly, contextid, Accumulator([], [], 1))
  {
    assert Range(1, 1) == [];
  }

  lemma AppendPositions(items: seq<Item>, x: Item)
    ensures Positions(items + [x]) == Positions(items) + [x.pos]
  {
  }

  lemma RangeSnoc(lo: int, hi: int)
    requires lo <= hi
    ensures Range(lo, hi + 1) == Range(lo, hi) + [hi]
  {
  }

  /** Appending a value above every element keeps a sequence increasing. */
  lemma SnocIncreasing(s: seq<int>, x: int)
    requires Increasing(s)
    requires forall i :: 0 <= i < |s| ==> s[i] < x
    ensures Increasing(s + [x])
  {
    forall i, j | 0 <= i < j < |s| + 1 ensures (s + [x])[i] < (s + [x])[j] {
      if j == |s| {
        assert (s + [x])[i] == s[i];
      } else {
        assert (s + [x])[i] == s[i] && (s + [x])[j] == s[j];
      }
    }
  }

  /** One list of an accumulator after appending the next item to it: every
      member still fits under the raised counter and the positions still increase. */
  lemma SnocList(tradableOnly: bool, contextid: string, currency: bool, pos: int, items: seq<Item>, item: Item)
    requires forall i :: 0 <= i < |items| ==> Fits(tradableOnly, contextid, currency, pos, items[i])
    requires Increasing(Positions(items))
    requires item.pos == pos && Fits(tradableOnly, contextid, currency, pos + 1, item)
    ensures forall i :: 0 <= i < |items + [item]| ==> Fits(tradableOnly, contextid, currency, pos + 1, (items + [item])[i])
    ensures Increasing(Positions(items + [item]))
    ensures multiset(Positions(items + [item])) == multiset(Positions(items)) + multiset{pos}
  {
    AppendPositions(items, item);
    SnocIncreasing(Positions(items), pos);
  }

  /** The other list under a raised counter. */
  lemma RaiseBound(tradableOnly: bool, contextid: string, currency: bool, pos: int, items: seq<Item>)
    requires forall i :: 0 <= i < |items| ==> Fits(tradableOnly, contextid, currency, pos, items[i])
    ensures forall i :: 0 <= i < |items| ==> Fits(tradableOnly, contextid, currency, pos + 1, items[i])
  {
  }

  lemma AppendWellFormed(tradableOnly: bool, contextid: string, acc: Accumulator, item: Item)
    requires WellFormed(tradableOnly, contextid, acc)
    requires item.pos == acc.pos && item.contextid == contextid && Keep(tradableOnly, item.description)
    ensures WellFormed(tradableOnly, contextid, Append(acc, item))
  {
    var acc' := Append(acc, item);
    RangeSnoc(1, acc.pos);
    assert multiset(Range(1, acc'.pos)) == multiset(Range(1, acc.pos)) + multiset{acc.pos};
    if IsCurrency(item.asset) {
      assert acc' == Accumulator(acc.inventory, acc.currency + [item], acc.pos + 1);
      SnocList(tradableOnly, contextid, true, acc.pos, acc.currency, item);
      RaiseBound(tradableOnly, contextid, false, acc.pos, acc.inventory);
    } else {
      assert acc' == Accumulator(acc.inventory + [item], acc.currency, acc.pos + 1);
      SnocList(tradableOnly, contextid, false, acc.pos, acc.inventory, item);
      RaiseBound(tradableOnly, contextid, true, acc.pos, acc.currency);
    }
  }

  /** The asset loop keeps the accumulator invariant. */
  lemma {:induction false} ProcessKeepsWellFormed(tradableOnly: bool, contextid: string, descriptions: seq<Description>,
                                                  s: PageState, assets: seq<Asset>)
    requires WellFormed(tradableOnly, contextid, s.acc)
    ensures WellFormed(tradableOnly, contextid, ProcessAssets(tradableOnly, contextid, descriptions, s, assets).acc)
    decreases |assets|
  {
    if assets != [] {
      var r := Lookup(s.table, descriptions, AssetKey(assets[0]));
      var item := Item(assets[0], r.found, contextid, s.acc.pos);
      if Keep(tradableOnly, r.found) {
        AppendWellFormed(tradableOnly, contextid, s.acc, item);
      }
      var acc := if Keep(tradableOnly, r.found) then Append(s.acc, item) else s.acc;
      ProcessKeepsWellFormed(tradableOnly, contextid, descriptions, PageState(r.table, acc), assets[1..]);
    }
  }

  // ---------------------------------------------------------------------------
  // The loop itself.

  /** The `for (let item in res.assets)` loop of one page. */
  method ProcessPage(cache: DescriptionCache, descriptions: seq<Description>, assets: seq<Asset>,
                     tradableOnly: bool, contextid: string, acc: Accumulator)
    returns (acc': Accumulator)
    modifies cache
    ensures PageState(cache.table, acc')
         == ProcessAssets(tradableOnly, contextid, descriptions, PageState(old(cache.table), acc), assets)
  {
    var inventory, currency, pos := acc.inventory, acc.currency, acc.pos;
    var i := 0;
    while i < |assets|
      invariant 0 <= i <= |assets|
      invariant ProcessAssets(tradableOnly, contextid, descriptions,
                              PageState(cache.table, Accumulator(inventory, currency, pos)), assets[i..])
             == ProcessAssets(tradableOnly, contextid, descriptions, PageState(old(cache.table), acc), assets)
    {
      var asset := assets[i];
      assert assets[i..][0] == asset && assets[i..][1..] == assets[i + 1..];
      var description := cache.GetDescription(descriptions, asset.classid, asset.instanceid);
      if !tradableOnly || (description.Some? && description.value.tradable) {
        var item := Item(asset, description, contextid, pos);
        pos := pos + 1;
        if IsCurrency(asset) {
          currency := currency + [item];
        } else {
          inventory := inventory + [item];
        }
      }
      i := i + 1;
    }
    acc' := Accumulator(inventory, currency, pos);
  }
}
