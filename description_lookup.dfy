/** The lazily filled description index of one inventory fetch
    (`quickDescriptionLookup` and `getDescription`). */
module DescriptionLookup {
  import opened InventoryTypes

  type Table = map<string, Description>

  /** The instance part of a lookup key: a falsy instanceid counts as "0". */
  function InstancePart(instanceid: Option<string>): string {
    if Truthy(instanceid) then instanceid.value else "0"
  }

  /** The lookup key `classid + "_" + (instanceid || "0")`. */
  function Key(classid: string, instanceid: Option<string>): string {
    classid + "_" + InstancePart(instanceid)
  }

  function DescKey(d: Description): string {
    Key(d.classid, d.instanceid)
  }

  function AssetKey(a: Asset): string {
    Key(a.classid, a.instanceid)
  }

  /** A missing instanceid, an empty one and "0" give the same key. */
  lemma MissingInstanceIsZero(classid: string)
    ensures Key(classid, None) == Key(classid, Some("0")) == Key(classid, Some(""))
    ensures Key(classid, None) == classid + "_0"
  {
  }

  /** For classids without an underscore (the platform's classids are decimal
      digits), two keys are equal exactly when the classids are equal and the
      normalised instance parts are equal. */
  lemma KeyInjective(c1: string, i1: Option<string>, c2: string, i2: Option<string>)
    requires '_' !in c1 && '_' !in c2
    ensures Key(c1, i1) == Key(c2, i2) <==> c1 == c2 && InstancePart(i1) == InstancePart(i2)
  {
    var k1, k2 := Key(c1, i1), Key(c2, i2);
    if k1 == k2 {
      KeySeparator(c1, InstancePart(i1));
      KeySeparator(c2, InstancePart(i2));
      assert |c1| == |c2|;
      assert c1 == k1[..|c1|] && c2 == k2[..|c2|];
      assert InstancePart(i1) == k1[|c1| + 1..] && InstancePart(i2) == k2[|c2| + 1..];
    }
  }

  /** In `c + "_" + x` with no underscore in `c`, the first underscore sits at |c|. */
  lemma KeySeparator(c: string, x: string)
    requires '_' !in c
    ensures (c + "_" + x)[|c|] == '_'
    ensures forall i :: 0 <= i < |c| ==> (c + "_" + x)[i] != '_'
  {
    forall i | 0 <= i < |c| ensures (c + "_" + x)[i] != '_' {
      assert (c + "_" + x)[i] == c[i];
    }
  }

  /** Without that restriction keys can collide. */
  lemma KeyCollidesWithUnderscore()
    ensures Key("1_2", Some("3")) == Key("1", Some("2_3"))
  {
  }

  /** The index after storing every description of a page in order under its
      key; a later description overwrites an earlier one with the same key. */
  function Merge(table: Table, page: seq<Description>): Table
    decreases |page|
  {
    if page == [] then table
    else
      var last := page[|page| - 1];
      Merge(table, page[..|page| - 1])[DescKey(last) := last]
  }

  /** The last description on the page with key `k`, if any. */
  function PageValue(page: seq<Description>, k: string): Option<Description>
    decreases |page|
  {
    if page == [] then None
    else if DescKey(page[|page| - 1]) == k then Some(page[|page| - 1])
    else PageValue(page[..|page| - 1], k)
  }

  function Get(table: Table, k: string): Option<Description> {
    if k in table then Some(table[k]) else None
  }

  /** PageValue is "last writer wins": it is absent exactly when no
      description on the page has the key. */
  lemma {:induction false} PageValueAbsent(page: seq<Description>, k: string)
    ensures PageValue(page, k).None? <==> forall j :: 0 <= j < |page| ==> DescKey(page[j]) != k
  {
    if page != [] {
      PageValueAbsent(page[..|page| - 1], k);
      assert forall j :: 0 <= j < |page| - 1 ==> page[..|page| - 1][j] == page[j];
    }
  }

  /** ... and when present it is the description at the last index with the key. */
  lemma {:induction false} PageValueLast(page: seq<Description>, k: string, j: int)
    requires 0 <= j < |page| && DescKey(page[j]) == k
    requires forall j' :: j < j' < |page| ==> DescKey(page[j']) != k
    ensures PageValue(page, k) == Some(page[j])
  {
    if j < |page| - 1 {
      var front := page[..|page| - 1];
      assert front[j] == page[j];
      assert forall j' :: j < j' < |front| ==> front[j'] == page[j'];
      PageValueLast(front, k, j);
    }
  }

  /** After a merge, a key on the page holds that page's last description
      for it; every other key keeps what it had (present or absent). */
  lemma {:induction false} MergeGet(table: Table, page: seq<Description>, k: string)
    ensures Get(Merge(table, page), k) == if PageValue(page, k).Some? then PageValue(page, k) else Get(table, k)
  {
    if page != [] {
      MergeGet(table, page[..|page| - 1], k);
    }
  }

  /** Merging the same page twice changes nothing the first merge did not. */
  lemma MergeIdempotent(table: Table, page: seq<Description>)
    ensures Merge(Merge(table, page), page) == Merge(table, page)
  {
    var once := Merge(table, page);
    var twice := Merge(once, page);
    forall k
      ensures (k in twice <==> k in once) && (k in once ==> twice[k] == once[k])
    {
      MergeGet(table, page, k);
      MergeGet(once, page, k);
    }
  }

  /** The outcome of one `getDescription` call: the new index and the
      description returned. */
  datatype LookupResult = LookupResult(table: Table, found: Option<Description>)

  /** A hit returns the cached description; a miss merges the whole page and
      then reads the key. */
  function Lookup(table: Table, page: seq<Description>, key: string): LookupResult {
    if key in table then LookupResult(table, Some(table[key]))
    else
      var merged := Merge(table, page);
      LookupResult(merged, Get(merged, key))
  }

  /** A hit returns the cached description and leaves the index unchanged. */
  lemma LookupHit(table: Table, page: seq<Description>, key: string)
    requires key in table
    ensures Lookup(table, page, key) == LookupResult(table, Some(table[key]))
  {
  }

  /** A miss stores every description on the page under its key (last
      duplicate wins), leaves keys not on the page untouched, and returns the
      page's description for the key, which may be absent. */
  lemma LookupMiss(table: Table, page: seq<Description>, key: string)
    requires key !in table
    ensures var r := Lookup(table, page, key);
      && r.found == PageValue(page, key)
      && (forall k :: PageValue(page, k).Some? ==> Get(r.table, k) == PageValue(page, k))
      && (forall k :: PageValue(page, k).None? ==> Get(r.table, k) == Get(table, k))
  {
    forall k ensures Get(Merge(table, page), k) == if PageValue(page, k).Some? then PageValue(page, k) else Get(table, k) {
      MergeGet(table, page, k);
    }
  }

  /** The index only grows: a lookup never removes a key. */
  lemma LookupGrows(table: Table, page: seq<Description>, key: string)
    ensures table.Keys <= Lookup(table, page, key).table.Keys
  {
    forall k | k in table ensures k in Lookup(table, page, key).table {
      MergeGet(table, page, k);
    }
  }

  /** Resolving the same key twice gives the same description and the same
      index; when the first call found one, the second is a cache hit. */
  lemma LookupTwice(table: Table, page: seq<Description>, key: string)
    ensures var r1 := Lookup(table, page, key);
      && (r1.found.Some? ==> key in r1.table)
      && Lookup(r1.table, page, key) == r1
  {
    if key !in table {
      MergeIdempotent(table, page);
    }
  }

  /** Two assets of the same class that both lack an instanceid resolve to the
      same description, one after the other. */
  lemma SameClassNoInstance(table: Table, page: seq<Description>, a: Asset, b: Asset)
    requires a.classid == b.classid && !Truthy(a.instanceid) && !Truthy(b.instanceid)
    ensures var r1 := Lookup(table, page, AssetKey(a));
      Lookup(r1.table, page, AssetKey(b)).found == r1.found
  {
    LookupTwice(table, page, AssetKey(a));
  }

  /** The index overwrites: a miss on another key replaces an entry that was
      already present when the page carries a different description for it. */
  lemma MissOverwritesPresentKey(old1: Description, new1: Description, other: Description)
    requires DescKey(old1) == DescKey(new1) && old1 != new1
    requires DescKey(other) != DescKey(old1)
    ensures var r := Lookup(map[DescKey(old1) := old1], [new1, other], DescKey(other));
      DescKey(old1) in r.table && r.table[DescKey(old1)] == new1 && r.found == Some(other)
  {
    var table := map[DescKey(old1) := old1];
    var page := [new1, other];
    assert DescKey(other) !in table;
    assert page[..1] == [new1] && [new1][..0] == [];
    assert Merge(table, [new1]) == table[DescKey(new1) := new1];
    assert Merge(table, page) == table[DescKey(new1) := new1][DescKey(other) := other];
    assert Lookup(table, page, DescKey(other)).table == Merge(table, page);
  }

  /** The `quickDescriptionLookup` dictionary of one fetch. */
  class DescriptionCache {
    var table: Table

    constructor ()
      ensures table == map[]
    {
      table := map[];
    }

    /** `getDescription`: on a miss the whole page is merged in, one
        description at a time. */
    method GetDescription(descriptions: seq<Description>, classid: string, instanceid: Option<string>)
      returns (description: Option<Description>)
      modifies this
      ensures var r := Lookup(old(table), descriptions, Key(classid, instanceid));
        table == r.table && description == r.found
    {
      var key := Key(classid, instanceid);
      if key in table {
        return Some(table[key]);
      }
      var i := 0;
      while i < |descriptions|
        invariant 0 <= i <= |descriptions|
        invariant table == Merge(old(table), descriptions[..i])
      {
        var d := descriptions[i];
        assert descriptions[..i + 1][..i] == descriptions[..i];
        table := table[DescKey(d) := d];
        i := i + 1;
      }
      assert descriptions[..i] == descriptions;
      description := if key in table then Some(table[key]) else None;
    }
  }
}
