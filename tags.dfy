/**
 * `load_tag_filters` and `tagset_hash`: the tag configuration, already
 * parsed from YAML into its list of `{key, values}` entries, becomes the
 * sorted list of distinct Overpass tag filters, and the filter list is
 * hashed through its `|`-joined text.
 */
module Tags {
  import opened Basics
  import opened Text
  import opened Sorting

  /** One entry of the `tags` list: `entry.get('key')` and `entry.get('values')`. */
  datatype TagEntry = TagEntry(key: Option<string>, values: Option<seq<string>>)

  /** `if key`: present and not the empty string. */
  predicate KeyGiven(e: TagEntry)
  {
    e.key.Some? && |e.key.value| > 0
  }

  /** `if values`: present and not the empty list. */
  predicate ValuesGiven(e: TagEntry)
  {
    e.values.Some? && |e.values.value| > 0
  }

  /** `f'["{key}"="{v}"]'`. */
  function ValueFilter(key: string, v: string): string
  {
    "[\"" + key + "\"=\"" + v + "\"]"
  }

  /** `f'["{key}"]'`. */
  function KeyFilter(key: string): string
  {
    "[\"" + key + "\"]"
  }

  /** The filters one entry appends, in order. */
  function Expand(e: TagEntry): seq<string>
  {
    if KeyGiven(e) && ValuesGiven(e) then MapSeq((v: string) => ValueFilter(e.key.value, v), e.values.value)
    else if KeyGiven(e) then [KeyFilter(e.key.value)]
    else []
  }

  /** The `filters` list before deduplication: every entry's expansion, in entry order. */
  function Emitted(entries: seq<TagEntry>): seq<string>
  {
    if |entries| == 0 then [] else Emitted(entries[..|entries| - 1]) + Expand(entries[|entries| - 1])
  }

  /** `sorted(set(filters))`. */
  function TagFilters(entries: seq<TagEntry>): seq<string>
  {
    Sort(Dedup(Emitted(entries)), LexLe)
  }

  /** `load_tag_filters` after the YAML load. */
  method LoadTagFilters(entries: seq<TagEntry>) returns (filters: seq<string>)
    ensures filters == TagFilters(entries)
  {
    filters := [];
    var i := 0;
    while i < |entries|
      invariant i <= |entries|
      invariant filters == Emitted(entries[..i])
    {
      var entry := entries[i];
      var key := entry.key;
      var values := entry.values;
      if KeyGiven(entry) && ValuesGiven(entry) {
        var j := 0;
        ghost var before := filters;
        while j < |values.value|
          invariant j <= |values.value|
          invariant filters == before + MapSeq((v: string) => ValueFilter(key.value, v), values.value[..j])
        {
          assert values.value[..j + 1] == values.value[..j] + [values.value[j]];
          filters := filters + [ValueFilter(key.value, values.value[j])];
          j := j + 1;
        }
        assert values.value[..j] == values.value;
      } else if KeyGiven(entry) {
        filters := filters + [KeyFilter(key.value)];
      }
      assert entries[..i + 1][..i] == entries[..i];
      i := i + 1;
    }
    assert entries[..i] == entries;
    filters := Sort(Dedup(filters), LexLe);
  }

  /** `tagset_hash`: the hash of the `|`-joined list. */
  function TagsetHash(hash: string -> string, filters: seq<string>): string
  {
    hash(Join("|", filters))
  }

  // Properties

  /**
   * What an entry emits: one value filter per listed value when it has a
   * key and values, a bare key filter when it has a key but no values, and
   * nothing without a key.
   */
  lemma ExpandIff(e: TagEntry, f: string)
    ensures f in Expand(e) <==>
              || (KeyGiven(e) && ValuesGiven(e) && exists v :: v in e.values.value && f == ValueFilter(e.key.value, v))
              || (KeyGiven(e) && !ValuesGiven(e) && f == KeyFilter(e.key.value))
  {
    if KeyGiven(e) && ValuesGiven(e) {
      var vs := e.values.value;
      var fs := Expand(e);
      if f in fs {
        var i :| 0 <= i < |fs| && fs[i] == f;
        assert vs[i] in vs;
      }
      if v :| v in vs && f == ValueFilter(e.key.value, v) {
        var i :| 0 <= i < |vs| && vs[i] == v;
        assert fs[i] == f;
      }
    }
  }

  /** The emitted filters are the union of the entries' expansions. */
  lemma {:induction false} EmittedIff(entries: seq<TagEntry>, f: string)
    ensures f in Emitted(entries) <==> exists i :: 0 <= i < |entries| && f in Expand(entries[i])
  {
    if |entries| > 0 {
      var n := |entries| - 1;
      var init := entries[..n];
      EmittedIff(init, f);
      if f in Emitted(init) {
        var i :| 0 <= i < |init| && f in Expand(init[i]);
        assert entries[i] == init[i];
      }
      if i :| 0 <= i < |entries| && f in Expand(entries[i]) {
        if i < n {
          assert init[i] == entries[i];
        }
      }
    }
  }

  /** The result is strictly increasing: sorted, with no filter twice. */
  lemma TagFiltersStrictlySorted(entries: seq<TagEntry>)
    ensures StrictlySortedBy(TagFilters(entries), LexLt)
  {
    var d := Dedup(Emitted(entries));
    var r := TagFilters(entries);
    LexLeTotalPreorder();
    SortSorted(d, LexLe);
    PermutationNoDup(r, d);
  }

  /** The result holds exactly the emitted filters. */
  lemma TagFiltersElements(entries: seq<TagEntry>)
    ensures Elements(TagFilters(entries)) == Elements(Emitted(entries))
  {
    var d := Dedup(Emitted(entries));
    var r := TagFilters(entries);
    forall f ensures f in Elements(r) <==> f in Elements(d) {
      assert f in Elements(r) <==> f in multiset(r);
      assert f in Elements(d) <==> f in multiset(d);
    }
  }

  /** A filter is in the result exactly when some entry emits it. */
  lemma TagFiltersIff(entries: seq<TagEntry>, f: string)
    ensures f in TagFilters(entries) <==> exists i :: 0 <= i < |entries| && f in Expand(entries[i])
  {
    TagFiltersElements(entries);
    EmittedIff(entries, f);
  }

  /**
   * The result depends only on the set of emitted filters, so reordering
   * or repeating entries does not change it.
   */
  lemma TagFiltersBySet(a: seq<TagEntry>, b: seq<TagEntry>)
    requires Elements(Emitted(a)) == Elements(Emitted(b))
    ensures TagFilters(a) == TagFilters(b)
  {
    TagFiltersStrictlySorted(a);
    TagFiltersStrictlySorted(b);
    TagFiltersElements(a);
    TagFiltersElements(b);
    LexLtAsymmetric();
    StrictlySortedUnique(TagFilters(a), TagFilters(b), LexLt);
  }

  /**
   * `tagset_hash(load_tag_filters(...))` depends only on the set of filters
   * the configuration emits: not on entry order, repeats or key-less entries.
   */
  lemma TagsetHashBySet(hash: string -> string, a: seq<TagEntry>, b: seq<TagEntry>)
    requires Elements(Emitted(a)) == Elements(Emitted(b))
    ensures TagsetHash(hash, TagFilters(a)) == TagsetHash(hash, TagFilters(b))
  {
    TagFiltersBySet(a, b);
  }

  /** Entries in another order give the same filters. */
  lemma TagFiltersPermutation(a: seq<TagEntry>, b: seq<TagEntry>)
    requires multiset(a) == multiset(b)
    ensures TagFilters(a) == TagFilters(b)
  {
    forall f ensures f in Elements(Emitted(a)) <==> f in Elements(Emitted(b)) {
      EmittedIff(a, f);
      EmittedIff(b, f);
      if i :| 0 <= i < |a| && f in Expand(a[i]) {
        assert a[i] in multiset(b);
        var j :| 0 <= j < |b| && b[j] == a[i];
      }
      if j :| 0 <= j < |b| && f in Expand(b[j]) {
        assert b[j] in multiset(a);
        var i :| 0 <= i < |a| && a[i] == b[j];
      }
    }
    TagFiltersBySet(a, b);
  }

  /** Repeating an entry already in the list changes nothing, and neither does an entry without a key. */
  lemma TagFiltersExtraEntry(entries: seq<TagEntry>, e: TagEntry)
    requires e in entries || !KeyGiven(e)
    ensures TagFilters(entries + [e]) == TagFilters(entries)
  {
    var s := entries + [e];
    assert s[..|s| - 1] == entries;
    forall f ensures f in Elements(Emitted(s)) <==> f in Elements(Emitted(entries)) {
      EmittedIff(entries, f);
      if f in Expand(e) {
        var i :| 0 <= i < |entries| && entries[i] == e;
      }
    }
    TagFiltersBySet(s, entries);
  }

  /** An entry with a key and one value emits exactly that one value filter. */
  lemma {:induction false} SingleValueEntry(key: string, v: string)
    requires |key| > 0
    ensures TagFilters([TagEntry(Some(key), Some([v]))]) == [ValueFilter(key, v)]
  {
    var e := TagEntry(Some(key), Some([v]));
    assert [e][..0] == [];
    assert Emitted([e]) == [ValueFilter(key, v)];
    var f := ValueFilter(key, v);
    TagFiltersStrictlySorted([e]);
    TagFiltersElements([e]);
    LexLtAsymmetric();
    StrictlySortedUnique(TagFilters([e]), [f], LexLt);
  }

  /**
   * `[{amenity, [cafe]}]` and the same entry twice give the one filter
   * `["amenity"="cafe"]` and the same hash.
   */
  lemma DuplicateEntryScenario(hash: string -> string)
    ensures var e := TagEntry(Some("amenity"), Some(["cafe"]));
            && TagFilters([e]) == TagFilters([e, e]) == [ValueFilter("amenity", "cafe")]
            && TagsetHash(hash, TagFilters([e])) == TagsetHash(hash, TagFilters([e, e]))
  {
    var e := TagEntry(Some("amenity"), Some(["cafe"]));
    assert [e] + [e] == [e, e];
    TagFiltersExtraEntry([e], e);
    SingleValueEntry("amenity", "cafe");
  }
}
