/**
 * The POI extractor: the Overpass query `get_pois` and
 * `get_pois_with_detailed_categories` send, the rows they build from the
 * elements of the reply, and `map_to_detailed_category`, the fixed rule
 * chain that names the category of a tag set.
 */
module Extractor {
  import opened Basics
  import opened Text
  import opened Sorting
  import opened Osm

  /** OSM tags of one element. */
  type Tags = map<string, string>

  /** `tags.get(k)`. */
  function Get(tags: Tags, k: string): Option<string>
  {
    if k in tags then Some(tags[k]) else None
  }

  /** `tags.get(k) in [..vs..]`: `None` is in no list of strings. */
  predicate OneOf(tags: Tags, k: string, vs: set<string>)
  {
    k in tags && tags[k] in vs
  }

  /** `if tags.get(k):`: present and not the empty string. */
  predicate Truthy(tags: Tags, k: string)
  {
    k in tags && tags[k] != ""
  }

  /** `map_to_detailed_category`: the first rule that matches names the category. */
  function DetailedCategory(tags: Tags): string
  {
    if Get(tags, "amenity") == Some("school") && OneOf(tags, "school:type", {"public", "state"}) then "Public Schools"
    else if Get(tags, "amenity") == Some("school") && !OneOf(tags, "school:type", {"private", "religious"}) then "Public Schools"
    else if OneOf(tags, "public_transport", {"station", "stop_position", "platform"}) then "Public Transit Lines"
    else if OneOf(tags, "route", {"subway", "bus", "tram", "light_rail"}) then "Public Transit Lines"
    else if Get(tags, "highway") == Some("bus_stop") then "Public Transit Lines"
    else if OneOf(tags, "leisure", {"park", "recreation_ground", "playground", "garden"}) then "Parks and Recreational Areas"
    else if Get(tags, "landuse") == Some("recreation_ground") then "Parks and Recreational Areas"
    else if OneOf(tags, "amenity", {"community_centre", "social_facility", "civic"}) then "Community Services"
    else if Get(tags, "office") == Some("ngo") then "Community Services"
    else if OneOf(tags, "amenity", {"cafe", "coffee_shop"}) then "Cafés"
    else if Get(tags, "shop") == Some("coffee") then "Cafés"
    else if OneOf(tags, "amenity", {"bar", "pub", "nightclub"}) then "Bars"
    else if Get(tags, "shop") == Some("alcohol") then "Bars"
    else if Get(tags, "amenity") == Some("library") then "Libraries"
    else if Get(tags, "building") == Some("house") then "Single-Family Houses"
    else if OneOf(tags, "building", {"apartments", "residential"}) then "Residential Buildings"
    else if Get(tags, "building") == Some("detached") then "Detached Houses"
    else if Get(tags, "building") == Some("semi_detached") then "Semi-Detached Houses"
    else if Get(tags, "building") == Some("terrace") then "Terraced Houses"
    else if Get(tags, "landuse") == Some("residential") then "Residential Areas"
    else if Get(tags, "amenity") == Some("housing") then "Housing Facilities"
    else if Truthy(tags, "amenity") then "amenity"
    else if Truthy(tags, "historic") then "historic"
    else if Truthy(tags, "leisure") then "leisure"
    else if Truthy(tags, "shop") then "shop"
    else if Truthy(tags, "tourism") then "tourism"
    else if Truthy(tags, "landuse") then "landuse"
    else "other"
  }

  /** `all_categories`: the twenty names a grid cell counts. */
  const AllCategories: seq<string> := [
    "Public Schools", "Public Transit Lines", "Parks and Recreational Areas",
    "Community Services", "Cafés", "Bars", "Libraries",
    "Single-Family Houses", "Residential Buildings", "Detached Houses",
    "Semi-Detached Houses", "Terraced Houses", "Residential Areas", "Housing Facilities",
    "amenity", "historic", "leisure", "shop", "tourism", "landuse"]

  /** The keys of the last six rules, whose mere non-empty value is a category. */
  const FallbackKeys: set<string> := {"amenity", "historic", "leisure", "shop", "tourism", "landuse"}

  /** The rules that can match although no fallback key has a non-empty value. */
  predicate SpecificRule(tags: Tags)
  {
    || OneOf(tags, "public_transport", {"station", "stop_position", "platform"})
    || OneOf(tags, "route", {"subway", "bus", "tram", "light_rail"})
    || Get(tags, "highway") == Some("bus_stop")
    || Get(tags, "office") == Some("ngo")
    || OneOf(tags, "building", {"house", "apartments", "residential", "detached", "semi_detached", "terrace"})
  }

  // Properties of the rule chain

  /** The result is one of `all_categories` or "other". */
  lemma DetailedCategoryRange(tags: Tags)
    ensures DetailedCategory(tags) in AllCategories || DetailedCategory(tags) == "other"
  {
  }

  /**
   * A school is public unless `school:type` says private or religious; a
   * missing `school:type` counts as public.  Nothing else is a public school.
   */
  lemma PublicSchoolsIff(tags: Tags)
    ensures DetailedCategory(tags) == "Public Schools" <==>
              Get(tags, "amenity") == Some("school") && !OneOf(tags, "school:type", {"private", "religious"})
  {
  }

  /** The transit rules come before every rule but the school ones. */
  lemma TransitFirst(tags: Tags)
    requires Get(tags, "amenity") != Some("school")
    requires OneOf(tags, "public_transport", {"station", "stop_position", "platform"})
    ensures DetailedCategory(tags) == "Public Transit Lines"
  {
  }

  /** A station inside a park is a transit line, not a park. */
  lemma StationInParkScenario()
    ensures DetailedCategory(map["public_transport" := "station", "leisure" := "park"]) == "Public Transit Lines"
  {
    var tags := map["public_transport" := "station", "leisure" := "park"];
    assert "amenity" !in tags;
    TransitFirst(tags);
  }

  /** A non-empty value under any fallback key rules out "other". */
  lemma FallbackNotOther(tags: Tags, k: string)
    requires k in FallbackKeys && Truthy(tags, k)
    ensures DetailedCategory(tags) != "other"
  {
  }

  /** A tag set that reaches "other" has no fallback value and matches no other rule. */
  lemma OtherOnlyUnmatched(tags: Tags)
    requires DetailedCategory(tags) == "other"
    ensures (forall k :: k in FallbackKeys ==> !Truthy(tags, k)) && !SpecificRule(tags)
  {
  }

  /** Without a fallback value or another matching rule, the chain falls through to "other". */
  lemma UnmatchedIsOther(tags: Tags)
    requires forall k :: k in FallbackKeys ==> !Truthy(tags, k)
    requires !SpecificRule(tags)
    ensures DetailedCategory(tags) == "other"
  {
    assert !Truthy(tags, "amenity") && !Truthy(tags, "historic") && !Truthy(tags, "leisure");
    assert !Truthy(tags, "shop") && !Truthy(tags, "tourism") && !Truthy(tags, "landuse");
  }

  /**
   * "other" is the answer exactly when no fallback key has a non-empty
   * value and none of the rules on other keys matches.
   */
  lemma OtherIff(tags: Tags)
    ensures DetailedCategory(tags) == "other" <==>
              (forall k :: k in FallbackKeys ==> !Truthy(tags, k)) && !SpecificRule(tags)
  {
    if DetailedCategory(tags) == "other" {
      OtherOnlyUnmatched(tags);
    } else if (forall k :: k in FallbackKeys ==> !Truthy(tags, k)) && !SpecificRule(tags) {
      UnmatchedIsOther(tags);
    }
  }

  /** Tags without any key the rules look at are "other". */
  lemma NoInspectedKeysOther(tags: Tags)
    requires forall k :: k in tags ==> k !in FallbackKeys + {"school:type", "public_transport", "route", "highway", "office", "building"}
    ensures DetailedCategory(tags) == "other"
  {
    OtherIff(tags);
  }

  // The query

  /** `categories` in `get_pois`. */
  const PoiKeys: seq<string> := ["amenity", "shop", "leisure", "tourism", "historic"]

  /** `category_mappings` in the detailed variant, in insertion order. */
  const CategoryMappings: seq<(string, seq<string>)> := [
    ("amenity", ["amenity"]), ("historic", ["historic"]), ("leisure", ["leisure"]),
    ("shop", ["shop"]), ("tourism", ["tourism"]), ("public_transport", ["public_transport", "route"]),
    ("highway", ["highway"]), ("building", ["building"]), ("landuse", ["landuse"])]

  /** The element types each key is selected for, in the order of the three appends. */
  const SelectorKinds: seq<string> := ["node", "way", "relation"]

  /** `f'{kind}["{key}"]({bbox_str});'`. */
  function Selector(kind: string, key: string, bbox: string): string
  {
    kind + "[\"" + key + "\"](" + bbox + ");"
  }

  /** The selectors the loops append for `keys`, three per key. */
  function Selectors(keys: seq<string>, bbox: string): seq<string>
  {
    if |keys| == 0 then []
    else
      var n := |keys| - 1;
      Selectors(keys[..n], bbox) + [Selector("node", keys[n], bbox), Selector("way", keys[n], bbox), Selector("relation", keys[n], bbox)]
  }

  /** The values of a dictionary laid end to end, as the nested `for` visits them. */
  function MappingKeys(lists: seq<(string, seq<string>)>): seq<string>
  {
    if |lists| == 0 then [] else MappingKeys(lists[..|lists| - 1]) + lists[|lists| - 1].1
  }

  /**
   * The overpass query around the selector union `"\n  ".join(selectors)`,
   * after `.strip()` has removed the leading newline and the trailing
   * indentation of the triple-quoted template.
   */
  function OverpassQuery(selectors: seq<string>): string
  {
    "[out:json][timeout:30];\n    (\n      " + Join("\n  ", selectors) + "\n    );\n    out center tags;"
  }

  /** The selector loop of `get_pois`: three appends per key of `categories`. */
  method BasicSelectors(bbox: string) returns (selectors: seq<string>)
    ensures selectors == Selectors(PoiKeys, bbox)
  {
    var keys := PoiKeys;
    selectors := [];
    var i := 0;
    while i < |keys|
      invariant i <= |keys|
      invariant selectors == Selectors(keys[..i], bbox)
    {
      var key := keys[i];
      selectors := selectors + [Selector("node", key, bbox)];
      selectors := selectors + [Selector("way", key, bbox)];
      selectors := selectors + [Selector("relation", key, bbox)];
      assert keys[..i + 1][..i] == keys[..i];
      i := i + 1;
    }
    assert keys[..i] == keys;
  }

  /** The nested selector loop of the detailed variant, over every list of `category_mappings`. */
  method DetailedSelectors(bbox: string) returns (selectors: seq<string>)
    ensures selectors == Selectors(MappingKeys(CategoryMappings), bbox)
  {
    selectors := MappingSelectors(CategoryMappings, bbox);
  }

  /** `for key_list in mappings.values(): for key in key_list:` the three appends. */
  method MappingSelectors(mappings: seq<(string, seq<string>)>, bbox: string) returns (selectors: seq<string>)
    ensures selectors == Selectors(MappingKeys(mappings), bbox)
  {
    selectors := [];
    var i := 0;
    while i < |mappings|
      invariant i <= |mappings|
      invariant selectors == Selectors(MappingKeys(mappings[..i]), bbox)
    {
      var keyList := mappings[i].1;
      ghost var before := MappingKeys(mappings[..i]);
      selectors := KeySelectors(selectors, before, keyList, bbox);
      assert mappings[..i + 1][..i] == mappings[..i];
      assert MappingKeys(mappings[..i + 1]) == before + keyList;
      i := i + 1;
    }
    assert mappings[..i] == mappings;
  }

  /** `for key in key_list:` the three appends, after the selectors of the keys `before`. */
  method KeySelectors(selectors: seq<string>, ghost before: seq<string>, keyList: seq<string>, bbox: string)
    returns (r: seq<string>)
    requires selectors == Selectors(before, bbox)
    ensures r == Selectors(before + keyList, bbox)
  {
    r := selectors;
    var j := 0;
    assert before + keyList[..0] == before;
    while j < |keyList|
      invariant j <= |keyList|
      invariant r == Selectors(before + keyList[..j], bbox)
    {
      var key := keyList[j];
      r := r + [Selector("node", key, bbox)];
      r := r + [Selector("way", key, bbox)];
      r := r + [Selector("relation", key, bbox)];
      ghost var keys := before + keyList[..j + 1];
      assert keys[..|keys| - 1] == before + keyList[..j] && keys[|keys| - 1] == key;
      j := j + 1;
    }
    assert keyList[..j] == keyList;
  }

  /** Selector `k` selects element type `k % 3` for key `k / 3`. */
  lemma {:induction false} SelectorsIndex(keys: seq<string>, bbox: string)
    ensures |Selectors(keys, bbox)| == 3 * |keys|
    ensures forall k :: 0 <= k < 3 * |keys| ==> Selectors(keys, bbox)[k] == Selector(SelectorKinds[k % 3], keys[k / 3], bbox)
  {
    if |keys| > 0 {
      var n := |keys| - 1;
      SelectorsIndex(keys[..n], bbox);
      var s := Selectors(keys, bbox);
      forall k | 0 <= k < 3 * |keys|
        ensures s[k] == Selector(SelectorKinds[k % 3], keys[k / 3], bbox)
      {
        if k < 3 * n {
          assert keys[..n][k / 3] == keys[k / 3];
        } else {
          assert k / 3 == n;
        }
      }
    }
  }

  /** The detailed variant selects ten keys, `public_transport`'s list adding `route`. */
  lemma DetailedKeys()
    ensures MappingKeys(CategoryMappings) ==
              ["amenity", "historic", "leisure", "shop", "tourism", "public_transport", "route", "highway", "building", "landuse"]
  {
    var m := CategoryMappings;
    assert MappingKeys(m[..1]) == ["amenity"] by { assert m[..1][..0] == []; }
    assert MappingKeys(m[..2]) == ["amenity", "historic"] by { assert m[..2][..1] == m[..1]; }
    assert MappingKeys(m[..3]) == ["amenity", "historic", "leisure"] by { assert m[..3][..2] == m[..2]; }
    assert MappingKeys(m[..4]) == ["amenity", "historic", "leisure", "shop"] by { assert m[..4][..3] == m[..3]; }
    assert MappingKeys(m[..5]) == ["amenity", "historic", "leisure", "shop", "tourism"] by { assert m[..5][..4] == m[..4]; }
    assert MappingKeys(m[..6]) == ["amenity", "historic", "leisure", "shop", "tourism", "public_transport", "route"]
      by { assert m[..6][..5] == m[..5]; }
    assert MappingKeys(m[..7]) == ["amenity", "historic", "leisure", "shop", "tourism", "public_transport", "route", "highway"]
      by { assert m[..7][..6] == m[..6]; }
    assert MappingKeys(m[..8]) == ["amenity", "historic", "leisure", "shop", "tourism", "public_transport", "route", "highway", "building"]
      by { assert m[..8][..7] == m[..7]; }
    assert m[..9][..8] == m[..8] && m[..9] == m;
  }

  /** Fifteen selectors in `get_pois` and thirty in the detailed variant, in key order. */
  lemma SelectorCounts(bbox: string)
    ensures |Selectors(PoiKeys, bbox)| == 15
    ensures |Selectors(MappingKeys(CategoryMappings), bbox)| == 30
    ensures forall k :: 0 <= k < 15 ==> Selectors(PoiKeys, bbox)[k] == Selector(SelectorKinds[k % 3], PoiKeys[k / 3], bbox)
  {
    SelectorsIndex(PoiKeys, bbox);
    DetailedKeys();
    SelectorsIndex(MappingKeys(CategoryMappings), bbox);
  }

  // The rows

  /** Which of the two functions builds the rows. */
  datatype Variant = Basic | Detailed

  /** A point as (latitude, longitude). */
  type Point = (real, real)

  /** One row of the returned frame. */
  datatype PoiRow = PoiRow(name: string, category: string, lat: real, lon: real, distanceKm: real)

  /** What the loop body does with one element. */
  datatype Outcome = Skipped | Raised | Kept(row: PoiRow)

  /**
   * The coordinates the loop reads: `lat`/`lon` of a node, those of
   * `el.get("center") or {}` for anything else; `None` once either is missing.
   */
  function Position(el: Element): Option<Point>
  {
    var lat := if el.kind == Some("node") then el.lat else CenterOf(el).lat;
    var lon := if el.kind == Some("node") then el.lon else CenterOf(el).lon;
    if lat.Some? && lon.Some? then Some((lat.value, lon.value)) else None
  }

  /** `el.get("tags", {})`, `None` standing for a JSON `null`, on which the next access raises. */
  function TagsOf(el: Element): Option<Tags>
  {
    match el.tags
    case Absent => Some(map[])
    case Null => None
    case Present(t) => Some(t)
  }

  /** The first of `keys` that is a key of `tags`. */
  function FirstPresent(keys: seq<string>, tags: Tags): Option<string>
  {
    if |keys| == 0 then None
    else if keys[0] in tags then Some(keys[0])
    else FirstPresent(keys[1..], tags)
  }

  /** The category loop of `get_pois`: `for cat in categories: if cat in tags: ... break`. */
  method BestCategory(tags: Tags) returns (category: string)
    ensures category == FirstPresent(PoiKeys, tags).GetOr("N/A")
  {
    var keys := PoiKeys;
    category := "N/A";
    var i := 0;
    while i < |keys|
      invariant i <= |keys|
      invariant FirstPresent(keys, tags) == FirstPresent(keys[i..], tags)
      invariant category == "N/A"
    {
      if keys[i] in tags {
        category := keys[i];
        break;
      }
      assert keys[i..][1..] == keys[i + 1..];
      i := i + 1;
    }
  }

  /** The category a kept row gets, `None` when the detailed variant drops the element. */
  function CategoryFor(v: Variant, tags: Tags): Option<string>
  {
    match v
    case Basic => Some(FirstPresent(PoiKeys, tags).GetOr("N/A"))
    case Detailed =>
      var c := DetailedCategory(tags);
      if c == "other" then None else Some(c)
  }

  /** `CategoryFor` of one variant as a function value, the form the row specification takes. */
  function Classifier(v: Variant): Tags -> Option<string>
  {
    tags => CategoryFor(v, tags)
  }

  /** The category step of the loop body, in the order the source tests it. */
  method Classify(v: Variant, tags: Tags) returns (category: Option<string>)
    ensures category == Classifier(v)(tags)
  {
    if v.Basic? {
      var c := BestCategory(tags);
      category := Some(c);
    } else {
      var c := DetailedCategory(tags);
      category := if c == "other" then None else Some(c);
    }
  }

  /**
   * The loop body for one element; `classify` gives the category of a kept
   * element and `dist` the geodesic distance in km.
   */
  function OutcomeOf(classify: Tags -> Option<string>, center: Point, dist: (Point, Point) -> real, el: Element): Outcome
  {
    match Position(el)
    case None => Skipped
    case Some(pos) =>
      match TagsOf(el)
      case None => Raised
      case Some(tags) =>
        match classify(tags)
        case None => Skipped
        case Some(c) => Kept(PoiRow(Get(tags, "name").GetOr("N/A"), c, pos.0, pos.1, dist(center, pos)))
  }

  /** The `results` list after the loop over `els`, `None` if the loop raised. */
  function Rows(classify: Tags -> Option<string>, center: Point, dist: (Point, Point) -> real, els: seq<Element>): Option<seq<PoiRow>>
  {
    if |els| == 0 then Some([])
    else
      var n := |els| - 1;
      var prev := Rows(classify, center, dist, els[..n]);
      if prev.None? then None
      else
        match OutcomeOf(classify, center, dist, els[n])
        case Skipped => prev
        case Raised => None
        case Kept(row) => Some(prev.value + [row])
  }

  /** The `for el in elements` loop of either function. */
  method CollectRows(v: Variant, center: Point, dist: (Point, Point) -> real, els: seq<Element>)
    returns (rows: Option<seq<PoiRow>>)
    ensures rows == Rows(Classifier(v), center, dist, els)
  {
    ghost var classify := Classifier(v);
    var results: seq<PoiRow> := [];
    var i := 0;
    while i < |els|
      invariant i <= |els|
      invariant Rows(classify, center, dist, els[..i]) == Some(results)
    {
      var el := els[i];
      assert els[..i + 1][..i] == els[..i];
      var pos := Position(el);
      if pos.None? {
        i := i + 1;
        continue;
      }
      if el.tags.Null? {
        RowsRaised(classify, center, dist, els, i);
        return None;
      }
      var tags := TagsOf(el).value;
      var category := Classify(v, tags);
      if category.None? {
        i := i + 1;
        continue;
      }
      var name := Get(tags, "name").GetOr("N/A");
      results := results + [PoiRow(name, category.value, pos.value.0, pos.value.1, dist(center, pos.value))];
      i := i + 1;
    }
    assert els[..i] == els;
    rows := Some(results);
  }

  /** An element that raises makes the whole loop raise. */
  lemma RowsRaised(classify: Tags -> Option<string>, center: Point, dist: (Point, Point) -> real, els: seq<Element>, i: nat)
    requires i < |els| && OutcomeOf(classify, center, dist, els[i]).Raised?
    ensures Rows(classify, center, dist, els).None?
  {
    RowsNoneIff(classify, center, dist, els);
  }

  // Properties of the rows

  /** The loop raises exactly when some element raises. */
  lemma {:induction false} RowsNoneIff(classify: Tags -> Option<string>, center: Point, dist: (Point, Point) -> real, els: seq<Element>)
    ensures Rows(classify, center, dist, els).None? <==> exists i :: 0 <= i < |els| && OutcomeOf(classify, center, dist, els[i]).Raised?
  {
    if |els| > 0 {
      var n := |els| - 1;
      var init := els[..n];
      RowsNoneIff(classify, center, dist, init);
      if i :| 0 <= i < |init| && OutcomeOf(classify, center, dist, init[i]).Raised? {
        assert els[i] == init[i];
      }
      if i :| 0 <= i < |els| && OutcomeOf(classify, center, dist, els[i]).Raised? {
        if i < n {
          assert init[i] == els[i];
        }
      }
    }
  }

  /** What one element does: skip, raise, or give its row. */
  lemma OutcomeIff(classify: Tags -> Option<string>, center: Point, dist: (Point, Point) -> real, el: Element)
    ensures OutcomeOf(classify, center, dist, el).Raised? <==> Position(el).Some? && el.tags.Null?
    ensures OutcomeOf(classify, center, dist, el).Skipped? <==>
              || Position(el).None?
              || (!el.tags.Null? && classify(TagsOf(el).value).None?)
    ensures OutcomeOf(classify, center, dist, el).Kept? ==>
              var row := OutcomeOf(classify, center, dist, el).row;
              && Position(el) == Some((row.lat, row.lon))
              && row.distanceKm == dist(center, (row.lat, row.lon))
              && row.name == Get(TagsOf(el).value, "name").GetOr("N/A")
              && Some(row.category) == classify(TagsOf(el).value)
  {
  }

  /** `get_pois` keeps every positioned element; the detailed variant drops exactly the "other" ones. */
  lemma CategoryForIff(v: Variant, tags: Tags)
    ensures v.Basic? ==> CategoryFor(v, tags).Some?
    ensures v.Detailed? ==> (CategoryFor(v, tags).None? <==> DetailedCategory(tags) == "other")
    ensures CategoryFor(v, tags).Some? ==>
              if v.Basic? then CategoryFor(v, tags).value in PoiKeys + ["N/A"] else CategoryFor(v, tags).value in AllCategories
  {
    if v.Basic? {
      FirstPresentIff(PoiKeys, tags);
    } else {
      DetailedCategoryRange(tags);
    }
  }

  /** The rows of two runs of elements are the rows of each, in order. */
  lemma {:induction false} RowsAppend(classify: Tags -> Option<string>, center: Point, dist: (Point, Point) -> real, a: seq<Element>, b: seq<Element>)
    ensures Rows(classify, center, dist, a + b) ==
              var ra, rb := Rows(classify, center, dist, a), Rows(classify, center, dist, b);
              if ra.Some? && rb.Some? then Some(ra.value + rb.value) else None
  {
    if |b| == 0 {
      assert a + b == a;
      if Rows(classify, center, dist, a).Some? {
        assert Rows(classify, center, dist, a).value + [] == Rows(classify, center, dist, a).value;
      }
    } else {
      var n := |b| - 1;
      RowsAppend(classify, center, dist, a, b[..n]);
      assert (a + b)[..|a + b| - 1] == a + b[..n];
      assert (a + b)[|a + b| - 1] == b[n];
      var ra, rb := Rows(classify, center, dist, a), Rows(classify, center, dist, b[..n]);
      var o := OutcomeOf(classify, center, dist, b[n]);
      if ra.Some? && rb.Some? && o.Kept? {
        assert ra.value + (rb.value + [o.row]) == (ra.value + rb.value) + [o.row];
      }
    }
  }

  /** The rows of a single element. */
  lemma RowsSingle(classify: Tags -> Option<string>, center: Point, dist: (Point, Point) -> real, el: Element)
    ensures Rows(classify, center, dist, [el]) ==
              match OutcomeOf(classify, center, dist, el)
              case Skipped => Some([])
              case Raised => None
              case Kept(row) => Some([row])
  {
    assert [el][..0] == [];
    if OutcomeOf(classify, center, dist, el).Kept? {
      assert [] + [OutcomeOf(classify, center, dist, el).row] == [OutcomeOf(classify, center, dist, el).row];
    }
  }

  /**
   * A skipped element, one without a position or, in the detailed
   * variant, one classified "other", leaves the rows unchanged.
   */
  lemma SkippedLeavesRows(classify: Tags -> Option<string>, center: Point, dist: (Point, Point) -> real, a: seq<Element>, el: Element, b: seq<Element>)
    requires OutcomeOf(classify, center, dist, el).Skipped?
    ensures Rows(classify, center, dist, a + [el] + b) == Rows(classify, center, dist, a + b)
  {
    RowsAppend(classify, center, dist, a + [el], b);
    RowsAppend(classify, center, dist, a, [el]);
    RowsSingle(classify, center, dist, el);
    RowsAppend(classify, center, dist, a, b);
    assert Rows(classify, center, dist, a + [el]) == Rows(classify, center, dist, a) by {
      if Rows(classify, center, dist, a).Some? {
        assert Rows(classify, center, dist, a).value + [] == Rows(classify, center, dist, a).value;
      }
    }
  }

  /** Every row comes from a kept element. */
  lemma {:induction false} RowsKept(classify: Tags -> Option<string>, center: Point, dist: (Point, Point) -> real, els: seq<Element>)
    requires Rows(classify, center, dist, els).Some?
    ensures var rows := Rows(classify, center, dist, els).value;
            && |rows| <= |els|
            && forall k :: 0 <= k < |rows| ==> exists i :: 0 <= i < |els| && OutcomeOf(classify, center, dist, els[i]) == Kept(rows[k])
  {
    if |els| > 0 {
      var n := |els| - 1;
      var init := els[..n];
      RowsKept(classify, center, dist, init);
      var prev := Rows(classify, center, dist, init).value;
      var rows := Rows(classify, center, dist, els).value;
      forall k | 0 <= k < |rows|
        ensures exists i :: 0 <= i < |els| && OutcomeOf(classify, center, dist, els[i]) == Kept(rows[k])
      {
        if k < |prev| {
          assert rows[k] == prev[k];
          var i :| 0 <= i < |init| && OutcomeOf(classify, center, dist, init[i]) == Kept(prev[k]);
          assert els[i] == init[i];
        } else {
          assert OutcomeOf(classify, center, dist, els[n]) == Kept(rows[k]);
        }
      }
    }
  }

  /** The detailed variant never returns an "other" row: each is one of `all_categories`. */
  lemma DetailedRowsCategorised(center: Point, dist: (Point, Point) -> real, els: seq<Element>)
    requires Rows(Classifier(Detailed), center, dist, els).Some?
    ensures forall row :: row in Rows(Classifier(Detailed), center, dist, els).value ==> row.category in AllCategories
  {
    RowsKept(Classifier(Detailed), center, dist, els);
    var rows := Rows(Classifier(Detailed), center, dist, els).value;
    forall row | row in rows ensures row.category in AllCategories {
      var k :| 0 <= k < |rows| && rows[k] == row;
      var i :| 0 <= i < |els| && OutcomeOf(Classifier(Detailed), center, dist, els[i]) == Kept(row);
      DetailedCategoryRange(TagsOf(els[i]).value);
    }
  }

  /** `get_pois` labels a row with the first category key its tags have, or "N/A". */
  lemma {:induction false} FirstPresentIff(keys: seq<string>, tags: Tags)
    ensures FirstPresent(keys, tags).None? <==> forall k :: k in keys ==> k !in tags
    ensures FirstPresent(keys, tags).Some? ==>
              exists i :: 0 <= i < |keys| && keys[i] == FirstPresent(keys, tags).value && keys[i] in tags
                          && forall j :: 0 <= j < i ==> keys[j] !in tags
  {
    if |keys| > 0 && keys[0] !in tags {
      var rest := keys[1..];
      FirstPresentIff(rest, tags);
      assert forall k :: k in keys ==> k == keys[0] || k in rest;
      if FirstPresent(rest, tags).Some? {
        var i :| 0 <= i < |rest| && rest[i] == FirstPresent(rest, tags).value && rest[i] in tags
                 && forall j :: 0 <= j < i ==> rest[j] !in tags;
        assert keys[i + 1] == rest[i];
        assert forall j :: 1 <= j < i + 1 ==> keys[j] == rest[j - 1];
      }
    } else if |keys| > 0 {
      assert keys[0] == FirstPresent(keys, tags).value;
    }
  }

  // The reply

  /**
   * What `requests.post` gives: it raised, or a response with its status
   * and, when the body is JSON, the `elements` member of it.
   */
  datatype Reply = PostRaised | Response(status: int, body: Option<Field<seq<Element>>>)

  /** `raise_for_status()` raises for the 4xx and 5xx statuses. */
  predicate ErrorStatus(status: int)
  {
    400 <= status < 600
  }

  /**
   * The frame the function returns: empty once anything raised (the post,
   * the status check, the JSON decoding, a `null` tag object) or when the
   * reply has no elements, otherwise the rows of the loop.
   */
  function Pois(classify: Tags -> Option<string>, center: Point, dist: (Point, Point) -> real, reply: Reply): seq<PoiRow>
  {
    match reply
    case PostRaised => []
    case Response(status, body) =>
      if ErrorStatus(status) || body.None? then []
      else
        match body.value
        case Present(els) => Rows(classify, center, dist, els).GetOr([])
        case _ => []
  }

  /** The `try` block after the post: the status check, the decoding and the loop. */
  method ReadReply(v: Variant, center: Point, dist: (Point, Point) -> real, reply: Reply) returns (rows: seq<PoiRow>)
    ensures rows == Pois(Classifier(v), center, dist, reply)
  {
    if reply.PostRaised? || ErrorStatus(reply.status) || reply.body.None? {
      return [];
    }
    var elements := if reply.body.value.Present? then reply.body.value.value else [];
    if |elements| == 0 {
      return [];
    }
    var results := CollectRows(v, center, dist, elements);
    rows := if results.Some? then results.value else [];
  }

  /**
   * `get_pois`: the query over the box `bbox` gives for the centre and
   * radius, and the rows built from the reply `post` gives to it.
   */
  method GetPois(latitude: real, longitude: real, distanceKm: real, bbox: (Point, real) -> string,
                 dist: (Point, Point) -> real, post: string -> Reply)
    returns (query: string, rows: seq<PoiRow>)
    ensures query == OverpassQuery(Selectors(PoiKeys, bbox((latitude, longitude), distanceKm)))
    ensures rows == Pois(Classifier(Basic), (latitude, longitude), dist, post(query))
  {
    var bboxText := bbox((latitude, longitude), distanceKm);
    var selectors := BasicSelectors(bboxText);
    query := OverpassQuery(selectors);
    rows := ReadReply(Basic, (latitude, longitude), dist, post(query));
  }

  /** `get_pois_with_detailed_categories`: the same with the wider query and the rule chain. */
  method GetPoisWithDetailedCategories(latitude: real, longitude: real, distanceKm: real, bbox: (Point, real) -> string,
                                       dist: (Point, Point) -> real, post: string -> Reply)
    returns (query: string, rows: seq<PoiRow>)
    ensures query == OverpassQuery(Selectors(MappingKeys(CategoryMappings), bbox((latitude, longitude), distanceKm)))
    ensures rows == Pois(Classifier(Detailed), (latitude, longitude), dist, post(query))
  {
    var bboxText := bbox((latitude, longitude), distanceKm);
    var selectors := DetailedSelectors(bboxText);
    query := OverpassQuery(selectors);
    rows := ReadReply(Detailed, (latitude, longitude), dist, post(query));
  }

  /** Rows come back only from a successful, decoded reply whose elements raised nothing. */
  lemma PoisNonEmpty(classify: Tags -> Option<string>, center: Point, dist: (Point, Point) -> real, reply: Reply)
    requires Pois(classify, center, dist, reply) != []
    ensures reply.Response? && !ErrorStatus(reply.status) && reply.body.Some? && reply.body.value.Present?
    ensures Rows(classify, center, dist, reply.body.value.value) == Some(Pois(classify, center, dist, reply))
  {
  }
}
