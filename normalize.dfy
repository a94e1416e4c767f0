/**
 * `normalize_elements`: turns the raw Overpass elements into one row per
 * `(type, id)`, the last occurrence of a key winning, ordered by element
 * type (node, way, relation) and then by id.
 */
module Normalize {
  import opened Basics
  import opened Sorting
  import opened Osm
  import opened OrderedDict

  /** The identity of an element: its type and its id. */
  type Key = (Kind, int)

  datatype Row = Row(kind: Kind, id: int, lat: real, lon: real, name: string, tags: map<string, string>)

  function KeyOf(r: Row): Key
  {
    (r.kind, r.id)
  }

  /** The sort key `(TYPE_ORDER[type], id)`, compared as a tuple. */
  predicate KeyLe(a: Key, b: Key)
  {
    TypeOrder(a.0) < TypeOrder(b.0) || (TypeOrder(a.0) == TypeOrder(b.0) && a.1 <= b.1)
  }

  predicate KeyLt(a: Key, b: Key)
  {
    TypeOrder(a.0) < TypeOrder(b.0) || (TypeOrder(a.0) == TypeOrder(b.0) && a.1 < b.1)
  }

  predicate RowLe(a: Row, b: Row)
  {
    KeyLe(KeyOf(a), KeyOf(b))
  }

  predicate RowLt(a: Row, b: Row)
  {
    KeyLt(KeyOf(a), KeyOf(b))
  }

  /**
   * `_extract_coords` as `(lon, lat)`; `None` where `float(None)` raises a
   * `TypeError`.  Nodes carry their own coordinates, every other element
   * type is read from its `center`.
   */
  function ExtractCoords(el: Element): Option<(real, real)>
  {
    if el.kind == Some("node") then
      if el.lon.Some? && el.lat.Some? then Some((el.lon.value, el.lat.value)) else None
    else
      var c := CenterOf(el);
      if c.lon.Some? && c.lat.Some? then Some((c.lon.value, c.lat.value)) else None
  }

  /** `el.get('tags', {}) or {}`. */
  function TagsOf(el: Element): map<string, string>
  {
    match el.tags
    case Present(m) => m
    case _ => map[]
  }

  /** `tags.get('name', 'N/A')`. */
  function NameOf(tags: map<string, string>): string
  {
    if "name" in tags then tags["name"] else "N/A"
  }

  /** What one loop iteration does with an element. */
  datatype Step = Skip | Broken | Keep(row: Row)

  function StepOf(el: Element): (s: Step)
    ensures s.Skip? <==> KindOf(el.kind).None? || el.id.IsNone()
    ensures s.Keep? ==> s.row.kind == KindOf(el.kind).value && s.row.id == el.id.value
    ensures s.Keep? && s.row.kind == Node ==> Some(s.row.lat) == el.lat && Some(s.row.lon) == el.lon
    ensures s.Keep? && s.row.kind != Node ==>
              Some(s.row.lat) == CenterOf(el).lat && Some(s.row.lon) == CenterOf(el).lon
    ensures s.Keep? ==> s.row.tags == TagsOf(el) && s.row.name == NameOf(TagsOf(el))
  {
    var etype := KindOf(el.kind);
    if etype.None? || el.id.IsNone() then Skip
    else
      match ExtractCoords(el)
      case None => Broken
      case Some(lonLat) =>
        var tags := TagsOf(el);
        Keep(Row(etype.value, el.id.value, lonLat.1, lonLat.0, NameOf(tags), tags))
  }

  /** The dictionary assignment `dedup[key] = row` an element leads to, if any. */
  function Entry(el: Element): Option<(Key, Row)>
  {
    match StepOf(el)
    case Keep(row) => Some((KeyOf(row), row))
    case _ => None
  }

  /** The error `normalize_elements` raises: `float(None)` for element `index`. */
  datatype NormalizeError = MissingCoordinate(index: nat)

  /** The first element whose coordinates cannot be read. */
  function FirstBroken(els: seq<Element>): (r: Option<nat>)
    ensures r.Some? ==> r.value < |els| && StepOf(els[r.value]).Broken?
                        && forall j :: 0 <= j < r.value ==> !StepOf(els[j]).Broken?
    ensures r.None? ==> forall j :: 0 <= j < |els| ==> !StepOf(els[j]).Broken?
  {
    if |els| == 0 then None
    else if StepOf(els[0]).Broken? then Some(0)
    else
      match FirstBroken(els[1..])
      case None => None
      case Some(i) => Some(i + 1)
  }

  /** What `normalize_elements` returns or raises. */
  function Normalized(els: seq<Element>): Result<seq<Row>, NormalizeError>
  {
    match FirstBroken(els)
    case Some(i) => Failure(MissingCoordinate(i))
    case None => Success(Sort(Collect(Entry, els).Values(), RowLe))
  }

  method NormalizeElements(elements: seq<Element>) returns (r: Result<seq<Row>, NormalizeError>)
    ensures r == Normalized(elements)
  {
    var dedup: Dict<Key, Row> := Empty();
    var i := 0;
    while i < |elements|
      invariant 0 <= i <= |elements|
      invariant forall j :: 0 <= j < i ==> !StepOf(elements[j]).Broken?
      invariant dedup == Collect(Entry, elements[..i])
    {
      var el := elements[i];
      assert elements[..i + 1][..i] == elements[..i];
      var etype := KindOf(el.kind);
      if etype.None? || el.id.IsNone() {
        i := i + 1;
        continue;
      }
      var coords := ExtractCoords(el);
      if coords.None? {
        return Failure(MissingCoordinate(i));
      }
      var (lon, lat) := coords.value;
      var tags := TagsOf(el);
      var name := NameOf(tags);
      var key := (etype.value, el.id.value);
      dedup := dedup.Put(key, Row(etype.value, el.id.value, lat, lon, name, tags));
      i := i + 1;
    }
    assert elements[..i] == elements;
    var rows := dedup.Values();
    rows := Sort(rows, RowLe);
    return Success(rows);
  }

  // ---------------------------------------------------------------------
  // Properties of the result

  lemma RowLeTotalPreorder()
    ensures TotalPreorder(RowLe)
  {
  }

  lemma EntryKeyed()
    ensures KeyedBy(Entry, KeyOf)
  {
  }

  /** The keys of a successful result are duplicate-free. */
  lemma NormalizedKeysNoDup(els: seq<Element>)
    requires Normalized(els).Success?
    ensures NoDup(MapSeq(KeyOf, Normalized(els).value))
  {
    var d := Collect(Entry, els);
    var rows := Normalized(els).value;
    EntryKeyed();
    ValuesInKeyOrder(Entry, KeyOf, els);
    MapSeqPermutation(KeyOf, rows, d.Values());
    PermutationNoDup(MapSeq(KeyOf, rows), d.order);
  }

  /**
   * The rows are strictly ascending by `(TYPE_ORDER[type], id)`: sorted,
   * and with at most one row per `(type, id)`.
   */
  lemma NormalizedStrictlySorted(els: seq<Element>)
    requires Normalized(els).Success?
    ensures StrictlySortedBy(Normalized(els).value, RowLt)
  {
    var rows := Normalized(els).value;
    RowLeTotalPreorder();
    SortSorted(Collect(Entry, els).Values(), RowLe);
    NormalizedKeysNoDup(els);
    var keys := MapSeq(KeyOf, rows);
    forall i, j | 0 <= i < j < |rows| ensures RowLt(rows[i], rows[j]) {
      assert RowLe(rows[i], rows[j]);
      assert keys[i] != keys[j];
    }
  }

  /** The keys of a successful result are exactly the valid keys of the input. */
  lemma NormalizedKeys(els: seq<Element>)
    requires Normalized(els).Success?
    ensures Elements(MapSeq(KeyOf, Normalized(els).value)) == KeysOf(Entry, els)
  {
    var d := Collect(Entry, els);
    var rows := Normalized(els).value;
    EntryKeyed();
    ValuesInKeyOrder(Entry, KeyOf, els);
    CollectKeys(Entry, els);
    MapSeqPermutation(KeyOf, rows, d.Values());
    var ks := MapSeq(KeyOf, rows);
    forall k ensures k in Elements(ks) <==> k in Elements(d.order) {
      assert k in Elements(ks) <==> k in multiset(ks);
      assert k in Elements(d.order) <==> k in multiset(d.order);
    }
  }

  /**
   * A key is in the output exactly when some element has a known type, an
   * id and readable coordinates.
   */
  lemma NormalizedKeyIff(els: seq<Element>, k: Key)
    requires Normalized(els).Success?
    ensures k in Elements(MapSeq(KeyOf, Normalized(els).value)) <==>
            exists i :: 0 <= i < |els| && YieldsKey(Entry, els, i, k)
  {
    NormalizedKeys(els);
    KeysOfCharacterized(Entry, els, k);
  }

  /** An element of unknown type or without an id leaves the result unchanged. */
  lemma SkippedElementNoRow(els: seq<Element>, el: Element)
    requires KindOf(el.kind).None? || el.id.IsNone()
    ensures Normalized(els + [el]) == Normalized(els)
  {
    var s := els + [el];
    assert s[..|s| - 1] == els;
    match FirstBroken(s)
    case Some(i) =>
      assert i < |els|;
    case None =>
  }

  /** A way or relation with an id but no `center` makes the call raise. */
  lemma MissingCenterRaises(els: seq<Element>, i: nat)
    requires i < |els| && els[i].kind in {Some("way"), Some("relation")}
    requires els[i].id.Present? && els[i].center.None?
    ensures Normalized(els).Failure?
  {
    assert StepOf(els[i]).Broken?;
  }

  /** The call fails exactly when some element's coordinates cannot be read. */
  lemma NormalizedFailsIff(els: seq<Element>)
    ensures Normalized(els).Failure? <==> exists i :: 0 <= i < |els| && StepOf(els[i]).Broken?
  {
  }

  /**
   * Last write wins: each row is the one built from the last element with
   * its key, and no later element has that key.
   */
  lemma NormalizedLastWins(els: seq<Element>, r: Row)
    requires Normalized(els).Success? && r in Normalized(els).value
    ensures exists i :: 0 <= i < |els| && StepOf(els[i]) == Keep(r)
              && forall j :: i < j < |els| ==> !YieldsKey(Entry, els, j, KeyOf(r))
  {
    var d := Collect(Entry, els);
    var vals := d.Values();
    assert r in multiset(vals);
    var m :| 0 <= m < |vals| && vals[m] == r;
    var k := d.order[m];
    CollectLatest(Entry, els, k);
    LatestIsLastOccurrence(Entry, els, k, r);
    var i :| 0 <= i < |els| && Entry(els[i]) == Some((k, r))
             && forall j :: i < j < |els| ==> !YieldsKey(Entry, els, j, k);
    assert StepOf(els[i]) == Keep(r);
  }

  /** One row per distinct valid key, never more rows than elements. */
  lemma NormalizedCount(els: seq<Element>)
    requires Normalized(els).Success?
    ensures |Normalized(els).value| == |KeysOf(Entry, els)| <= |els|
  {
    var d := Collect(Entry, els);
    ValuesCount(d);
    CollectKeys(Entry, els);
    KeysOfBound(Entry, els);
  }

  lemma KeyLtAsymmetric()
    ensures forall a: Key, b: Key :: KeyLt(a, b) ==> !KeyLt(b, a)
  {
  }

  /** The key sequences of two strictly sorted row lists with the same keys agree. */
  lemma StrictlySortedKeysUnique(a: seq<Row>, b: seq<Row>)
    requires StrictlySortedBy(a, RowLt) && StrictlySortedBy(b, RowLt)
    requires Elements(MapSeq(KeyOf, a)) == Elements(MapSeq(KeyOf, b))
    ensures MapSeq(KeyOf, a) == MapSeq(KeyOf, b)
  {
    KeyLtAsymmetric();
    StrictlySortedUnique(MapSeq(KeyOf, a), MapSeq(KeyOf, b), KeyLt);
  }

  /**
   * The output `(type, id)` sequence depends only on the set of valid keys,
   * not on the order in which the elements arrive or on duplicates.
   */
  lemma NormalizedOrderIndependent(a: seq<Element>, b: seq<Element>)
    requires Normalized(a).Success? && Normalized(b).Success?
    requires KeysOf(Entry, a) == KeysOf(Entry, b)
    ensures MapSeq(KeyOf, Normalized(a).value) == MapSeq(KeyOf, Normalized(b).value)
  {
    NormalizedStrictlySorted(a);
    NormalizedStrictlySorted(b);
    NormalizedKeys(a);
    NormalizedKeys(b);
    StrictlySortedKeysUnique(Normalized(a).value, Normalized(b).value);
  }

  /** The shuffled input with a duplicated node of the determinism test. */
  function ScenarioElements(): seq<Element>
  {
    [ Element(Some("way"), Present(2), None, None, Some(Center(Some(1.0), Some(1.0))), Present(map["name" := "B"])),
      Element(Some("node"), Present(1), Some(0.0), Some(0.0), None, Present(map["name" := "A"])),
      Element(Some("relation"), Present(3), None, None, Some(Center(Some(2.0), Some(2.0))), Absent),
      Element(Some("node"), Present(1), Some(0.0), Some(0.0), None, Absent) ]
  }

  lemma ScenarioEntries()
    ensures Entry(ScenarioElements()[0]) == Some(((Way, 2), Row(Way, 2, 1.0, 1.0, "B", map["name" := "B"])))
    ensures Entry(ScenarioElements()[1]) == Some(((Node, 1), Row(Node, 1, 0.0, 0.0, "A", map["name" := "A"])))
    ensures Entry(ScenarioElements()[2]) == Some(((Relation, 3), Row(Relation, 3, 2.0, 2.0, "N/A", map[])))
    ensures Entry(ScenarioElements()[3]) == Some(((Node, 1), Row(Node, 1, 0.0, 0.0, "N/A", map[])))
    ensures forall i :: 0 <= i < 4 ==> !StepOf(ScenarioElements()[i]).Broken?
  {
  }

  lemma ScenarioCollect()
    ensures FirstBroken(ScenarioElements()) == None
    ensures Collect(Entry, ScenarioElements()).Values() ==
            [ Row(Way, 2, 1.0, 1.0, "B", map["name" := "B"]),
              Row(Node, 1, 0.0, 0.0, "N/A", map[]),
              Row(Relation, 3, 2.0, 2.0, "N/A", map[]) ]
  {
    var els := ScenarioElements();
    ScenarioEntries();
    assert els == [els[0], els[1], els[2], els[3]];
    CollectRepeatedKey(Entry, els[0], els[1], els[2], els[3], (Way, 2), (Node, 1), (Relation, 3),
                       Row(Way, 2, 1.0, 1.0, "B", map["name" := "B"]), Row(Node, 1, 0.0, 0.0, "A", map["name" := "A"]),
                       Row(Relation, 3, 2.0, 2.0, "N/A", map[]), Row(Node, 1, 0.0, 0.0, "N/A", map[]));
  }

  lemma ScenarioSort()
    ensures var r0 := Row(Way, 2, 1.0, 1.0, "B", map["name" := "B"]);
            var r2 := Row(Relation, 3, 2.0, 2.0, "N/A", map[]);
            var r3 := Row(Node, 1, 0.0, 0.0, "N/A", map[]);
            Sort([r0, r3, r2], RowLe) == [r3, r0, r2]
  {
    var r0 := Row(Way, 2, 1.0, 1.0, "B", map["name" := "B"]);
    var r2 := Row(Relation, 3, 2.0, 2.0, "N/A", map[]);
    var r3 := Row(Node, 1, 0.0, 0.0, "N/A", map[]);
    SortThree(r0, r3, r2, RowLe);
  }

  lemma ScenarioKeys(a: Row, b: Row, c: Row)
    requires KeyOf(a) == (Node, 1) && KeyOf(b) == (Way, 2) && KeyOf(c) == (Relation, 3)
    ensures MapSeq(KeyOf, [a, b, c]) == [(Node, 1), (Way, 2), (Relation, 3)]
  {
  }

  /**
   * The determinism test: the keys come out as node 1, way 2, relation 3,
   * and node 1 carries the data of its last occurrence, which has no tags.
   */
  lemma DeterminismScenario()
    ensures Normalized(ScenarioElements()).Success?
    ensures MapSeq(KeyOf, Normalized(ScenarioElements()).value) == [(Node, 1), (Way, 2), (Relation, 3)]
    ensures Normalized(ScenarioElements()).value[0].name == "N/A"
  {
    var r0 := Row(Way, 2, 1.0, 1.0, "B", map["name" := "B"]);
    var r2 := Row(Relation, 3, 2.0, 2.0, "N/A", map[]);
    var r3 := Row(Node, 1, 0.0, 0.0, "N/A", map[]);
    ScenarioCollect();
    ScenarioSort();
    var out := Normalized(ScenarioElements());
    assert out == Success([r3, r0, r2]);
    ScenarioKeys(r3, r0, r2);
  }
}
