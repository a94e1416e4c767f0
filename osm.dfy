/**
 * The OpenStreetMap element records that the Overpass API returns as JSON
 * objects, with the distinctions the pipeline's code can observe: a key that
 * is missing, a key whose value is JSON `null`, and a present value.
 */
module Osm {
  import opened Basics

  /** A JSON object member: missing, `null`, or a value. */
  datatype Field<+T> = Absent | Null | Present(value: T)
  {
    /** `obj.get(key)` is `None` for a missing member and for `null` alike. */
    predicate IsNone()
    {
      !Present?
    }
  }

  /** The `center` object of a way or relation (`out center`). */
  datatype Center = Center(lat: Option<real>, lon: Option<real>)

  /**
   * One element of the `elements` array.  `kind` is the `type` member, and a
   * `None` coordinate is a missing or `null` one.  A `None` center stands
   * for a missing, `null` or empty `center` object, which the code replaces
   * by `{}` everywhere it reads one.
   */
  datatype Element = Element(
    kind: Option<string>,
    id: Field<int>,
    lat: Option<real>,
    lon: Option<real>,
    center: Option<Center>,
    tags: Field<map<string, string>>)

  /** The three OSM element types. */
  datatype Kind = Node | Way | Relation

  function KindName(k: Kind): string
  {
    match k
    case Node => "node"
    case Way => "way"
    case Relation => "relation"
  }

  /** The element type named by a `type` string, if it is one of the three. */
  function KindOf(s: Option<string>): (r: Option<Kind>)
    ensures r.Some? <==> s.Some? && s.value in {"node", "way", "relation"}
    ensures r.Some? ==> KindName(r.value) == s.value
  {
    if s == Some("node") then Some(Node)
    else if s == Some("way") then Some(Way)
    else if s == Some("relation") then Some(Relation)
    else None
  }

  lemma KindNameRoundTrip(k: Kind)
    ensures KindOf(Some(KindName(k))) == Some(k)
  {
  }

  /** `TYPE_ORDER`: node before way before relation. */
  function TypeOrder(k: Kind): (r: nat)
    ensures r < 3
    ensures r == 0 <==> k == Node
    ensures r == 2 <==> k == Relation
  {
    match k
    case Node => 0
    case Way => 1
    case Relation => 2
  }

  lemma TypeOrderInjective(a: Kind, b: Kind)
    requires TypeOrder(a) == TypeOrder(b)
    ensures a == b
  {
  }

  /** `el.get('center') or {}`. */
  function CenterOf(el: Element): Center
  {
    el.center.GetOr(Center(None, None))
  }
}
