/**
 * `write_outputs`: from the normalised rows and the run metadata it derives
 * the id list and its hash, a copy of the metadata carrying that hash, the
 * cells of `pois.csv` line by line, and the two output paths.  Writing the
 * files themselves is not modelled; the JSON file's content is the pair of
 * the new metadata and the rows.
 */
module IoUtils {
  import opened Basics
  import opened Text
  import opened Sorting
  import opened Osm
  import opened OrderedDict
  import opened Normalize
  import OverpassClient

  /**
   * A metadata value: a string, or any other JSON value given by the text
   * `csv.writer` prints for it and the text `json.dumps` gives for it.
   */
  datatype MetaValue = Str(s: string) | Other(text: string, json: string)

  /** The metadata dictionary, in insertion order. */
  type Meta = Dict<string, MetaValue>

  /** The cell `csv.writer` writes for a value. */
  function CellText(v: MetaValue): string
  {
    match v
    case Str(s) => s
    case Other(t, _) => t
  }

  /** `json.dumps(v)`; escaping inside strings is not modelled. */
  function JsonText(v: MetaValue): string
  {
    match v
    case Str(s) => "\"" + s + "\""
    case Other(_, j) => j
  }

  /** `f"{r['type']}:{r['id']}"`. */
  function IdEntry(r: Row): string
  {
    KindName(r.kind) + ":" + IntText(r.id)
  }

  /** `ids`, one entry per row in row order. */
  function IdList(rows: seq<Row>): seq<string>
  {
    MapSeq(IdEntry, rows)
  }

  /** `id_list_sha256`, for the hash function `hash`. */
  function IdListHash(hash: string -> string, rows: seq<Row>): string
  {
    hash(Join("|", IdList(rows)))
  }

  const IdListKey := "id_list_sha256"

  /** `meta.get(key, '')` as a cell. */
  function MetaCell(meta: Meta, key: string): string
  {
    if key in meta.entries then CellText(meta.entries[key]) else ""
  }

  /** `json.dumps(meta.get('bbox_wgs84', []))`. */
  function BBoxCell(meta: Meta): string
  {
    if "bbox_wgs84" in meta.entries then JsonText(meta.entries["bbox_wgs84"]) else "[]"
  }

  /** The labels of the metadata line, in order. */
  const MetaLabels: seq<string> :=
    ["# input_address", "center_lat", "center_lon", "utm_zone", "bbox_wgs84",
     "tagset_hash", "overpass_url", "osm_base_ts", "id_list_sha256"]

  /** The first line of `pois.csv`. */
  function MetaRow(meta: Meta, idHash: string): seq<string>
  {
    [ "# input_address", MetaCell(meta, "input_address"),
      "center_lat", MetaCell(meta, "center_lat"),
      "center_lon", MetaCell(meta, "center_lon"),
      "utm_zone", MetaCell(meta, "utm_zone"),
      "bbox_wgs84", BBoxCell(meta),
      "tagset_hash", MetaCell(meta, "tagset_hash"),
      "overpass_url", MetaCell(meta, "overpass_url"),
      "osm_base_ts", MetaCell(meta, "osm_base_ts"),
      "id_list_sha256", idHash ]
  }

  const Header: seq<string> := ["type", "id", "lat", "lon", "name"]

  /** One data line; `fixed8` is the `:.8f` formatter. */
  function DataRow(fixed8: real -> string, r: Row): seq<string>
  {
    [KindName(r.kind), IntText(r.id), fixed8(r.lat), fixed8(r.lon), r.name]
  }

  /** `os.path.join(dir, name)` on POSIX. */
  function PathJoin(dir: string, name: string): string
  {
    if |name| > 0 && name[0] == '/' then name
    else if |dir| == 0 || dir[|dir| - 1] == '/' then dir + name
    else dir + "/" + name
  }

  /** The two paths, the cells of every CSV line, and the JSON document `{'meta', 'rows'}`. */
  datatype Outputs = Outputs(csvPath: string, jsonPath: string, csv: seq<seq<string>>, meta: Meta, rows: seq<Row>)

  method WriteOutputs(rows: seq<Row>, outDir: string, meta: Meta, hash: string -> string, fixed8: real -> string)
    returns (out: Outputs)
    ensures out.meta.entries == meta.entries[IdListKey := Str(IdListHash(hash, rows))]
    ensures out.meta.order == if IdListKey in meta.entries then meta.order else meta.order + [IdListKey]
    ensures out.rows == rows
    ensures out.csvPath == PathJoin(outDir, "pois.csv") && out.jsonPath == PathJoin(outDir, "pois.json")
    ensures |out.csv| == 2 + |rows|
    ensures out.csv[0] == MetaRow(out.meta, IdListHash(hash, rows)) && out.csv[1] == Header
    ensures forall i :: 0 <= i < |rows| ==> out.csv[2 + i] == DataRow(fixed8, rows[i])
  {
    var ids := IdList(rows);
    var idHash := hash(Join("|", ids));
    var newMeta := meta.Put(IdListKey, Str(idHash));
    var csvPath := PathJoin(outDir, "pois.csv");
    var jsonPath := PathJoin(outDir, "pois.json");
    var lines := WriteDataRows([MetaRow(newMeta, idHash), Header], rows, fixed8);
    out := Outputs(csvPath, jsonPath, lines, newMeta, rows);
  }

  /** The `for r in rows: w.writerow(...)` loop, appending one line per row in row order. */
  method WriteDataRows(lines: seq<seq<string>>, rows: seq<Row>, fixed8: real -> string)
    returns (written: seq<seq<string>>)
    ensures |written| == |lines| + |rows| && written[..|lines|] == lines
    ensures forall i :: 0 <= i < |rows| ==> written[|lines| + i] == DataRow(fixed8, rows[i])
  {
    written := lines;
    for i := 0 to |rows|
      invariant |written| == |lines| + i && written[..|lines|] == lines
      invariant forall j :: 0 <= j < i ==> written[|lines| + j] == DataRow(fixed8, rows[j])
    {
      written := written + [DataRow(fixed8, rows[i])];
    }
  }

  // Properties

  /**
   * The metadata line is the nine labels, each followed by its value; its last
   * cell is the hash that the new metadata stores under `id_list_sha256`.
   */
  lemma MetaRowLayout(meta: Meta, idHash: string)
    ensures var row := MetaRow(meta.Put(IdListKey, Str(idHash)), idHash);
            && |row| == 2 * |MetaLabels|
            && (forall k :: 0 <= k < |MetaLabels| ==> row[2 * k] == MetaLabels[k])
            && row[|row| - 1] == MetaCell(meta.Put(IdListKey, Str(idHash)), IdListKey)
  {
  }

  /** Keys that are missing render as `''`, and a missing `bbox_wgs84` as `[]`. */
  lemma MetaRowDefaults(meta: Meta, idHash: string)
    requires forall k :: k in meta.entries ==> k == IdListKey
    ensures MetaRow(meta, idHash) ==
              [ "# input_address", "", "center_lat", "", "center_lon", "", "utm_zone", "",
                "bbox_wgs84", "[]", "tagset_hash", "", "overpass_url", "", "osm_base_ts", "",
                "id_list_sha256", idHash ]
  {
  }

  /** Only the eight named keys reach the metadata line; any others are written to the JSON file only. */
  lemma MetaRowReadsNamedKeys(a: Meta, b: Meta, idHash: string)
    requires forall k :: k in MetaLabels[1..8] || k == "input_address" ==>
               (k in a.entries <==> k in b.entries) && (k in a.entries ==> a.entries[k] == b.entries[k])
    ensures MetaRow(a, idHash) == MetaRow(b, idHash)
  {
    assert "input_address" == "input_address";
    assert MetaLabels[1..8] == ["center_lat", "center_lon", "utm_zone", "bbox_wgs84", "tagset_hash", "overpass_url", "osm_base_ts"];
  }

  /** The new metadata is the old one plus the single key `id_list_sha256`, and stays well formed. */
  lemma MetaCopy(meta: Meta, idHash: string)
    requires meta.Valid()
    ensures var m := meta.Put(IdListKey, Str(idHash));
            && m.Valid()
            && m.entries.Keys == meta.entries.Keys + {IdListKey}
            && m.entries[IdListKey] == Str(idHash)
            && forall k :: k in meta.entries && k != IdListKey ==> m.entries[k] == meta.entries[k]
  {
    PutValid(meta, IdListKey, Str(idHash));
  }

  /** The id string starts with the type's first letter. */
  lemma IdEntryHead(r: Row)
    ensures |IdEntry(r)| > 0 && IdEntry(r)[0] == KindName(r.kind)[0]
  {
  }

  /** Distinct `(type, id)` pairs give distinct id strings. */
  lemma IdEntryInjective(r: Row, s: Row)
    requires IdEntry(r) == IdEntry(s)
    ensures KeyOf(r) == KeyOf(s)
  {
    IdEntryHead(r);
    IdEntryHead(s);
    assert r.kind == s.kind;
    var n := |KindName(r.kind)| + 1;
    assert IdEntry(r)[n..] == IntText(r.id);
    assert IdEntry(s)[n..] == IntText(s.id);
    IntTextInjective(r.id, s.id);
  }

  /** The id list records exactly the rows' `(type, id)` sequence, order included. */
  lemma IdListIff(a: seq<Row>, b: seq<Row>)
    ensures IdList(a) == IdList(b) <==> MapSeq(KeyOf, a) == MapSeq(KeyOf, b)
  {
    if MapSeq(KeyOf, a) == MapSeq(KeyOf, b) {
      assert |a| == |b|;
      forall i | 0 <= i < |a| ensures IdList(a)[i] == IdList(b)[i] {
        assert KeyOf(a[i]) == MapSeq(KeyOf, a)[i] == MapSeq(KeyOf, b)[i] == KeyOf(b[i]);
      }
    }
    if IdList(a) == IdList(b) {
      assert |a| == |b|;
      forall i | 0 <= i < |a| ensures MapSeq(KeyOf, a)[i] == MapSeq(KeyOf, b)[i] {
        IdEntryInjective(a[i], b[i]);
      }
    }
  }

  /**
   * Fed with the output of `normalize_elements`, the id list depends only on
   * the set of valid keys in the input, and so does its hash.
   */
  lemma NormalizedIdListHash(hash: string -> string, a: seq<Element>, b: seq<Element>)
    requires Normalized(a).Success? && Normalized(b).Success?
    requires KeysOf(Entry, a) == KeysOf(Entry, b)
    ensures IdList(Normalized(a).value) == IdList(Normalized(b).value)
    ensures IdListHash(hash, Normalized(a).value) == IdListHash(hash, Normalized(b).value)
  {
    NormalizedOrderIndependent(a, b);
    IdListIff(Normalized(a).value, Normalized(b).value);
  }

  /**
   * An entry of this id list never equals an entry of `elements_id_hash`'s
   * list: one starts with the type name, the other with a digit.
   */
  lemma IdEntryNotElementIdString(r: Row, el: Element)
    ensures IdEntry(r) != OverpassClient.IdString(el)
  {
    IdEntryHead(r);
    assert OverpassClient.IdString(el)[0] == OverpassClient.TypePrefix(el.kind)[0];
  }

  /** The directory part `os.path.join` puts in front of a relative name. */
  function DirPrefix(dir: string): string
  {
    if |dir| == 0 || dir[|dir| - 1] == '/' then dir else dir + "/"
  }

  /** A relative name is appended to the directory, with a `/` between them unless one is there. */
  lemma PathJoinRelative(dir: string, name: string)
    requires |name| > 0 && name[0] != '/'
    ensures PathJoin(dir, name) == DirPrefix(dir) + name
    ensures EndsWith(PathJoin(dir, name), name)
  {
    AppendFrame(DirPrefix(dir), name);
  }

  /** Two relative names of different length give distinct paths in the same directory. */
  lemma OutputPaths(outDir: string)
    ensures PathJoin(outDir, "pois.csv") == DirPrefix(outDir) + "pois.csv"
    ensures PathJoin(outDir, "pois.json") == DirPrefix(outDir) + "pois.json"
    ensures PathJoin(outDir, "pois.csv") != PathJoin(outDir, "pois.json")
  {
    var c, j := "pois.csv", "pois.json";
    assert |c| == 8 && |j| == 9 && c[0] == 'p' && j[0] == 'p';
    PathJoinRelative(outDir, c);
    PathJoinRelative(outDir, j);
  }
}
