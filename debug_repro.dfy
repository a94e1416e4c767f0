/**
 * The reproducibility checker: `run_repro` fetches the same query `runs`
 * times and records, for every run, the element count and the
 * order-insensitive id hash; `compare_runs` reads the records back in file
 * name order and reports whether all of them carry one and the same hash.
 */
module DebugRepro {
  import opened Basics
  import opened Text
  import opened Sorting
  import opened Osm
  import opened Tags
  import opened OverpassClient

  // ---------------------------------------------------------------------
  // run_repro

  /** What stays fixed across the runs: the box, the UTM zone, the endpoint and the query built once. */
  datatype Setup = Setup(bbox: BBox, utmZone: int, overpassUrl: string, query: string)

  /** The dictionary written to `run_{i}.json`. */
  datatype RunRecord = RunRecord(
    run: nat,
    bbox: BBox,
    utmZone: int,
    overpassUrl: string,
    osmBaseTs: Option<string>,
    elementsCount: nat,
    idHash: string)

  datatype ReproError =
    | FetchRaised(error: FetchError)  // `client.fetch` gave up
    | ElementsIsNull                  // `elements_id_hash(None)`: the reply has `"elements": null`
    | Osm3sIsNull                     // `None.get(...)`: the reply has `"osm3s": null`

  /**
   * The loop's progress: the payloads of the runs that wrote a record, the
   * error that stopped the loop, the number of `fetch` calls and of HTTP
   * attempts made.
   */
  datatype Repro = Repro(payloads: seq<Payload>, error: Option<ReproError>, fetches: nat, attempts: nat)

  /**
   * The setup `run_repro` derives before the loop; `geometry` stands for
   * `bbox_wgs84_for_square_m` with its 1000 m side.
   */
  function SetupFor(lat: Option<real>, lon: Option<real>, filters: seq<string>, snapshot: Option<string>,
                    geometry: (real, real) -> (BBox, int)): Setup
  {
    var g := geometry(lat.GetOr(0.0), lon.GetOr(0.0));
    var client := DefaultClient();
    Setup(g.0, g.1, client.baseUrl, BuildQuery(client, g.0, filters, snapshot))
  }

  /**
   * `data.get('osm3s', {}).get('timestamp_osm_base')` for a reply whose
   * `osm3s` is not `null` (on `null` the loop raises before any record).
   */
  function OsmBaseTs(p: Payload): Option<string>
  {
    match p.osm3s
    case Present(o) => o.timestampOsmBase
    case _ => None
  }

  /** `elements_id_hash` for the hash function `hash`. */
  function IdHashOf(hash: string -> string): seq<Element> -> string
  {
    (els: seq<Element>) => ElementsIdHash(hash, els)
  }

  /** The record of run `i` from the payload its fetch returned; `idHash` hashes the elements. */
  function RecordOf(i: nat, s: Setup, p: Payload, idHash: seq<Element> -> string): RunRecord
  {
    var elements := ElementsOf(p);
    RunRecord(i, s.bbox, s.utmZone, s.overpassUrl, OsmBaseTs(p), |elements|, idHash(elements))
  }

  /** The records written for the payloads of the completed runs. */
  function RecordsOf(s: Setup, ps: seq<Payload>, idHash: seq<Element> -> string): (r: seq<RunRecord>)
    ensures |r| == |ps|
    ensures forall i :: 0 <= i < |ps| ==>
              && r[i].run == i && r[i].bbox == s.bbox && r[i].utmZone == s.utmZone
              && r[i].overpassUrl == s.overpassUrl && r[i].osmBaseTs == OsmBaseTs(ps[i])
              && r[i].elementsCount == |ElementsOf(ps[i])|
              && r[i].idHash == idHash(ElementsOf(ps[i]))
  {
    seq(|ps|, i requires 0 <= i < |ps| => RecordOf(i, s, ps[i], idHash))
  }

  /** `client.fetch(query)` with `retries` attempts, its first attempt being the `k`-th of the session. */
  function RunFetch(net: Network, q: string, retries: int): nat -> FetchRun
  {
    (k: nat) => FetchSpec(net, q, k, retries)
  }

  /**
   * One iteration from the state `prev`: a `fetch` from the next attempt
   * number on, which may raise, then the record, which raises on a `null`
   * `elements` (hashed first) and then on a `null` `osm3s`.
   */
  function ReproStep(fetch: nat -> FetchRun, start: nat, prev: Repro): (r: Repro)
    ensures r.fetches == prev.fetches + 1 && r.attempts >= prev.attempts
    ensures r.error.Some? ==> r.payloads == prev.payloads
    ensures r.error.None? ==>
              && |r.payloads| == |prev.payloads| + 1 && r.payloads[..|prev.payloads|] == prev.payloads
              && !r.payloads[|prev.payloads|].elements.Null? && !r.payloads[|prev.payloads|].osm3s.Null?
  {
    var run := fetch(start + prev.attempts);
    var attempts := prev.attempts + run.attempts;
    match run.result
    case Failure(e) => Repro(prev.payloads, Some(FetchRaised(e)), prev.fetches + 1, attempts)
    case Success(p) =>
      if p.elements.Null? then Repro(prev.payloads, Some(ElementsIsNull), prev.fetches + 1, attempts)
      else if p.osm3s.Null? then Repro(prev.payloads, Some(Osm3sIsNull), prev.fetches + 1, attempts)
      else Repro(prev.payloads + [p], None, prev.fetches + 1, attempts)
  }

  /**
   * A reply with `"elements": null` passes `fetch` and then raises while it
   * is hashed, before `osm3s` is read; no record is written.
   */
  lemma NullElementsRaise(fetch: nat -> FetchRun, start: nat, prev: Repro)
    requires var run := fetch(start + prev.attempts);
             run.result.Success? && run.result.value.elements.Null?
    ensures ReproStep(fetch, start, prev).error == Some(ElementsIsNull)
    ensures ReproStep(fetch, start, prev).payloads == prev.payloads
  {
  }

  /** The loop of `run_repro` after `n` iterations, or after the one that raised. */
  function ReproSpec(fetch: nat -> FetchRun, start: nat, n: nat): Repro
  {
    if n == 0 then Repro([], None, 0, 0)
    else
      var prev := ReproSpec(fetch, start, n - 1);
      if prev.error.Some? then prev else ReproStep(fetch, start, prev)
  }

  /** The number of iterations `range(runs)` makes. */
  function Iterations(runs: int): nat
  {
    if runs < 0 then 0 else runs
  }

  /**
   * `run_repro` over the parsed tag entries, returning the records it
   * writes; the clock, the directory name and the file writes are not
   * modelled.
   */
  method RunRepro(lat: Option<real>, lon: Option<real>, entries: seq<TagEntry>, runs: int, snapshot: Option<string>,
                  geometry: (real, real) -> (BBox, int), hash: string -> string, net: Network, start: nat)
    returns (setup: Setup, records: seq<RunRecord>, out: Repro)
    ensures setup == SetupFor(lat, lon, TagFilters(entries), snapshot, geometry)
    ensures out == ReproSpec(RunFetch(net, setup.query, DefaultRetries), start, Iterations(runs))
    ensures records == RecordsOf(setup, out.payloads, IdHashOf(hash))
  {
    var centerLat := if lat.Some? then lat.value else 0.0;
    var centerLon := if lon.Some? then lon.value else 0.0;
    var g := geometry(centerLat, centerLon);
    var filters := LoadTagFilters(entries);
    var client := DefaultClient();
    var query := BuildQuery(client, g.0, filters, snapshot);
    setup := Setup(g.0, g.1, client.baseUrl, query);
    var retries := DefaultRetries;
    records, out := RunLoop(setup, hash, net, start, retries, Iterations(runs));
  }

  /** The `for i in range(runs)` loop, with the query fixed in `setup`. */
  method RunLoop(setup: Setup, hash: string -> string, net: Network, start: nat, retries: int, n: nat)
    returns (records: seq<RunRecord>, out: Repro)
    ensures out == ReproSpec(RunFetch(net, setup.query, retries), start, n)
    ensures records == RecordsOf(setup, out.payloads, IdHashOf(hash))
  {
    ghost var fetch := RunFetch(net, setup.query, retries);
    out := Repro([], None, 0, 0);
    records := [];
    var i := 0;
    while i < n
      invariant i <= n && out.error.None? && |out.payloads| == i
      invariant out == ReproSpec(fetch, start, i)
      invariant records == RecordsOf(setup, out.payloads, IdHashOf(hash))
    {
      ReproNext(fetch, start, i);
      var next, rs := RunIteration(setup, hash, net, start, retries, out, records);
      out, records := next, rs;
      if out.error.Some? {
        ReproErrorPersists(fetch, start, i + 1, n);
        return;
      }
      i := i + 1;
    }
  }

  /** One iteration of the loop: the fetch, then the record of a reply with a usable `osm3s`. */
  method RunIteration(setup: Setup, hash: string -> string, net: Network, start: nat, retries: int,
                      prev: Repro, records: seq<RunRecord>)
    returns (next: Repro, records': seq<RunRecord>)
    requires prev.error.None? && records == RecordsOf(setup, prev.payloads, IdHashOf(hash))
    ensures next == ReproStep(RunFetch(net, setup.query, retries), start, prev)
    ensures records' == RecordsOf(setup, next.payloads, IdHashOf(hash))
  {
    next := RunOnce(setup, net, start, retries, prev);
    if next.error.Some? {
      records' := records;
    } else {
      var i := |prev.payloads|;
      var p := next.payloads[i];
      assert next.payloads == prev.payloads + [p];
      var elements := ElementsOf(p);
      var rec := RunRecord(i, setup.bbox, setup.utmZone, setup.overpassUrl, OsmBaseTs(p), |elements|, ElementsIdHash(hash, elements));
      RecordsSnoc(setup, prev.payloads, p, IdHashOf(hash));
      records' := records + [rec];
    }
  }

  /** One pass of the loop body up to the record: the fetch and the `osm3s` check. */
  method RunOnce(setup: Setup, net: Network, start: nat, retries: int, prev: Repro) returns (next: Repro)
    ensures next == ReproStep(RunFetch(net, setup.query, retries), start, prev)
  {
    var data := Fetch(setup.query, net, start + prev.attempts, retries);
    RunFetchApply(net, setup.query, retries, start + prev.attempts, data);
    ghost var step := StepWith(RunFetch(net, setup.query, retries), start, prev, data);
    var attempts := prev.attempts + data.attempts;
    if data.result.Failure? {
      next := Repro(prev.payloads, Some(FetchRaised(data.result.error)), prev.fetches + 1, attempts);
    } else if data.result.value.elements.Null? {
      next := Repro(prev.payloads, Some(ElementsIsNull), prev.fetches + 1, attempts);
    } else if data.result.value.osm3s.Null? {
      next := Repro(prev.payloads, Some(Osm3sIsNull), prev.fetches + 1, attempts);
    } else {
      next := Repro(prev.payloads + [data.result.value], None, prev.fetches + 1, attempts);
    }
  }

  lemma RunFetchApply(net: Network, q: string, retries: int, k: nat, run: FetchRun)
    requires run == FetchSpec(net, q, k, retries)
    ensures RunFetch(net, q, retries)(k) == run
  {
  }

  /** The step from `prev` when the fetch gives `run`. */
  lemma StepWith(fetch: nat -> FetchRun, start: nat, prev: Repro, run: FetchRun) returns (next: Repro)
    requires fetch(start + prev.attempts) == run
    ensures next == ReproStep(fetch, start, prev)
    ensures run.result.Failure? ==> next == Repro(prev.payloads, Some(FetchRaised(run.result.error)), prev.fetches + 1, prev.attempts + run.attempts)
    ensures run.result.Success? && run.result.value.elements.Null? ==> next == Repro(prev.payloads, Some(ElementsIsNull), prev.fetches + 1, prev.attempts + run.attempts)
    ensures run.result.Success? && !run.result.value.elements.Null? && run.result.value.osm3s.Null? ==> next == Repro(prev.payloads, Some(Osm3sIsNull), prev.fetches + 1, prev.attempts + run.attempts)
    ensures run.result.Success? && !run.result.value.elements.Null? && !run.result.value.osm3s.Null? ==> next == Repro(prev.payloads + [run.result.value], None, prev.fetches + 1, prev.attempts + run.attempts)
  {
    next := ReproStep(fetch, start, prev);
  }

  /** Without an error so far, the next iteration is one step. */
  lemma ReproNext(fetch: nat -> FetchRun, start: nat, i: nat)
    requires ReproSpec(fetch, start, i).error.None?
    ensures ReproSpec(fetch, start, i + 1) == ReproStep(fetch, start, ReproSpec(fetch, start, i))
  {
  }

  lemma RecordsSnoc(s: Setup, ps: seq<Payload>, p: Payload, idHash: seq<Element> -> string)
    ensures RecordsOf(s, ps + [p], idHash) == RecordsOf(s, ps, idHash) + [RecordOf(|ps|, s, p, idHash)]
  {
    assert (ps + [p])[|ps|] == p;
    assert forall i :: 0 <= i < |ps| ==> (ps + [p])[i] == ps[i];
  }

  /** Once a run has raised, later iteration counts change nothing. */
  lemma {:induction false} ReproErrorPersists(fetch: nat -> FetchRun, start: nat, m: nat, m': nat)
    requires m <= m' && ReproSpec(fetch, start, m).error.Some?
    ensures ReproSpec(fetch, start, m') == ReproSpec(fetch, start, m)
    decreases m' - m
  {
    if m < m' {
      ReproErrorPersists(fetch, start, m, m' - 1);
    }
  }

  // Properties

  /**
   * After `n` iterations: `fetch` was called once per record written and
   * once more if the loop stopped on an error; without an error there are
   * exactly `n` records; no recorded reply had a `null` `osm3s`.
   */
  lemma {:induction false} ReproShape(fetch: nat -> FetchRun, start: nat, n: nat)
    ensures var r := ReproSpec(fetch, start, n);
            && |r.payloads| <= n
            && r.fetches == |r.payloads| + (if r.error.Some? then 1 else 0)
            && (r.error.None? <==> |r.payloads| == n)
            && forall i :: 0 <= i < |r.payloads| ==> !r.payloads[i].elements.Null? && !r.payloads[i].osm3s.Null?
  {
    if n > 0 {
      ReproShape(fetch, start, n - 1);
      var prev := ReproSpec(fetch, start, n - 1);
      if prev.error.None? {
        var r := ReproStep(fetch, start, prev);
        if r.error.None? {
          assert forall i :: 0 <= i < |prev.payloads| ==> r.payloads[i] == prev.payloads[i];
        }
      }
    }
  }

  /** An unset latitude or longitude is taken as `0.0`. */
  lemma CenterDefaults(filters: seq<string>, snapshot: Option<string>, geometry: (real, real) -> (BBox, int))
    ensures SetupFor(None, None, filters, snapshot, geometry) == SetupFor(Some(0.0), Some(0.0), filters, snapshot, geometry)
  {
  }

  /**
   * Runs whose replies hold the same elements, in any order, get the same
   * id hash; with duplicates or different elements the hashes may differ.
   */
  lemma SameElementsSameHash(hash: string -> string, s: Setup, ps: seq<Payload>)
    requires forall i :: 0 <= i < |ps| ==> multiset(ElementsOf(ps[i])) == multiset(ElementsOf(ps[0]))
    ensures var rs := RecordsOf(s, ps, IdHashOf(hash));
            forall i :: 0 <= i < |rs| ==> rs[i].idHash == rs[0].idHash
  {
    forall i | 0 <= i < |ps| ensures RecordsOf(s, ps, IdHashOf(hash))[i].idHash == RecordsOf(s, ps, IdHashOf(hash))[0].idHash {
      ElementsIdHashPermutation(hash, ElementsOf(ps[i]), ElementsOf(ps[0]));
    }
  }

  /** `f'run_{i}.json'`. */
  function RunFileName(i: nat): string
  {
    "run_" + NatText(i) + ".json"
  }

  /**
   * File names sort as strings, so from eleven runs on `compare_runs` lists
   * `run_10` before `run_2`.
   */
  lemma RunFileNameOrder()
    ensures LexLt(RunFileName(10), RunFileName(2))
  {
    var p, x, y := "run_", "10.json", "2.json";
    assert NatText(10) == "10" && NatText(2) == "2";
    assert RunFileName(10) == p + x && RunFileName(2) == p + y;
    assert x[0] < y[0];
    LexLePrefix(p, x, y);
  }

  // ---------------------------------------------------------------------
  // compare_runs

  /** A parsed record file: its top-level members, each by the string it holds. */
  type RunFile = map<string, string>

  datatype Comparison = Comparison(runs: nat, stable: bool, hashes: seq<string>)

  /** `r['id_hash']` raising `KeyError` for the `index`-th record. */
  datatype CompareError = MissingIdHash(index: nat)

  predicate IsJsonName(fn: string)
  {
    EndsWith(fn, ".json")
  }

  /** The names `compare_runs` reads, in the order it reads them. */
  function JsonNames(names: seq<string>): seq<string>
  {
    Filter(IsJsonName, Sort(names, LexLe))
  }

  /** `[r['id_hash'] for r in runs]`. */
  function Hashes(runs: seq<RunFile>): (r: Result<seq<string>, CompareError>)
  {
    if |runs| == 0 then Success([])
    else if "id_hash" !in runs[0] then Failure(MissingIdHash(0))
    else match Hashes(runs[1..])
      case Success(hs) => Success([runs[0]["id_hash"]] + hs)
      case Failure(MissingIdHash(i)) => Failure(MissingIdHash(i + 1))
  }

  /** The dictionary `compare_runs` returns, or the error it raises. */
  function Compared(runs: seq<RunFile>): Result<Comparison, CompareError>
  {
    match Hashes(runs)
    case Failure(e) => Failure(e)
    case Success(hs) => Success(Comparison(|runs|, |Elements(hs)| == 1, hs))
  }

  /** `compare_runs` on a directory listing; `load` gives each file's parsed content. */
  method CompareRuns(names: seq<string>, load: string -> RunFile) returns (r: Result<Comparison, CompareError>)
    ensures r == Compared(MapSeq(load, JsonNames(names)))
  {
    var sorted := Sort(names, LexLe);
    var runs: seq<RunFile> := [];
    for k := 0 to |sorted|
      invariant runs == MapSeq(load, Filter(IsJsonName, sorted[..k]))
    {
      FilterStep(IsJsonName, sorted, k);
      if IsJsonName(sorted[k]) {
        MapSeqAppend(load, Filter(IsJsonName, sorted[..k]), [sorted[k]]);
        runs := runs + [load(sorted[k])];
      }
    }
    assert sorted[..|sorted|] == sorted;
    r := Compared(runs);
  }

  /** The hashes are read in record order, and `KeyError` names the first record without one. */
  lemma {:induction false} HashesIff(runs: seq<RunFile>)
    ensures Hashes(runs).Success? <==> forall i :: 0 <= i < |runs| ==> "id_hash" in runs[i]
    ensures Hashes(runs).Success? ==>
              |Hashes(runs).value| == |runs| && forall i :: 0 <= i < |runs| ==> Hashes(runs).value[i] == runs[i]["id_hash"]
    ensures Hashes(runs).Failure? ==>
              var k := Hashes(runs).error.index;
              k < |runs| && "id_hash" !in runs[k] && forall i :: 0 <= i < k ==> "id_hash" in runs[i]
  {
    if |runs| > 0 {
      HashesIff(runs[1..]);
      assert forall i :: 0 < i < |runs| ==> runs[1..][i - 1] == runs[i];
    }
  }

  /** A list of strings has one distinct value exactly when it is non-empty and constant. */
  lemma OneDistinctIff(hs: seq<string>)
    ensures |Elements(hs)| == 1 <==> |hs| > 0 && forall i :: 0 <= i < |hs| ==> hs[i] == hs[0]
  {
    if |hs| > 0 && forall i :: 0 <= i < |hs| ==> hs[i] == hs[0] {
      assert Elements(hs) == {hs[0]};
    }
    if |Elements(hs)| == 1 {
      var h :| h in Elements(hs);
      var rest := Elements(hs) - {h};
      assert Elements(hs) == rest + {h};
      assert rest == {};
    }
  }

  /**
   * `stable` holds exactly when there is at least one record and all records
   * carry the same hash, so an empty directory is not stable.
   */
  lemma StableIff(runs: seq<RunFile>)
    requires Compared(runs).Success?
    ensures var c := Compared(runs).value;
            && c.runs == |runs| == |c.hashes|
            && (forall i :: 0 <= i < |runs| ==> "id_hash" in runs[i] && c.hashes[i] == runs[i]["id_hash"])
            && (c.stable <==> |c.hashes| > 0 && forall i :: 0 <= i < |c.hashes| ==> c.hashes[i] == c.hashes[0])
  {
    HashesIff(runs);
    OneDistinctIff(Hashes(runs).value);
  }

  /** A directory without `.json` files compares as no runs, not stable. */
  lemma NoRunsNotStable(names: seq<string>, load: string -> RunFile)
    requires forall k :: 0 <= k < |names| ==> !IsJsonName(names[k])
    ensures Compared(MapSeq(load, JsonNames(names))) == Success(Comparison(0, false, []))
  {
    var j := JsonNames(names);
    if |j| > 0 {
      FilterMultiset(IsJsonName, Sort(names, LexLe), j[0]);
      assert false;
    }
  }

  /**
   * Only `.json` names are read, each as often as it is listed, and in
   * ascending string order.
   */
  lemma JsonNamesSpec(names: seq<string>)
    ensures SortedBy(JsonNames(names), LexLe)
    ensures forall fn :: multiset(JsonNames(names))[fn] == if IsJsonName(fn) then multiset(names)[fn] else 0
  {
    LexLeTotalPreorder();
    SortSorted(names, LexLe);
    FilterSorted(IsJsonName, Sort(names, LexLe), LexLe);
    forall fn ensures multiset(JsonNames(names))[fn] == if IsJsonName(fn) then multiset(names)[fn] else 0 {
      FilterMultiset(IsJsonName, Sort(names, LexLe), fn);
    }
  }
}
