/**
 * `OverpassClient`: the Overpass QL query it builds, the bounded retry loop
 * of `fetch` with capped exponential backoff and completeness checks, the
 * order-insensitive `elements_id_hash`, and `fetch_all_chunked`, which
 * splits the filter list into chunks, fetches them one after the other and
 * merges the elements by `(type, id)`.
 *
 * The HTTP server is a function from the attempt number (counted over the
 * whole session) and the query text to the reply it gives; the sleeps are
 * returned as the list of their durations in seconds.
 */
module OverpassClient {
  import opened Basics
  import opened Text
  import opened Sorting
  import opened Osm
  import opened OrderedDict

  /** The client's settings; no method changes them. */
  datatype Client = Client(baseUrl: string, timeoutS: int)

  function DefaultClient(): Client
  {
    Client("https://overpass-api.de/api/interpreter", 180)
  }

  // ---------------------------------------------------------------------
  // build_query

  /** `(south, west, north, east)`, each coordinate as Python's `str` renders it. */
  datatype BBox = BBox(south: string, west: string, north: string, east: string)

  function BBoxText(b: BBox): string
  {
    b.south + "," + b.west + "," + b.north + "," + b.east
  }

  /** One statement of the union, such as `node["amenity"](s,w,n,e);`. */
  function Selector(kind: string, flt: string, b: BBox): string
  {
    kind + flt + "(" + BBoxText(b) + ");"
  }

  /** The separator between union statements. */
  const Sep: string := "\n  "

  /** The three statements one filter contributes, in node, way, relation order. */
  function FilterSelectors(flt: string, b: BBox): seq<string>
  {
    [Selector("node", flt, b), Selector("way", flt, b), Selector("relation", flt, b)]
  }

  /** The list element the comprehension builds for one filter. */
  function FilterClause(flt: string, b: BBox): string
  {
    Selector("node", flt, b) + Sep + Selector("way", flt, b) + Sep + Selector("relation", flt, b)
  }

  function Clauses(filters: seq<string>, b: BBox): (r: seq<string>)
    ensures |r| == |filters|
  {
    if |filters| == 0 then [] else [FilterClause(filters[0], b)] + Clauses(filters[1..], b)
  }

  function Union(filters: seq<string>, b: BBox): string
  {
    Join(Sep, Clauses(filters, b))
  }

  /** The statements of the whole union, three per filter. */
  function AllSelectors(filters: seq<string>, b: BBox): (r: seq<string>)
    ensures |r| == 3 * |filters|
    ensures forall i :: 0 <= i < |filters| ==>
              r[3 * i] == Selector("node", filters[i], b) &&
              r[3 * i + 1] == Selector("way", filters[i], b) &&
              r[3 * i + 2] == Selector("relation", filters[i], b)
  {
    if |filters| == 0 then []
    else
      var rest := AllSelectors(filters[1..], b);
      assert forall i :: 1 <= i < |filters| ==> filters[i] == filters[1..][i - 1];
      FilterSelectors(filters[0], b) + rest
  }

  /** A snapshot pins the query only when it is a non-empty string. */
  predicate Pinned(snapshot: Option<string>)
  {
    snapshot.Some? && |snapshot.value| > 0
  }

  function DateClause(snapshot: Option<string>): string
  {
    if Pinned(snapshot) then "[date:\"" + snapshot.value + "\"]" else ""
  }

  /** The output format and timeout settings that open the query. */
  function Settings(timeoutS: int): string
  {
    "[out:json][timeout:" + IntText(timeoutS) + "]"
  }

  /** The first line of the query. */
  function QueryHeader(timeoutS: int, snapshot: Option<string>): string
  {
    Settings(timeoutS) + DateClause(snapshot) + ";"
  }

  /** The lines around the union, with the indentation of the source's template. */
  const QueryOpen: string := "\n        (\n          "
  const QueryClose: string := "\n        );\n        "
  const OutStatement: string := "out center tags;"

  /** The text of the query after `.strip()`. */
  function BuildQuery(c: Client, b: BBox, filters: seq<string>, snapshot: Option<string>): string
  {
    QueryHeader(c.timeoutS, snapshot) + QueryOpen + Union(filters, b) + QueryClose + OutStatement
  }

  /** The union is the statements of every filter, in filter order, joined by `Sep`. */
  lemma {:induction false} UnionIsSelectors(filters: seq<string>, b: BBox)
    ensures Union(filters, b) == Join(Sep, AllSelectors(filters, b))
  {
    if |filters| > 0 {
      var f := filters[0];
      var rest := filters[1..];
      var sel := FilterSelectors(f, b);
      var n, w, r := Selector("node", f, b), Selector("way", f, b), Selector("relation", f, b);
      assert sel[1..] == [w, r] && sel[1..][1..] == [r];
      assert Join(Sep, [w, r]) == w + Sep + r;
      assert Join(Sep, sel) == n + Sep + (w + Sep + r);
      assert Join(Sep, sel) == FilterClause(f, b);
      if |rest| == 0 {
        assert Clauses(filters, b) == [FilterClause(f, b)];
        assert AllSelectors(filters, b) == sel;
      } else {
        UnionIsSelectors(rest, b);
        assert Clauses(filters, b)[1..] == Clauses(rest, b);
        JoinAppend(Sep, sel, AllSelectors(rest, b));
      }
    }
  }

  /** The query's first line carries a `[date:"…"]` pin exactly when a non-empty snapshot is given. */
  lemma DatePinIff(timeoutS: int, snapshot: Option<string>)
    ensures Contains(QueryHeader(timeoutS, snapshot), "[date:\"") <==> Pinned(snapshot)
  {
    if Pinned(snapshot) {
      PinnedHeader(timeoutS, snapshot);
    } else {
      UnpinnedHeader(timeoutS, snapshot);
    }
  }

  lemma PinnedHeader(timeoutS: int, snapshot: Option<string>)
    requires Pinned(snapshot)
    ensures Contains(QueryHeader(timeoutS, snapshot), "[date:\"")
  {
    var pre, open, close := Settings(timeoutS), "[date:\"", "\"]";
    Regroup(pre, open, snapshot.value, close, ";");
    ContainsInMiddle(pre, open, snapshot.value + close + ";");
  }

  lemma UnpinnedHeader(timeoutS: int, snapshot: Option<string>)
    requires !Pinned(snapshot)
    ensures !Contains(QueryHeader(timeoutS, snapshot), "[date:\"")
  {
    var t := IntText(timeoutS);
    assert '"' !in t by {
      if timeoutS >= 0 {
        assert t == NatText(timeoutS);
      } else {
        assert t == "-" + NatText(-timeoutS);
        assert t[1..] == NatText(-timeoutS);
      }
    }
    assert '"' in "[date:\"" by { assert "[date:\""[6] == '"'; }
    NotContainedWithoutChar(QueryHeader(timeoutS, snapshot), "[date:\"", '"');
  }

  /** Moves the brackets of a five-part concatenation. */
  lemma Regroup(a: string, b: string, c: string, d: string, e: string)
    ensures a + (b + c + d) + e == a + b + (c + d + e)
  {
  }

  /** Moves the brackets of a seven-part concatenation. */
  lemma RegroupQuery(a: string, b: string, c: string, d: string, e: string, f: string, g: string)
    ensures a + b + c + d + e + f + g == a + b + (c + d + e + f + g)
  {
  }

  /** A given snapshot appears verbatim inside the pin, as the snapshot test expects. */
  lemma DatePinText(c: Client, b: BBox, filters: seq<string>, snapshot: Option<string>)
    requires Pinned(snapshot)
    ensures Contains(BuildQuery(c, b, filters, snapshot), DateClause(snapshot))
  {
    var pre, pin, u := Settings(c.timeoutS), DateClause(snapshot), Union(filters, b);
    var post := ";" + QueryOpen + u + QueryClose + OutStatement;
    RegroupQuery(pre, pin, ";", QueryOpen, u, QueryClose, OutStatement);
    ContainsInMiddle(pre, pin, post);
  }

  /** The query begins with the output and timeout settings and ends with the output statement. */
  lemma QueryFrame(c: Client, b: BBox, filters: seq<string>, snapshot: Option<string>)
    ensures Settings(c.timeoutS) <= BuildQuery(c, b, filters, snapshot)
    ensures EndsWith(BuildQuery(c, b, filters, snapshot), OutStatement)
  {
    var h := Settings(c.timeoutS);
    var s1 := h + DateClause(snapshot);
    var s2 := s1 + ";";
    var s3 := s2 + QueryOpen;
    var s4 := s3 + Union(filters, b);
    var s5 := s4 + QueryClose;
    AppendFrame(h, DateClause(snapshot));
    PrefixAppend(h, s1, ";");
    PrefixAppend(h, s2, QueryOpen);
    PrefixAppend(h, s3, Union(filters, b));
    PrefixAppend(h, s4, QueryClose);
    PrefixAppend(h, s5, OutStatement);
    AppendFrame(s5, OutStatement);
  }

  /** The snapshot test: any filters, pinned to 2025-09-01. */
  lemma SnapshotScenario(b: BBox, filters: seq<string>)
    ensures Contains(BuildQuery(DefaultClient(), b, filters, Some("2025-09-01T00:00:00Z")),
                     "[date:\"2025-09-01T00:00:00Z\"]")
  {
    var snapshot := Some("2025-09-01T00:00:00Z");
    assert DateClause(snapshot) == "[date:\"2025-09-01T00:00:00Z\"]";
    DatePinText(DefaultClient(), b, filters, snapshot);
  }

  // ---------------------------------------------------------------------
  // fetch

  /** The `osm3s` member of a reply. */
  datatype Osm3s = Osm3s(timestampOsmBase: Option<string>)

  /** The `{}` the code starts from when no `osm3s` was seen. */
  function EmptyOsm3s(): Osm3s
  {
    Osm3s(None)
  }

  /** The members of the JSON reply the client looks at; `elements` may be missing or `null`. */
  datatype Payload = Payload(remark: Option<string>, elements: Field<seq<Element>>, osm3s: Field<Osm3s>)

  /** `data.get('elements', [])` of a reply whose `elements` is not `null`. */
  function ElementsOf(p: Payload): seq<Element>
  {
    match p.elements
    case Present(els) => els
    case _ => []
  }

  datatype Body = NotJson | Json(payload: Payload)

  /** The outcome of one POST: no connection, or a status and a body. */
  datatype Reply = ConnectError | Http(status: int, body: Body)

  /** The reply the server gives to the `k`-th POST of a session carrying a query. */
  type Network = (nat, string) -> Reply

  datatype FetchError =
    | Transport                    // connection or timeout error of the POST
    | Busy(status: int)            // 429, 502, 503 or 504
    | BadStatus(status: int)       // any other status outside 2xx
    | BadJson                      // the body is not JSON
    | Truncated(remark: string)    // the remark reports an incomplete answer
    | NoElements                   // no `elements` member
    | AssertionFailed              // `max_retries` below 1: no attempt was made

  const BusyStatuses: set<int> := {429, 504, 502, 503}

  const TruncationPhrases: seq<string> := ["too many", "timeout", "runtime error", "limited"]

  predicate Truncating(remark: string)
  {
    exists i :: 0 <= i < |TruncationPhrases| && Contains(Lower(remark), TruncationPhrases[i])
  }

  /** The checks of one attempt, in the order the code applies them. */
  function Attempt(reply: Reply): (r: Result<Payload, FetchError>)
    ensures r.Success? <==>
              && reply.Http? && reply.status !in BusyStatuses && 200 <= reply.status < 300
              && reply.body.Json?
              && !(reply.body.payload.remark.Some? && Truncating(reply.body.payload.remark.value))
              && !reply.body.payload.elements.Absent?
    ensures r.Success? ==> r.value == reply.body.payload
  {
    match reply
    case ConnectError => Failure(Transport)
    case Http(status, body) =>
      if status in BusyStatuses then Failure(Busy(status))
      else if !(200 <= status < 300) then Failure(BadStatus(status))
      else match body
        case NotJson => Failure(BadJson)
        case Json(p) =>
          if p.remark.Some? && Truncating(p.remark.value) then Failure(Truncated(p.remark.value))
          else if p.elements.Absent? then Failure(NoElements)
          else Success(p)
  }

  /** The checks applied to the reply to POST number `start + j`. */
  function AttemptAt(net: Network, q: string, start: nat, j: nat): Result<Payload, FetchError>
  {
    Attempt(net(start + j, q))
  }

  function Pow2(i: nat): (r: nat)
    ensures r >= 1
  {
    if i == 0 then 1 else 2 * Pow2(i - 1)
  }

  /** The `i`-th sleep: `min(2^i, 30)` seconds. */
  function Backoff(i: nat): nat
  {
    if Pow2(i) < 30 then Pow2(i) else 30
  }

  function Backoffs(k: nat): (r: seq<nat>)
    ensures |r| == k && forall i :: 0 <= i < k ==> r[i] == Backoff(i)
  {
    seq(k, i requires 0 <= i < k => Backoff(i))
  }

  /** The closed form agrees with the update `backoff = min(backoff * 2, 30)` from 1. */
  lemma BackoffStep(i: nat)
    ensures Backoff(0) == 1
    ensures Backoff(i + 1) == Min(2 * Backoff(i), 30)
  {
  }

  lemma {:induction false} BackoffCapped(i: nat)
    requires i >= 5
    ensures Backoff(i) == 30
  {
    if i > 5 {
      BackoffCapped(i - 1);
    }
  }

  lemma BackoffValues()
    ensures Backoffs(7) == [1, 2, 4, 8, 16, 30, 30]
  {
    BackoffCapped(5);
    BackoffCapped(6);
  }

  /** The first attempt in `[i, n)` that passes every check. */
  function FirstOk(net: Network, q: string, start: nat, i: nat, n: nat): (r: Option<nat>)
    decreases n - i
    ensures r.Some? ==> i <= r.value < n && AttemptAt(net, q, start, r.value).Success?
                        && forall j :: i <= j < r.value ==> AttemptAt(net, q, start, j).Failure?
    ensures r.None? ==> forall j :: i <= j < n ==> AttemptAt(net, q, start, j).Failure?
  {
    if i >= n then None
    else if AttemptAt(net, q, start, i).Success? then Some(i)
    else FirstOk(net, q, start, i + 1, n)
  }

  /** What one call to `fetch` returns or raises, the sleeps it took and the POSTs it made. */
  datatype FetchRun = FetchRun(result: Result<Payload, FetchError>, sleeps: seq<nat>, attempts: nat)

  /**
   * What `fetch(query, max_retries)` does, one attempt at a time: after the
   * first `m - 1` attempts either the call has already returned, or attempt
   * `m - 1` is made; a failure there is what the call raises when `m` is the
   * budget. Without a single attempt the `assert last_exc is not None` fails.
   */
  function FetchSpec(net: Network, q: string, start: nat, maxRetries: int): (r: FetchRun)
    ensures r.result.Success? ==> r.attempts >= 1
    decreases if maxRetries < 0 then 0 else maxRetries
  {
    if maxRetries <= 0 then FetchRun(Failure(AssertionFailed), [], 0)
    else
      var prev := FetchSpec(net, q, start, maxRetries - 1);
      if prev.result.Success? then prev
      else match AttemptAt(net, q, start, maxRetries - 1)
        case Success(p) => FetchRun(Success(p), Backoffs(maxRetries - 1), maxRetries)
        case Failure(e) => FetchRun(Failure(e), Backoffs(maxRetries), maxRetries)
  }

  /**
   * The same call described through the first passing attempt: it returns
   * that attempt's payload after one sleep per earlier attempt, and raises the
   * last attempt's error once all `max_retries` attempts failed.
   */
  lemma {:induction false} FetchSpecFirstOk(net: Network, q: string, start: nat, maxRetries: int)
    ensures var n: nat := if maxRetries < 0 then 0 else maxRetries;
            FetchSpec(net, q, start, maxRetries) ==
              match FirstOk(net, q, start, 0, n)
              case Some(k) => FetchRun(Success(AttemptAt(net, q, start, k).value), Backoffs(k), k + 1)
              case None =>
                if n == 0 then FetchRun(Failure(AssertionFailed), [], 0)
                else FetchRun(Failure(AttemptAt(net, q, start, n - 1).error), Backoffs(n), n)
    decreases if maxRetries < 0 then 0 else maxRetries
  {
    if maxRetries > 0 {
      var m := maxRetries;
      FetchSpecFirstOk(net, q, start, m - 1);
      FirstOkExtend(net, q, start, m - 1);
    }
  }

  /** Widening the budget by one attempt only matters when every earlier attempt failed. */
  lemma FirstOkExtend(net: Network, q: string, start: nat, n: nat)
    ensures FirstOk(net, q, start, 0, n).Some? ==> FirstOk(net, q, start, 0, n + 1) == FirstOk(net, q, start, 0, n)
    ensures FirstOk(net, q, start, 0, n).None? ==>
              FirstOk(net, q, start, 0, n + 1) == if AttemptAt(net, q, start, n).Success? then Some(n) else None
  {
    var r, r' := FirstOk(net, q, start, 0, n), FirstOk(net, q, start, 0, n + 1);
    if r.Some? {
      FirstOkUnique(net, q, start, 0, n + 1, r.value);
    } else if AttemptAt(net, q, start, n).Success? {
      FirstOkUnique(net, q, start, 0, n + 1, n);
    }
  }

  /** `FirstOk` picks the one passing attempt that every earlier attempt of the range precedes failing. */
  lemma {:induction false} FirstOkUnique(net: Network, q: string, start: nat, i: nat, n: nat, k: nat)
    requires i <= k < n && AttemptAt(net, q, start, k).Success?
    requires forall j :: i <= j < k ==> AttemptAt(net, q, start, j).Failure?
    ensures FirstOk(net, q, start, i, n) == Some(k)
    decreases n - i
  {
    if i < k {
      FirstOkUnique(net, q, start, i + 1, n, k);
    }
  }

  /** `fetch(query, max_retries)`, its POSTs numbered from `start`. */
  method Fetch(q: string, net: Network, start: nat, maxRetries: int) returns (run: FetchRun)
    ensures run == FetchSpec(net, q, start, maxRetries)
  {
    var backoff: nat := 1;
    var lastExc: Option<FetchError> := None;
    var sleeps: seq<nat> := [];
    var attempt: nat := 0;
    while attempt < maxRetries
      invariant attempt == 0 || attempt <= maxRetries
      invariant sleeps == Backoffs(attempt) && backoff == Backoff(attempt)
      invariant attempt == 0 <==> lastExc.None?
      invariant FetchSpec(net, q, start, attempt) ==
                FetchRun(Failure(if attempt == 0 then AssertionFailed else lastExc.value), sleeps, attempt)
    {
      var r := AttemptAt(net, q, start, attempt);
      if r.Success? {
        run := FetchRun(Success(r.value), sleeps, attempt + 1);
        FetchSuccessPersists(net, q, start, attempt + 1, maxRetries);
        return;
      }
      lastExc := Some(r.error);
      sleeps := sleeps + [backoff];
      BackoffStep(attempt);
      backoff := Min(backoff * 2, 30);
      attempt := attempt + 1;
    }
    if lastExc.None? {
      return FetchRun(Failure(AssertionFailed), sleeps, attempt);
    }
    return FetchRun(Failure(lastExc.value), sleeps, attempt);
  }

  /** Once a call with some budget returns, a larger budget returns the same. */
  lemma {:induction false} FetchSuccessPersists(net: Network, q: string, start: nat, m: int, m': int)
    requires m <= m' && FetchSpec(net, q, start, m).result.Success?
    ensures FetchSpec(net, q, start, m') == FetchSpec(net, q, start, m)
    decreases m' - m
  {
    if m < m' {
      FetchSuccessPersists(net, q, start, m, m' - 1);
    }
  }

  /**
   * `fetch` makes at most `max_retries` POSTs, and sleeps once after every
   * failed one, including the last.
   */
  lemma FetchBounds(net: Network, q: string, start: nat, maxRetries: int)
    ensures var run := FetchSpec(net, q, start, maxRetries);
            && run.attempts <= (if maxRetries < 0 then 0 else maxRetries)
            && run.sleeps == Backoffs(if run.result.Success? then run.attempts - 1 else run.attempts)
  {
    FetchSpecFirstOk(net, q, start, maxRetries);
  }

  /**
   * `fetch` returns exactly when some attempt within the budget passes all
   * checks, and then it returns the payload of the first such attempt.
   */
  lemma FetchSucceedsIff(net: Network, q: string, start: nat, maxRetries: int)
    ensures var run := FetchSpec(net, q, start, maxRetries);
            run.result.Success? <==> exists k :: 0 <= k < maxRetries && AttemptAt(net, q, start, k).Success?
    ensures var run := FetchSpec(net, q, start, maxRetries);
            run.result.Success? ==>
              && AttemptAt(net, q, start, run.attempts - 1) == Success(run.result.value)
              && forall j :: 0 <= j < run.attempts - 1 ==> AttemptAt(net, q, start, j).Failure?
  {
    var n: nat := if maxRetries < 0 then 0 else maxRetries;
    FetchSpecFirstOk(net, q, start, maxRetries);
    if k :| 0 <= k < maxRetries && AttemptAt(net, q, start, k).Success? {
      assert FirstOk(net, q, start, 0, n).Some?;
    }
  }

  /** Once every attempt failed, the last attempt's error is raised after `max_retries` sleeps. */
  lemma FetchAllFail(net: Network, q: string, start: nat, maxRetries: int)
    requires maxRetries >= 1
    requires forall k :: 0 <= k < maxRetries ==> AttemptAt(net, q, start, k).Failure?
    ensures FetchSpec(net, q, start, maxRetries) ==
            FetchRun(Failure(AttemptAt(net, q, start, maxRetries - 1).error), Backoffs(maxRetries), maxRetries)
  {
    FetchSpecFirstOk(net, q, start, maxRetries);
  }

  /** With no attempt allowed, the `assert last_exc is not None` fails. */
  lemma FetchWithoutRetries(net: Network, q: string, start: nat, maxRetries: int)
    requires maxRetries <= 0
    ensures FetchSpec(net, q, start, maxRetries) == FetchRun(Failure(AssertionFailed), [], 0)
  {
  }

  /** Four busy replies then a complete one: the fifth POST succeeds after sleeping 1, 2, 4, 8. */
  lemma BusyThenOkScenario(net: Network, q: string, p: Payload)
    requires forall k :: k < 4 ==> net(k, q) == Http(503, NotJson)
    requires net(4, q) == Http(200, Json(p)) && p.remark.None? && !p.elements.Absent?
    ensures FetchSpec(net, q, 0, 5) == FetchRun(Success(p), [1, 2, 4, 8], 5)
  {
    assert forall k :: 0 <= k < 4 ==> AttemptAt(net, q, 0, k) == Failure(Busy(503));
    assert FirstOk(net, q, 0, 0, 5) == Some(4);
    assert Backoffs(4) == [1, 2, 4, 8];
    FetchSpecFirstOk(net, q, 0, 5);
  }

  /** Five busy replies: `Busy(503)` is raised after sleeping 1, 2, 4, 8, 16. */
  lemma AlwaysBusyScenario(net: Network, q: string)
    requires forall k :: k < 5 ==> net(k, q) == Http(503, NotJson)
    ensures FetchSpec(net, q, 0, 5) == FetchRun(Failure(Busy(503)), [1, 2, 4, 8, 16], 5)
  {
    assert forall k :: 0 <= k < 5 ==> AttemptAt(net, q, 0, k) == Failure(Busy(503));
    assert Backoffs(5) == [1, 2, 4, 8, 16];
    FetchAllFail(net, q, 0, 5);
  }

  /** An Overpass "runtime error" remark makes an otherwise complete reply a failed attempt. */
  lemma RuntimeErrorRemarkFails(remark: string, els: seq<Element>)
    requires Contains(Lower(remark), "runtime error")
    ensures Attempt(Http(200, Json(Payload(Some(remark), Present(els), Absent)))) == Failure(Truncated(remark))
  {
    assert Contains(Lower(remark), TruncationPhrases[2]);
  }

  // ---------------------------------------------------------------------
  // elements_id_hash

  /** `type_order.get(el.get('type', ''), '9')`. */
  function TypePrefix(kind: Option<string>): string
  {
    if kind == Some("node") then "0"
    else if kind == Some("way") then "1"
    else if kind == Some("relation") then "2"
    else "9"
  }

  /** `f"{el.get('id', '')}"`: empty when missing, `None` when null. */
  function IdText(id: Field<int>): string
  {
    match id
    case Absent => ""
    case Null => "None"
    case Present(i) => IntText(i)
  }

  function IdString(el: Element): string
  {
    TypePrefix(el.kind) + ":" + IdText(el.id)
  }

  /** The sorted id strings, one per element, duplicates kept. */
  function IdStrings(els: seq<Element>): (r: seq<string>)
    ensures multiset(r) == multiset(MapSeq(IdString, els)) && |r| == |els|
  {
    Sort(MapSeq(IdString, els), LexLe)
  }

  function ElementsIdHash(hash: string -> string, els: seq<Element>): string
  {
    hash(Join("|", IdStrings(els)))
  }

  /** The id strings come out in ascending string order. */
  lemma IdStringsSorted(els: seq<Element>)
    ensures SortedBy(IdStrings(els), LexLe)
  {
    LexLeTotalPreorder();
    SortSorted(MapSeq(IdString, els), LexLe);
  }

  /** The hash does not depend on the order of the elements. */
  lemma ElementsIdHashPermutation(hash: string -> string, a: seq<Element>, b: seq<Element>)
    requires multiset(a) == multiset(b)
    ensures ElementsIdHash(hash, a) == ElementsIdHash(hash, b)
  {
    LexLeTotalPreorder();
    var ia, ib := MapSeq(IdString, a), MapSeq(IdString, b);
    MapSeqPermutation(IdString, a, b);
    SortPermutationInvariant(ia, ib, LexLe);
  }

  /** A repeated element is hashed twice: duplicates are not removed. */
  lemma IdStringsKeepDuplicates(el: Element)
    ensures IdStrings([el, el]) == [IdString(el), IdString(el)]
  {
    var s := IdString(el);
    LexLeReflexive(s);
    assert MapSeq(IdString, [el, el]) == [s, s];
    SortPair(s, s, LexLe);
  }

  // ---------------------------------------------------------------------
  // fetch_all_chunked

  /** `[filters[i:i+size] for i in range(0, len(filters), size)]`. */
  function Chunks(filters: seq<string>, size: nat): (r: seq<seq<string>>)
    requires size > 0
    decreases |filters|
  {
    if |filters| == 0 then []
    else
      var m := Min(size, |filters|);
      [filters[..m]] + Chunks(filters[m..], size)
  }

  function Flatten<T>(ss: seq<seq<T>>): seq<T>
  {
    if |ss| == 0 then [] else ss[0] + Flatten(ss[1..])
  }

  /** The chunks, concatenated, give back the filter list. */
  lemma {:induction false} ChunksCover(filters: seq<string>, size: nat)
    requires size > 0
    ensures Flatten(Chunks(filters, size)) == filters
  {
    if |filters| > 0 {
      var m := Min(size, |filters|);
      ChunksCover(filters[m..], size);
      assert Chunks(filters, size)[1..] == Chunks(filters[m..], size);
      assert filters == filters[..m] + filters[m..];
    }
  }

  lemma MulSucc(k: nat, size: nat)
    ensures (k + 1) * size == k * size + size
  {
  }

  /**
   * The number of chunks is `ceil(n / size)`: the least count of chunks of
   * `size` filters that reaches the end of the list.
   */
  lemma {:induction false} ChunkCount(filters: seq<string>, size: nat)
    requires size > 0
    ensures |Chunks(filters, size)| * size >= |filters|
    ensures |Chunks(filters, size)| > 0 ==> (|Chunks(filters, size)| - 1) * size < |filters|
  {
    if |filters| > size {
      var rest := filters[size..];
      ChunkCount(rest, size);
      var k := |Chunks(rest, size)|;
      assert |Chunks(filters, size)| == k + 1;
      assert k > 0;
      MulSucc(k - 1, size);
      MulSucc(k, size);
    }
  }

  /** Every chunk holds between 1 and `size` filters, and all but the last exactly `size`. */
  lemma {:induction false} ChunkSizes(filters: seq<string>, size: nat)
    requires size > 0
    ensures forall c :: 0 <= c < |Chunks(filters, size)| ==> 1 <= |Chunks(filters, size)[c]| <= size
    ensures forall c :: 0 <= c < |Chunks(filters, size)| - 1 ==> |Chunks(filters, size)[c]| == size
  {
    if |filters| > 0 {
      var m := Min(size, |filters|);
      ChunkSizes(filters[m..], size);
      assert Chunks(filters, size)[1..] == Chunks(filters[m..], size);
    }
  }

  /** What is left after the chunk starting at `i`. */
  lemma ChunksFrom(filters: seq<string>, size: nat, i: nat)
    requires size > 0 && i < |filters|
    ensures var cs := Chunks(filters[i..], size);
            |cs| > 0 && cs[0] == filters[i..Min(i + size, |filters|)]
            && cs[1..] == Chunks(filters[Min(i + size, |filters|)..], size)
  {
    var t := filters[i..];
    var m := Min(size, |t|);
    assert t[..m] == filters[i..Min(i + size, |filters|)];
    assert t[m..] == filters[Min(i + size, |filters|)..];
  }

  /**
   * The loop of `fetch_all_chunked` walks the chunks: when the chunks from
   * `i` on are the last ones of `cs`, the slice at `i` is the next chunk,
   * and the chunks from `i + size` on are the ones after it.
   */
  lemma ChunksAdvance(filters: seq<string>, size: nat, cs: seq<seq<string>>, i: nat, n: nat)
    requires size > 0 && i < |filters| && n <= |cs| && Chunks(filters[i..], size) == cs[n..]
    ensures n < |cs| && cs[n] == filters[i..Min(i + size, |filters|)]
    ensures i + size < |filters| ==> Chunks(filters[i + size..], size) == cs[n + 1..]
    ensures i + size >= |filters| ==> n + 1 == |cs|
  {
    ChunksFrom(filters, size, i);
    assert cs[n..][1..] == cs[n + 1..];
    if i + size >= |filters| {
      assert filters[|filters|..] == [];
    }
  }

  /** The retries `fetch_all_chunked` leaves `fetch` with. */
  const DefaultRetries: int := 5

  /** `fetch` of a chunk's query at POST number `s`. */
  function ChunkFetch(c: Client, net: Network, b: BBox, snapshot: Option<string>, retries: int): (seq<string>, nat) -> FetchRun
  {
    (chunk: seq<string>, s: nat) => FetchSpec(net, BuildQuery(c, b, chunk, snapshot), s, retries)
  }

  /** `fetch` called on each chunk in turn, stopping at the first one that raises. */
  datatype SeriesRun = SeriesRun(payloads: seq<Payload>, error: Option<ChunkedError>, sleeps: seq<nat>, attempts: nat)

  function FetchSeries(fetch: (seq<string>, nat) -> FetchRun, chunks: seq<seq<string>>, start: nat): (r: SeriesRun)
    ensures |r.payloads| <= |chunks|
    ensures r.error.None? ==> |r.payloads| == |chunks|
  {
    if |chunks| == 0 then SeriesRun([], None, [], 0)
    else
      var prev := FetchSeries(fetch, chunks[..|chunks| - 1], start);
      if prev.error.Some? then prev
      else
        var run := fetch(chunks[|chunks| - 1], start + prev.attempts);
        match run.result
        case Success(p) =>
          if p.elements.Null? then SeriesRun(prev.payloads, Some(ElementsNotIterable), prev.sleeps + run.sleeps, prev.attempts + run.attempts)
          else SeriesRun(prev.payloads + [p], None, prev.sleeps + run.sleeps, prev.attempts + run.attempts)
        case Failure(e) => SeriesRun(prev.payloads, Some(FetchFailed(e)), prev.sleeps + run.sleeps, prev.attempts + run.attempts)
  }

  /** A complete 200 reply whose `elements` is `null` passes every check of an attempt. */
  lemma NullElementsPassAttempt(p: Payload)
    requires p.remark.None? && p.elements.Null?
    ensures Attempt(Http(200, Json(p))) == Success(p)
  {
  }

  /**
   * A chunk whose `fetch` returns a reply with `"elements": null` ends the
   * series with the `TypeError` of `for el in None`: its elements are not
   * merged and no later chunk is sent.
   */
  lemma NullElementsStopSeries(fetch: (seq<string>, nat) -> FetchRun, chunks: seq<seq<string>>, start: nat, n: nat)
    requires n < |chunks|
    requires FetchSeries(fetch, chunks[..n], start).error.None?
    requires var run := fetch(chunks[n], start + FetchSeries(fetch, chunks[..n], start).attempts);
             run.result.Success? && run.result.value.elements.Null?
    ensures FetchSeries(fetch, chunks, start).error == Some(ElementsNotIterable)
    ensures FetchSeries(fetch, chunks, start).payloads == FetchSeries(fetch, chunks[..n], start).payloads
  {
    var prev := FetchSeries(fetch, chunks[..n], start);
    var run := fetch(chunks[n], start + prev.attempts);
    TakeNext(chunks, n);
    SeriesSnoc(fetch, chunks[..n], chunks[n], start, prev, start + prev.attempts, run);
    SeriesErrorPersists(fetch, chunks, start, n + 1);
  }

  /** Once a chunk's fetch raised, the later chunks are never sent. */
  lemma {:induction false} SeriesErrorPersists(fetch: (seq<string>, nat) -> FetchRun, chunks: seq<seq<string>>,
                                               start: nat, n: nat)
    requires n <= |chunks| && FetchSeries(fetch, chunks[..n], start).error.Some?
    ensures FetchSeries(fetch, chunks, start) == FetchSeries(fetch, chunks[..n], start)
  {
    if n < |chunks| {
      var t := chunks[..|chunks| - 1];
      assert t[..n] == chunks[..n];
      SeriesErrorPersists(fetch, t, start, n);
    } else {
      assert chunks[..n] == chunks;
    }
  }

  /** The payloads' elements, in fetch order. */
  function AllElements(ps: seq<Payload>): seq<Element>
  {
    if |ps| == 0 then [] else AllElements(ps[..|ps| - 1]) + ElementsOf(ps[|ps| - 1])
  }

  /** `data.get('osm3s', osm3s)` over the payloads, from `{}`; `None` is a JSON `null`. */
  function LastOsm3s(ps: seq<Payload>): Option<Osm3s>
  {
    if |ps| == 0 then Some(EmptyOsm3s())
    else
      match ps[|ps| - 1].osm3s
      case Absent => LastOsm3s(ps[..|ps| - 1])
      case Null => None
      case Present(o) => Some(o)
  }

  type ElementKey = (string, int)

  /** `all_elements[(type, id)] = el`, unless the type or id is missing. */
  function ElementEntry(el: Element): Option<(ElementKey, Element)>
  {
    if el.kind.Some? && el.id.Present? then Some(((el.kind.value, el.id.value), el)) else None
  }

  datatype Chunked = Chunked(osm3s: Option<Osm3s>, elements: seq<Element>)

  datatype ChunkedError =
    | StepIsZero             // `range` with step 0 raises `ValueError`
    | FetchFailed(error: FetchError)
    | ElementsNotIterable    // `for el in None`: a reply whose `elements` is `null`

  datatype ChunkedRun = ChunkedRun(result: Result<Chunked, ChunkedError>, sleeps: seq<nat>, attempts: nat)

  function FetchAllChunkedSpec(c: Client, net: Network, start: nat, b: BBox, filters: seq<string>,
                               snapshot: Option<string>, chunkSize: int): ChunkedRun
  {
    if chunkSize == 0 then ChunkedRun(Failure(StepIsZero), [], 0)
    else if chunkSize < 0 then ChunkedRun(Success(Chunked(Some(EmptyOsm3s()), [])), [], 0)
    else
      var s := FetchSeries(ChunkFetch(c, net, b, snapshot, DefaultRetries), Chunks(filters, chunkSize), start);
      match s.error
      case Some(e) => ChunkedRun(Failure(e), s.sleeps, s.attempts)
      case None =>
        var merged := Collect(ElementEntry, AllElements(s.payloads));
        ChunkedRun(Success(Chunked(LastOsm3s(s.payloads), merged.Values())), s.sleeps, s.attempts)
  }

  lemma TakeNext<T>(s: seq<T>, n: nat)
    requires n < |s|
    ensures s[..n + 1] == s[..n] + [s[n]]
  {
  }

  /** One more chunk in the series, when none before it raised. */
  lemma SeriesSnoc(fetch: (seq<string>, nat) -> FetchRun, chunks: seq<seq<string>>, chunk: seq<string>,
                   start: nat, prev: SeriesRun, cursor: nat, run: FetchRun)
    requires FetchSeries(fetch, chunks, start) == prev && prev.error.None?
    requires cursor == start + prev.attempts && run == fetch(chunk, cursor)
    ensures run.result.Success? && !run.result.value.elements.Null? ==>
              FetchSeries(fetch, chunks + [chunk], start)
              == SeriesRun(prev.payloads + [run.result.value], None, prev.sleeps + run.sleeps, prev.attempts + run.attempts)
    ensures run.result.Success? && run.result.value.elements.Null? ==>
              FetchSeries(fetch, chunks + [chunk], start)
              == SeriesRun(prev.payloads, Some(ElementsNotIterable), prev.sleeps + run.sleeps, prev.attempts + run.attempts)
    ensures run.result.Failure? ==>
              FetchSeries(fetch, chunks + [chunk], start)
              == SeriesRun(prev.payloads, Some(FetchFailed(run.result.error)), prev.sleeps + run.sleeps, prev.attempts + run.attempts)
  {
    var cs := chunks + [chunk];
    assert cs[..|cs| - 1] == chunks;
    assert cs[|cs| - 1] == chunk;
  }

  /** One more payload: its elements come last and its `osm3s`, if present, wins. */
  lemma PayloadStep(ps: seq<Payload>, p: Payload)
    ensures AllElements(ps + [p]) == AllElements(ps) + ElementsOf(p)
    ensures LastOsm3s(ps + [p]) == match p.osm3s
                                   case Absent => LastOsm3s(ps)
                                   case Null => None
                                   case Present(o) => Some(o)
  {
    assert (ps + [p])[..|ps|] == ps;
  }

  /** The inner loop of `fetch_all_chunked`: one payload's elements into `all_elements`. */
  method MergeElements(d: Dict<ElementKey, Element>, ghost before: seq<Element>, els: seq<Element>)
    returns (r: Dict<ElementKey, Element>)
    requires d == Collect(ElementEntry, before)
    ensures r == Collect(ElementEntry, before + els)
  {
    r := d;
    var j := 0;
    assert before + els[..0] == before;
    while j < |els|
      invariant j <= |els|
      invariant r == Collect(ElementEntry, before + els[..j])
    {
      var el := els[j];
      CollectSnoc(ElementEntry, before + els[..j], el);
      assert before + els[..j] + [el] == before + els[..j + 1];
      if el.kind.None? || el.id.IsNone() {
        j := j + 1;
        continue;
      }
      r := r.Put((el.kind.value, el.id.value), el);
      j := j + 1;
    }
    assert els[..j] == els;
  }

  /**
   * One pass of the chunk loop: the chunk's query is fetched, and on success
   * its `osm3s` and its elements are taken in.
   */
  method FetchChunk(c: Client, net: Network, b: BBox, snapshot: Option<string>, chunk: seq<string>,
                    ghost chunks: seq<seq<string>>, ghost start: nat, ghost payloads: seq<Payload>,
                    sleeps: seq<nat>, cursor: nat, allElements: Dict<ElementKey, Element>, osm3s: Option<Osm3s>)
    returns (err: Option<ChunkedError>, sleeps': seq<nat>, cursor': nat, ghost payloads': seq<Payload>,
             allElements': Dict<ElementKey, Element>, osm3s': Option<Osm3s>)
    requires cursor >= start
    requires FetchSeries(ChunkFetch(c, net, b, snapshot, DefaultRetries), chunks, start)
             == SeriesRun(payloads, None, sleeps, cursor - start)
    requires allElements == Collect(ElementEntry, AllElements(payloads)) && osm3s == LastOsm3s(payloads)
    ensures cursor' >= cursor
    ensures FetchSeries(ChunkFetch(c, net, b, snapshot, DefaultRetries), chunks + [chunk], start)
            == SeriesRun(payloads', err, sleeps', cursor' - start)
    ensures allElements' == Collect(ElementEntry, AllElements(payloads')) && osm3s' == LastOsm3s(payloads')
  {
    ghost var fetch := ChunkFetch(c, net, b, snapshot, DefaultRetries);
    var q := BuildQuery(c, b, chunk, snapshot);
    var r := Fetch(q, net, cursor, DefaultRetries);
    assert r == fetch(chunk, cursor);
    SeriesSnoc(fetch, chunks, chunk, start, SeriesRun(payloads, None, sleeps, cursor - start), cursor, r);
    sleeps' := sleeps + r.sleeps;
    cursor' := cursor + r.attempts;
    if r.result.Failure? {
      err, payloads', allElements', osm3s' := Some(FetchFailed(r.result.error)), payloads, allElements, osm3s;
      return;
    }
    var data := r.result.value;
    if data.elements.Null? {
      err, payloads', allElements', osm3s' := Some(ElementsNotIterable), payloads, allElements, osm3s;
      return;
    }
    err := None;
    osm3s' := match data.osm3s
      case Absent => osm3s
      case Null => None
      case Present(o) => Some(o);
    allElements' := MergeElements(allElements, AllElements(payloads), ElementsOf(data));
    PayloadStep(payloads, data);
    payloads' := payloads + [data];
  }

  /**
   * The `for i in range(0, len(filters), chunk_size)` loop of
   * `fetch_all_chunked` for a positive step: the chunks are fetched in turn
   * until one raises, `osm3s` follows the payloads and `all_elements` takes
   * in their elements.
   */
  method FetchChunks(c: Client, net: Network, b: BBox, snapshot: Option<string>, filters: seq<string>, size: nat, start: nat)
    returns (err: Option<ChunkedError>, sleeps: seq<nat>, cursor: nat, ghost payloads: seq<Payload>,
             allElements: Dict<ElementKey, Element>, osm3s: Option<Osm3s>)
    requires size > 0
    ensures cursor >= start
    ensures FetchSeries(ChunkFetch(c, net, b, snapshot, DefaultRetries), Chunks(filters, size), start)
            == SeriesRun(payloads, err, sleeps, cursor - start)
    ensures allElements == Collect(ElementEntry, AllElements(payloads)) && osm3s == LastOsm3s(payloads)
  {
    var retries := DefaultRetries;
    ghost var fetch := ChunkFetch(c, net, b, snapshot, retries);
    ghost var cs := Chunks(filters, size);
    sleeps, cursor, payloads := [], start, [];
    allElements, osm3s := Empty(), Some(EmptyOsm3s());
    ghost var n := 0;
    var i: nat := 0;
    assert filters[0..] == filters;
    while i < |filters|
      invariant n <= |cs| && cursor >= start
      invariant i < |filters| ==> Chunks(filters[i..], size) == cs[n..]
      invariant i >= |filters| ==> n == |cs|
      invariant FetchSeries(fetch, cs[..n], start) == SeriesRun(payloads, None, sleeps, cursor - start)
      invariant allElements == Collect(ElementEntry, AllElements(payloads))
      invariant osm3s == LastOsm3s(payloads)
      decreases |filters| - i
    {
      ChunksAdvance(filters, size, cs, i, n);
      var chunk := filters[i..Min(i + size, |filters|)];
      TakeNext(cs, n);
      err, sleeps, cursor, payloads, allElements, osm3s :=
        FetchChunk(c, net, b, snapshot, chunk, cs[..n], start, payloads, sleeps, cursor, allElements, osm3s);
      if err.Some? {
        SeriesErrorPersists(fetch, cs, start, n + 1);
        return;
      }
      n := n + 1;
      i := i + size;
    }
    assert cs[..n] == cs;
    err := None;
  }

  /**
   * `fetch_all_chunked`, its POSTs numbered from `start`: a zero step is the
   * `ValueError` of `range`, a negative one an empty range.
   */
  method FetchAllChunked(c: Client, net: Network, start: nat, b: BBox, filters: seq<string>,
                         snapshot: Option<string>, chunkSize: int) returns (run: ChunkedRun)
    ensures run == FetchAllChunkedSpec(c, net, start, b, filters, snapshot, chunkSize)
  {
    if chunkSize == 0 {
      return ChunkedRun(Failure(StepIsZero), [], 0);
    }
    if chunkSize < 0 {
      return ChunkedRun(Success(Chunked(Some(EmptyOsm3s()), Empty<ElementKey, Element>().Values())), [], 0);
    }
    var err, sleeps, cursor, payloads, allElements, osm3s := FetchChunks(c, net, b, snapshot, filters, chunkSize, start);
    if err.Some? {
      return ChunkedRun(Failure(err.value), sleeps, cursor - start);
    }
    return ChunkedRun(Success(Chunked(osm3s, allElements.Values())), sleeps, cursor - start);
  }

  // Properties of fetch_all_chunked

  /** The `(type, id)` an element in `all_elements` is stored under. */
  function ElementKeyOf(el: Element): ElementKey
  {
    (el.kind.GetOr(""), match el.id case Present(i) => i case _ => 0)
  }

  lemma ElementEntryKeyed()
    ensures KeyedBy(ElementEntry, ElementKeyOf)
  {
  }

  /** The series of fetches a positive step leads to. */
  function ChunkSeries(c: Client, net: Network, start: nat, b: BBox, filters: seq<string>,
                       snapshot: Option<string>, chunkSize: nat): SeriesRun
    requires chunkSize > 0
  {
    FetchSeries(ChunkFetch(c, net, b, snapshot, DefaultRetries), Chunks(filters, chunkSize), start)
  }

  /** A zero step raises before any query; an empty filter list or a negative step sends none. */
  lemma ChunkedWithoutQueries(c: Client, net: Network, start: nat, b: BBox, filters: seq<string>,
                              snapshot: Option<string>, chunkSize: int)
    requires chunkSize <= 0 || |filters| == 0
    ensures var run := FetchAllChunkedSpec(c, net, start, b, filters, snapshot, chunkSize);
            && run.sleeps == [] && run.attempts == 0
            && (run.result.Failure? <==> chunkSize == 0)
            && (chunkSize != 0 ==> run.result == Success(Chunked(Some(EmptyOsm3s()), [])))
  {
    if chunkSize > 0 {
      assert Chunks(filters, chunkSize) == [];
    }
  }

  /**
   * With a positive step, `fetch_all_chunked` returns exactly when every
   * chunk's `fetch` returns, and then it made one call per chunk:
   * `ceil(len(filters) / chunk_size)` of them.
   */
  lemma ChunkedCallCount(c: Client, net: Network, start: nat, b: BBox, filters: seq<string>,
                         snapshot: Option<string>, chunkSize: nat)
    requires chunkSize > 0
    ensures var run := FetchAllChunkedSpec(c, net, start, b, filters, snapshot, chunkSize);
            var s := ChunkSeries(c, net, start, b, filters, snapshot, chunkSize);
            && (run.result.Success? <==> s.error.None?)
            && (run.result.Success? ==>
                  && |s.payloads| == |Chunks(filters, chunkSize)|
                  && |s.payloads| * chunkSize >= |filters|
                  && (|s.payloads| > 0 ==> (|s.payloads| - 1) * chunkSize < |filters|))
  {
    ChunkCount(filters, chunkSize);
  }

  /**
   * `list(all_elements.values())` after the payloads `ps`: each element has
   * a type and an id, no two share a `(type, id)`, each is the last element
   * with its key in fetch order, and every keyed element is represented.
   */
  lemma MergedElements(ps: seq<Payload>, k: ElementKey)
    ensures var out := Collect(ElementEntry, AllElements(ps)).Values();
            var all := AllElements(ps);
            && NoDup(MapSeq(ElementKeyOf, out))
            && (forall m :: 0 <= m < |out| ==> out[m].kind.Some? && out[m].id.Present?)
            && (forall m :: 0 <= m < |out| ==>
                  exists i :: 0 <= i < |all| && all[i] == out[m]
                    && forall j :: i < j < |all| ==> !YieldsKey(ElementEntry, all, j, ElementKeyOf(out[m])))
            && (k in Elements(MapSeq(ElementKeyOf, out)) <==>
                  exists i :: 0 <= i < |all| && YieldsKey(ElementEntry, all, i, k))
  {
    var all := AllElements(ps);
    var out := Collect(ElementEntry, all).Values();
    ElementEntryKeyed();
    ValuesInKeyOrder(ElementEntry, ElementKeyOf, all);
    ValuesKeysIff(ElementEntry, ElementKeyOf, all, k);
    forall m | 0 <= m < |out|
      ensures out[m].kind.Some? && out[m].id.Present?
      ensures exists i :: 0 <= i < |all| && all[i] == out[m]
                && forall j :: i < j < |all| ==> !YieldsKey(ElementEntry, all, j, ElementKeyOf(out[m]))
    {
      ValueIsLastWrite(ElementEntry, ElementKeyOf, all, m);
    }
  }

  /**
   * A successful `fetch_all_chunked` with a positive step reports the
   * merge of every chunk's elements and the `osm3s` the payloads leave.
   */
  lemma ChunkedResult(c: Client, net: Network, start: nat, b: BBox, filters: seq<string>,
                      snapshot: Option<string>, chunkSize: nat)
    requires chunkSize > 0
    requires FetchAllChunkedSpec(c, net, start, b, filters, snapshot, chunkSize).result.Success?
    ensures var ps := ChunkSeries(c, net, start, b, filters, snapshot, chunkSize).payloads;
            FetchAllChunkedSpec(c, net, start, b, filters, snapshot, chunkSize).result.value
            == Chunked(LastOsm3s(ps), Collect(ElementEntry, AllElements(ps)).Values())
  {
  }

  /** Without an `osm3s` member in any payload, the result keeps the `{}` it started from. */
  lemma {:induction false} LastOsm3sNone(ps: seq<Payload>)
    requires forall i :: 0 <= i < |ps| ==> ps[i].osm3s.Absent?
    ensures LastOsm3s(ps) == Some(EmptyOsm3s())
  {
    if |ps| > 0 {
      LastOsm3sNone(ps[..|ps| - 1]);
    }
  }

  /** Last `osm3s` wins: the last payload that carries the member decides, a `null` included. */
  lemma {:induction false} LastOsm3sLast(ps: seq<Payload>, i: nat)
    requires i < |ps| && !ps[i].osm3s.Absent?
    requires forall j :: i < j < |ps| ==> ps[j].osm3s.Absent?
    ensures LastOsm3s(ps) == if ps[i].osm3s.Null? then None else Some(ps[i].osm3s.value)
  {
    if i < |ps| - 1 {
      LastOsm3sLast(ps[..|ps| - 1], i);
    }
  }
}
