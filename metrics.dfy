/**
 * The in-memory metrics store: the history of research sessions and, for
 * each tracked model, its list of requests with a running total duration and
 * success count. Durations are real numbers (the source's floats, without
 * rounding); timestamps are natural numbers ordered like the ISO strings the
 * source stores, and are passed in by the caller instead of read from a clock.
 */
module Metrics {
  import opened Wrappers
  import opened Strings

  type Timestamp = nat

  /** An entry of `research_history`. */
  datatype ResearchRecord = ResearchRecord(
    researchId: string,
    model: string,
    duration: real,
    query: string,
    success: bool,
    timestamp: Timestamp,
    error: Option<string>)

  /** An entry of a model's `requests` list. */
  datatype RequestRecord = RequestRecord(duration: real, success: bool, timestamp: Timestamp)

  /** The counters kept for one model. */
  datatype ModelStats = ModelStats(requests: seq<RequestRecord>, totalDuration: real, successCount: nat)

  /** The models the collector tracks, in the order of its dictionary. */
  const TrackedModels: seq<string> := ["openai", "anthropic", "kimi"]

  const EmptyStats: ModelStats := ModelStats([], 0.0, 0)

  // ---------------------------------------------------------------------
  // Aggregates over requests
  // ---------------------------------------------------------------------

  function Durations(rs: seq<RequestRecord>): (ds: seq<real>)
    ensures |ds| == |rs| && forall i :: 0 <= i < |rs| ==> ds[i] == rs[i].duration
  {
    seq(|rs|, i requires 0 <= i < |rs| => rs[i].duration)
  }

  function Sum(ds: seq<real>): real {
    if ds == [] then 0.0 else Sum(ds[..|ds| - 1]) + ds[|ds| - 1]
  }

  function Min(ds: seq<real>): real
    requires ds != []
  {
    if |ds| == 1 then ds[0]
    else
      var m := Min(ds[..|ds| - 1]);
      if ds[|ds| - 1] < m then ds[|ds| - 1] else m
  }

  function Max(ds: seq<real>): real
    requires ds != []
  {
    if |ds| == 1 then ds[0]
    else
      var m := Max(ds[..|ds| - 1]);
      if ds[|ds| - 1] > m then ds[|ds| - 1] else m
  }

  /** The requests that succeeded (`[req for req in requests if req["success"]]`). */
  function Successful(rs: seq<RequestRecord>): seq<RequestRecord> {
    if rs == [] then []
    else Successful(rs[..|rs| - 1]) + (if rs[|rs| - 1].success then [rs[|rs| - 1]] else [])
  }

  /** The counters agree with the requests they summarise. */
  predicate Consistent(st: ModelStats) {
    st.totalDuration == Sum(Durations(st.requests)) && st.successCount == |Successful(st.requests)|
  }

  /** The counters after one more request. */
  function Recorded(st: ModelStats, req: RequestRecord): ModelStats {
    ModelStats(st.requests + [req], st.totalDuration + req.duration, st.successCount + if req.success then 1 else 0)
  }

  /** Recording one more request keeps the counters in agreement with the requests. */
  lemma RecordKeepsConsistent(st: ModelStats, req: RequestRecord)
    requires Consistent(st)
    ensures Consistent(Recorded(st, req))
  {
    var rs := st.requests + [req];
    assert rs[..|rs| - 1] == st.requests;
    assert Durations(rs)[..|rs| - 1] == Durations(st.requests);
  }

  /** The latest timestamp of the requests, if there are any. */
  function LatestTimestamp(rs: seq<RequestRecord>): Option<Timestamp> {
    if rs == [] then None
    else
      var t := rs[|rs| - 1].timestamp;
      match LatestTimestamp(rs[..|rs| - 1])
      case None => Some(t)
      case Some(u) => Some(if t > u then t else u)
  }

  /** The last five requests, or all of them when there are fewer. */
  function RecentRequests(rs: seq<RequestRecord>): (r: seq<RequestRecord>)
    ensures |r| == if |rs| >= 5 then 5 else |rs|
    ensures r == rs[|rs| - |r|..]
  {
    if |rs| >= 5 then rs[|rs| - 5..] else rs
  }

  lemma {:induction false} SuccessfulBound(rs: seq<RequestRecord>)
    ensures |Successful(rs)| <= |rs|
    ensures forall r :: r in Successful(rs) <==> r in rs && r.success
  {
    if rs != [] {
      SuccessfulBound(rs[..|rs| - 1]);
      assert rs == rs[..|rs| - 1] + [rs[|rs| - 1]];
    }
  }

  /** One step of the bound: adding `x` to a total of `k` values within `[lo, hi]` keeps it within `k + 1` times. */
  lemma BoundStep(k: real, total: real, x: real, lo: real, hi: real, mi: real, ma: real)
    requires k >= 0.0 && k * mi <= total <= k * ma
    requires lo <= mi && lo <= x && ma <= hi && x <= hi
    ensures (k + 1.0) * lo <= total + x <= (k + 1.0) * hi
  {
    assert k * lo <= k * mi;
    assert k * ma <= k * hi;
  }

  /** The total of the durations lies between the number of them times the least and times the greatest. */
  lemma {:induction false} SumBounds(ds: seq<real>)
    requires ds != []
    ensures (|ds| as real) * Min(ds) <= Sum(ds) <= (|ds| as real) * Max(ds)
  {
    var init := ds[..|ds| - 1];
    var x := ds[|ds| - 1];
    if |ds| == 1 {
      assert init == [];
      assert Sum(ds) == Sum(init) + x;
    } else {
      SumBounds(init);
      MinMaxStep(ds);
      BoundStep(|init| as real, Sum(init), x, Min(ds), Max(ds), Min(init), Max(init));
    }
  }

  /** One more value: the total grows by it, the least and the greatest move only towards it. */
  lemma MinMaxStep(ds: seq<real>)
    requires |ds| > 1
    ensures Sum(ds) == Sum(ds[..|ds| - 1]) + ds[|ds| - 1]
    ensures Min(ds) <= Min(ds[..|ds| - 1]) && Min(ds) <= ds[|ds| - 1]
    ensures Max(ds) >= Max(ds[..|ds| - 1]) && Max(ds) >= ds[|ds| - 1]
  {
  }

  lemma {:induction false} LatestTimestampIsMax(rs: seq<RequestRecord>)
    ensures LatestTimestamp(rs).None? <==> rs == []
    ensures LatestTimestamp(rs).Some? ==>
              && (exists i :: 0 <= i < |rs| && rs[i].timestamp == LatestTimestamp(rs).value)
              && (forall i :: 0 <= i < |rs| ==> rs[i].timestamp <= LatestTimestamp(rs).value)
  {
    if rs != [] {
      var init := rs[..|rs| - 1];
      LatestTimestampIsMax(init);
      assert forall i :: 0 <= i < |init| ==> init[i] == rs[i];
    }
  }

  // ---------------------------------------------------------------------
  // History
  // ---------------------------------------------------------------------

  predicate NewestFirst(s: seq<ResearchRecord>) {
    forall i, j :: 0 <= i < j < |s| ==> s[i].timestamp >= s[j].timestamp
  }

  /** Inserts `x` after every record at least as recent, so records with equal timestamps keep their order. */
  function Insert(x: ResearchRecord, s: seq<ResearchRecord>): seq<ResearchRecord> {
    if s == [] || s[0].timestamp < x.timestamp then [x] + s
    else [s[0]] + Insert(x, s[1..])
  }

  /** `sorted(history, key=timestamp, reverse=True)`, as an insertion sort. */
  function SortNewestFirst(s: seq<ResearchRecord>): seq<ResearchRecord> {
    if s == [] then [] else Insert(s[|s| - 1], SortNewestFirst(s[..|s| - 1]))
  }

  lemma {:induction false} InsertPermutes(x: ResearchRecord, s: seq<ResearchRecord>)
    ensures multiset(Insert(x, s)) == multiset(s) + multiset{x}
    ensures |Insert(x, s)| == |s| + 1
    ensures Insert(x, s)[0] == x || (s != [] && Insert(x, s)[0] == s[0])
  {
    if !(s == [] || s[0].timestamp < x.timestamp) {
      InsertPermutes(x, s[1..]);
      assert s == [s[0]] + s[1..];
    }
  }

  lemma {:induction false} InsertNewestFirst(x: ResearchRecord, s: seq<ResearchRecord>)
    requires NewestFirst(s)
    ensures NewestFirst(Insert(x, s))
  {
    if !(s == [] || s[0].timestamp < x.timestamp) {
      var rest := Insert(x, s[1..]);
      assert NewestFirst(s[1..]) by {
        forall i, j | 0 <= i < j < |s[1..]| ensures s[1..][i].timestamp >= s[1..][j].timestamp {
          assert s[1..][i] == s[i + 1] && s[1..][j] == s[j + 1];
        }
      }
      InsertNewestFirst(x, s[1..]);
      InsertPermutes(x, s[1..]);
      if |s| > 1 {
        assert s[1..][0] == s[1];
      }
      var r := [s[0]] + rest;
      assert r == Insert(x, s);
      assert s[0].timestamp >= rest[0].timestamp;
      forall i, j | 0 <= i < j < |r| ensures r[i].timestamp >= r[j].timestamp {
        assert r[j] == rest[j - 1];
        if i > 0 {
          assert r[i] == rest[i - 1];
        } else if j > 1 {
          assert rest[0].timestamp >= rest[j - 1].timestamp;
        }
      }
    }
  }

  /** The sorted history is newest-first and holds exactly the records of the history. */
  lemma {:induction false} SortNewestFirstCorrect(s: seq<ResearchRecord>)
    ensures NewestFirst(SortNewestFirst(s))
    ensures multiset(SortNewestFirst(s)) == multiset(s)
  {
    SortNewestFirstOrdered(s);
    SortNewestFirstPermutes(s);
  }

  lemma {:induction false} SortNewestFirstOrdered(s: seq<ResearchRecord>)
    ensures NewestFirst(SortNewestFirst(s))
  {
    if s != [] {
      var init := s[..|s| - 1];
      SortNewestFirstOrdered(init);
      InsertNewestFirst(s[|s| - 1], SortNewestFirst(init));
    }
  }

  lemma {:induction false} SortNewestFirstPermutes(s: seq<ResearchRecord>)
    ensures multiset(SortNewestFirst(s)) == multiset(s)
  {
    if s != [] {
      var init, x := s[..|s| - 1], s[|s| - 1];
      SortNewestFirstPermutes(init);
      InsertPermutes(x, SortNewestFirst(init));
      assert s == init + [x];
      assert multiset(s) == multiset(init) + multiset{x};
    }
  }

  /** Python's `s[:limit]`: a negative limit drops that many items from the end. */
  function PyPrefix<T>(s: seq<T>, limit: int): (r: seq<T>)
    ensures |r| == if limit >= 0 then (if limit <= |s| then limit else |s|)
                   else (if |s| + limit >= 0 then |s| + limit else 0)
    ensures r == s[..|r|]
  {
    if limit >= 0 then Take(s, limit)
    else if |s| + limit >= 0 then s[..|s| + limit]
    else []
  }

  /** An item of the history returned to clients. */
  datatype HistoryItem = HistoryItem(
    researchId: string,
    query: string,
    model: string,
    duration: real,
    success: bool,
    timestamp: Timestamp,
    summary: string)

  /** A stored record carries no summary, so the default one is used. */
  function ItemOf(r: ResearchRecord): HistoryItem {
    HistoryItem(r.researchId, r.query, r.model, r.duration, r.success, r.timestamp, "Research using " + r.model)
  }

  function Items(s: seq<ResearchRecord>): (items: seq<HistoryItem>)
    ensures |items| == |s| && forall i :: 0 <= i < |s| ==> items[i] == ItemOf(s[i])
  {
    seq(|s|, i requires 0 <= i < |s| => ItemOf(s[i]))
  }

  datatype HistoryPage = HistoryPage(history: seq<HistoryItem>, totalCount: nat)

  /** The history page for `limit`. */
  function HistoryOf(history: seq<ResearchRecord>, limit: int): HistoryPage {
    HistoryPage(Items(PyPrefix(SortNewestFirst(history), limit)), |history|)
  }

  /**
   * The page holds the newest records first, no more than `limit` of them
   * (for a non-negative limit), each from the history and labelled with its
   * model; its count is that of the whole history.
   */
  lemma HistoryOfShape(history: seq<ResearchRecord>, limit: int)
    ensures HistoryOf(history, limit).totalCount == |history|
    ensures limit >= 0 ==> |HistoryOf(history, limit).history| == if limit <= |history| then limit else |history|
    ensures forall i, j :: 0 <= i < j < |HistoryOf(history, limit).history| ==>
              HistoryOf(history, limit).history[i].timestamp >= HistoryOf(history, limit).history[j].timestamp
    ensures forall i :: 0 <= i < |HistoryOf(history, limit).history| ==>
              && HistoryOf(history, limit).history[i].summary == "Research using " + HistoryOf(history, limit).history[i].model
              && exists r :: r in history && HistoryOf(history, limit).history[i] == ItemOf(r)
  {
    var sorted := SortNewestFirst(history);
    SortNewestFirstCorrect(history);
    var kept := PyPrefix(sorted, limit);
    var items := HistoryOf(history, limit).history;
    assert items == Items(kept);
    assert |sorted| == |history| by {
      assert |multiset(sorted)| == |multiset(history)|;
    }
    forall i | 0 <= i < |items|
      ensures items[i].summary == "Research using " + items[i].model
      ensures exists r :: r in history && items[i] == ItemOf(r)
    {
      assert kept[i] == sorted[i];
      assert sorted[i] in multiset(sorted);
      assert sorted[i] in multiset(history);
      assert items[i] == ItemOf(sorted[i]);
    }
    forall i, j | 0 <= i < j < |items|
      ensures items[i].timestamp >= items[j].timestamp
    {
      assert kept[i] == sorted[i] && kept[j] == sorted[j];
    }
  }

  // ---------------------------------------------------------------------
  // Comparison
  // ---------------------------------------------------------------------

  /** A model's line of the comparison, before rounding. */
  datatype ModelMetrics = ModelMetrics(
    model: string,
    totalRequests: nat,
    averageDuration: real,
    successRate: real,
    lastUsed: Option<Timestamp>)

  datatype ModelComparison = ModelComparison(models: seq<ModelMetrics>, totalRequests: nat)

  function MetricsOf(id: string, st: ModelStats): ModelMetrics {
    var n := |st.requests|;
    if n > 0 then
      ModelMetrics(id, n, st.totalDuration / (n as real), (st.successCount as real / n as real) * 100.0,
                   LatestTimestamp(st.requests))
    else ModelMetrics(id, 0, 0.0, 0.0, None)
  }

  /** The comparison lines of the models `ids`, in order. */
  function Entries(mm: map<string, ModelStats>, ids: seq<string>): seq<ModelMetrics>
    requires forall k :: 0 <= k < |ids| ==> ids[k] in mm
  {
    if ids == [] then [] else Entries(mm, ids[..|ids| - 1]) + [MetricsOf(ids[|ids| - 1], mm[ids[|ids| - 1]])]
  }

  function SumRequests(ms: seq<ModelMetrics>): nat {
    if ms == [] then 0 else SumRequests(ms[..|ms| - 1]) + ms[|ms| - 1].totalRequests
  }

  lemma EntriesStep(mm: map<string, ModelStats>, ids: seq<string>, i: nat)
    requires forall k :: 0 <= k < |ids| ==> ids[k] in mm
    requires i < |ids|
    ensures Entries(mm, ids[..i + 1]) == Entries(mm, ids[..i]) + [MetricsOf(ids[i], mm[ids[i]])]
  {
    assert ids[..i + 1][..i] == ids[..i];
  }

  lemma SumRequestsSnoc(ms: seq<ModelMetrics>, m: ModelMetrics)
    ensures SumRequests(ms + [m]) == SumRequests(ms) + m.totalRequests
  {
    assert (ms + [m])[..|ms|] == ms;
  }

  /**
   * A model's line: its number of requests; with none, zeros and no last
   * use; otherwise the mean duration, a success rate from 0 to 100, and the
   * latest timestamp of its requests.
   */
  lemma MetricsOfShape(id: string, st: ModelStats)
    requires Consistent(st)
    ensures var m := MetricsOf(id, st);
      && m.model == id && m.totalRequests == |st.requests|
      && (st.requests == [] ==> m.averageDuration == 0.0 && m.successRate == 0.0 && m.lastUsed.None?)
      && (st.requests != [] ==>
            && m.averageDuration == Sum(Durations(st.requests)) / (|st.requests| as real)
            && 0.0 <= m.successRate <= 100.0
            && m.lastUsed.Some?
            && (forall i :: 0 <= i < |st.requests| ==> st.requests[i].timestamp <= m.lastUsed.value)
            && (exists i :: 0 <= i < |st.requests| && st.requests[i].timestamp == m.lastUsed.value))
  {
    SuccessfulBound(st.requests);
    LatestTimestampIsMax(st.requests);
    if st.requests != [] {
      RateBounds(st.successCount as real, |st.requests| as real);
    }
  }

  lemma {:induction false} EntriesShape(mm: map<string, ModelStats>, ids: seq<string>)
    requires forall k :: 0 <= k < |ids| ==> ids[k] in mm
    ensures |Entries(mm, ids)| == |ids|
    ensures forall k :: 0 <= k < |ids| ==> Entries(mm, ids)[k] == MetricsOf(ids[k], mm[ids[k]])
  {
    if ids != [] {
      EntriesShape(mm, ids[..|ids| - 1]);
    }
  }

  // ---------------------------------------------------------------------
  // Deletion
  // ---------------------------------------------------------------------

  /** The history without the records of `id`. */
  function WithoutId(s: seq<ResearchRecord>, id: string): seq<ResearchRecord> {
    if s == [] then []
    else WithoutId(s[..|s| - 1], id) + (if s[|s| - 1].researchId == id then [] else [s[|s| - 1]])
  }

  predicate HasId(s: seq<ResearchRecord>, id: string) {
    exists i :: 0 <= i < |s| && s[i].researchId == id
  }

  /** The records kept are those of another id, so the history shrinks exactly when it had a record of `id`. */
  lemma {:induction false} WithoutIdElements(s: seq<ResearchRecord>, id: string)
    ensures forall r :: r in WithoutId(s, id) <==> r in s && r.researchId != id
    ensures |WithoutId(s, id)| <= |s|
    ensures |WithoutId(s, id)| < |s| <==> HasId(s, id)
  {
    if s != [] {
      var init := s[..|s| - 1];
      WithoutIdElements(init, id);
      assert s == init + [s[|s| - 1]];
      if HasId(init, id) {
        var i :| 0 <= i < |init| && init[i].researchId == id;
        assert s[i].researchId == id;
      }
      if HasId(s, id) && s[|s| - 1].researchId != id {
        var i :| 0 <= i < |s| && s[i].researchId == id;
        assert init[i].researchId == id;
      }
    }
  }

  /** Deleting keeps the order of the other records: it works piece by piece. */
  lemma {:induction false} WithoutIdConcat(a: seq<ResearchRecord>, b: seq<ResearchRecord>, id: string)
    ensures WithoutId(a + b, id) == WithoutId(a, id) + WithoutId(b, id)
  {
    if b == [] {
      assert a + b == a;
    } else {
      assert (a + b)[..|a + b| - 1] == a + b[..|b| - 1];
      WithoutIdConcat(a, b[..|b| - 1], id);
    }
  }

  /** After a deletion the history has no record of that id, so deleting it again finds nothing. */
  lemma DeleteTwice(s: seq<ResearchRecord>, id: string)
    ensures !HasId(WithoutId(s, id), id)
    ensures WithoutId(WithoutId(s, id), id) == WithoutId(s, id)
  {
    WithoutIdElements(s, id);
    var t := WithoutId(s, id);
    forall i | 0 <= i < |t| ensures t[i].researchId != id {
      assert t[i] in t;
    }
    NoIdUnchanged(t, id);
  }

  /** Deleting an id the history does not hold changes nothing. */
  lemma {:induction false} NoIdUnchanged(s: seq<ResearchRecord>, id: string)
    requires !HasId(s, id)
    ensures WithoutId(s, id) == s
  {
    if s != [] {
      var init := s[..|s| - 1];
      assert forall i :: 0 <= i < |init| ==> init[i] == s[i];
      NoIdUnchanged(init, id);
      assert s == init + [s[|s| - 1]];
    }
  }

  // ---------------------------------------------------------------------
  // Detailed metrics
  // ---------------------------------------------------------------------

  datatype DetailedMetrics =
    | NotFound(error: string)
    | NoRequests(model: string)
    | Detailed(
        model: string,
        totalRequests: nat,
        successfulRequests: nat,
        successRate: real,
        averageDuration: real,
        minDuration: real,
        maxDuration: real,
        totalDuration: real,
        recentRequests: seq<RequestRecord>)

  /** `get_detailed_metrics` over the per-model counters. */
  function DetailedOf(model: string, mm: map<string, ModelStats>): DetailedMetrics {
    if model !in mm then NotFound("Model " + model + " not found")
    else
      var rs := mm[model].requests;
      if rs == [] then NoRequests(model)
      else
        var ds := Durations(rs);
        var n := |rs| as real;
        Detailed(model, |rs|, |Successful(rs)|, (|Successful(rs)| as real / n) * 100.0,
                 Sum(ds) / n, Min(ds), Max(ds), Sum(ds), RecentRequests(rs))
  }

  /** An unknown model gives its error, and a model without requests reports none. */
  lemma DetailedCases(model: string, mm: map<string, ModelStats>)
    ensures DetailedOf(model, mm).NotFound? <==> model !in mm
    ensures model !in mm ==> DetailedOf(model, mm).error == "Model " + model + " not found"
    ensures DetailedOf(model, mm).NoRequests? <==> model in mm && mm[model].requests == []
  {
  }

  /**
   * For a model with requests, the mean lies between the least and the
   * greatest duration, the rate lies from 0 to 100, the successful requests
   * and the total are the stored counters, and the recent requests are the
   * last five.
   */
  lemma DetailedShape(model: string, mm: map<string, ModelStats>)
    requires model in mm && mm[model].requests != [] && Consistent(mm[model])
    ensures DetailedOf(model, mm).Detailed?
    ensures var d := DetailedOf(model, mm);
            var rs := mm[model].requests;
            && d.model == model && d.totalRequests == |rs|
            && d.successfulRequests == mm[model].successCount <= d.totalRequests
            && d.minDuration <= d.averageDuration <= d.maxDuration
            && 0.0 <= d.successRate <= 100.0
            && d.totalDuration == mm[model].totalDuration
            && d.recentRequests == rs[|rs| - |d.recentRequests|..]
            && |d.recentRequests| == if |rs| >= 5 then 5 else |rs|
  {
    var rs := mm[model].requests;
    var ds := Durations(rs);
    DetailedFields(model, mm);
    MeanBetween(ds);
    SuccessfulBound(rs);
    RateBounds(|Successful(rs)| as real, |rs| as real);
  }

  /** The fields of the detailed metrics of a model with requests. */
  lemma DetailedFields(model: string, mm: map<string, ModelStats>)
    requires model in mm && mm[model].requests != []
    ensures var rs := mm[model].requests;
            var ds := Durations(rs);
            var n := |rs| as real;
            DetailedOf(model, mm) == Detailed(model, |rs|, |Successful(rs)|, (|Successful(rs)| as real / n) * 100.0,
                                              Sum(ds) / n, Min(ds), Max(ds), Sum(ds), RecentRequests(rs))
  {
  }

  lemma RateBounds(c: real, n: real)
    requires 0.0 <= c <= n && n > 0.0
    ensures 0.0 <= (c / n) * 100.0 <= 100.0
  {
    assert c / n <= 1.0;
  }

  /** The mean of the durations lies between the least and the greatest. */
  lemma MeanBetween(ds: seq<real>)
    requires ds != []
    ensures Min(ds) <= Sum(ds) / (|ds| as real) <= Max(ds)
  {
    SumBounds(ds);
    AverageBetween(Sum(ds), |ds| as real, Min(ds), Max(ds));
  }

  lemma AverageBetween(total: real, n: real, lo: real, hi: real)
    requires n > 0.0 && n * lo <= total <= n * hi
    ensures lo <= total / n <= hi
  {
  }

  /** The tracked models are exactly the three, and their counters agree with their requests. */
  ghost predicate TrackedMetrics(mm: map<string, ModelStats>) {
    && (forall id :: id in mm <==> id in TrackedModels)
    && (forall id :: id in mm ==> Consistent(mm[id]))
  }

  lemma TrackedKeys(mm: map<string, ModelStats>)
    requires TrackedMetrics(mm)
    ensures "openai" in mm && "anthropic" in mm && "kimi" in mm
    ensures forall k :: 0 <= k < |TrackedModels| ==> TrackedModels[k] in mm
  {
  }

  lemma UpdateKeepsTracked(mm: map<string, ModelStats>, model: string, st: ModelStats)
    requires TrackedMetrics(mm) && model in mm && Consistent(st)
    ensures TrackedMetrics(mm[model := st])
  {
  }

  // ---------------------------------------------------------------------
  // The collector
  // ---------------------------------------------------------------------

  class MetricsCollector {
    var researchHistory: seq<ResearchRecord>
    var modelMetrics: map<string, ModelStats>

    /** The tracked models are exactly the three, and their counters agree with their requests. */
    ghost predicate Valid()
      reads this
    {
      TrackedMetrics(modelMetrics)
    }

    constructor()
      ensures Valid()
      ensures researchHistory == []
      ensures modelMetrics == map["openai" := EmptyStats, "anthropic" := EmptyStats, "kimi" := EmptyStats]
    {
      researchHistory := [];
      modelMetrics := map["openai" := EmptyStats, "anthropic" := EmptyStats, "kimi" := EmptyStats];
      assert Durations([]) == [];
      assert Successful([]) == [];
    }

    /**
     * `store_research_metrics`: one more record in the history and, for a
     * tracked model, one more request with the running totals advanced.
     */
    method StoreResearchMetrics(researchId: string, model: string, duration: real, query: string,
                                success: bool, error: Option<string>, timestamp: Timestamp)
      requires Valid()
      modifies this
      ensures Valid()
      ensures researchHistory == old(researchHistory) + [ResearchRecord(researchId, model, duration, query, success, timestamp, error)]
      ensures model !in old(modelMetrics) ==> modelMetrics == old(modelMetrics)
      ensures model in old(modelMetrics) ==>
                modelMetrics == old(modelMetrics)[model := Recorded(old(modelMetrics)[model], RequestRecord(duration, success, timestamp))]
    {
      var record := ResearchRecord(researchId, model, duration, query, success, timestamp, error);
      researchHistory := researchHistory + [record];
      if model in modelMetrics {
        var st := modelMetrics[model];
        var requests := st.requests + [RequestRecord(duration, success, timestamp)];
        var total := st.totalDuration + duration;
        var successes := st.successCount;
        if success {
          successes := successes + 1;
        }
        RecordKeepsConsistent(st, RequestRecord(duration, success, timestamp));
        var updated := ModelStats(requests, total, successes);
        assert updated == Recorded(st, RequestRecord(duration, success, timestamp));
        UpdateKeepsTracked(modelMetrics, model, updated);
        modelMetrics := modelMetrics[model := updated];
      }
    }

    /** `get_research_history`: the newest records first, cut by `limit`, with the full count. */
    method GetResearchHistory(limit: int) returns (page: HistoryPage)
      ensures page == HistoryOf(researchHistory, limit)
      ensures page.totalCount == |researchHistory|
      ensures forall i, j :: 0 <= i < j < |page.history| ==> page.history[i].timestamp >= page.history[j].timestamp
    {
      var sortedHistory := SortNewestFirst(researchHistory);
      var kept := PyPrefix(sortedHistory, limit);
      var historyItems: seq<HistoryItem> := [];
      var i := 0;
      while i < |kept|
        invariant 0 <= i <= |kept|
        invariant historyItems == Items(kept[..i])
      {
        var item := kept[i];
        historyItems := historyItems + [HistoryItem(item.researchId, item.query, item.model, item.duration,
                                                    item.success, item.timestamp, "Research using " + item.model)];
        i := i + 1;
      }
      assert kept[..i] == kept;
      page := HistoryPage(historyItems, |researchHistory|);
      HistoryOfShape(researchHistory, limit);
    }

    /** `get_model_comparison`: one line per tracked model, in order, and the total number of requests. */
    method GetModelComparison() returns (comparison: ModelComparison)
      requires Valid()
      ensures comparison.models == Entries(modelMetrics, TrackedModels)
      ensures comparison.totalRequests == SumRequests(comparison.models)
      ensures |comparison.models| == |TrackedModels|
      ensures forall k :: 0 <= k < |TrackedModels| ==>
                comparison.models[k] == MetricsOf(TrackedModels[k], modelMetrics[TrackedModels[k]])
    {
      TrackedKeys(modelMetrics);
      comparison := CompareModels(modelMetrics);
    }

    /** The loop over the models' counters of `get_model_comparison`. */
    static method CompareModels(mm: map<string, ModelStats>) returns (comparison: ModelComparison)
      requires forall k :: 0 <= k < |TrackedModels| ==> TrackedModels[k] in mm
      ensures comparison.models == Entries(mm, TrackedModels)
      ensures comparison.totalRequests == SumRequests(comparison.models)
      ensures |comparison.models| == |TrackedModels|
      ensures forall k :: 0 <= k < |TrackedModels| ==>
                comparison.models[k] == MetricsOf(TrackedModels[k], mm[TrackedModels[k]])
    {
      var models: seq<ModelMetrics> := [];
      var totalRequests := 0;
      var i := 0;
      while i < |TrackedModels|
        invariant 0 <= i <= |TrackedModels|
        invariant forall k :: 0 <= k < i ==> TrackedModels[..i][k] in mm
        invariant models == Entries(mm, TrackedModels[..i])
        invariant totalRequests == SumRequests(models)
      {
        var modelId := TrackedModels[i];
        var metrics := mm[modelId];
        var requestCount := |metrics.requests|;
        totalRequests := totalRequests + requestCount;
        var line := ModelLine(modelId, metrics);
        EntriesStep(mm, TrackedModels, i);
        SumRequestsSnoc(models, line);
        models := models + [line];
        i := i + 1;
      }
      assert TrackedModels[..i] == TrackedModels;
      comparison := ModelComparison(models, totalRequests);
      EntriesShape(mm, TrackedModels);
    }

    /** One line of the comparison, with the division guarded for a model without requests. */
    static method ModelLine(modelId: string, metrics: ModelStats) returns (line: ModelMetrics)
      ensures line == MetricsOf(modelId, metrics)
    {
      var requests := metrics.requests;
      var requestCount := |requests|;
      var avgDuration, successRate, lastUsed;
      if requestCount > 0 {
        avgDuration := metrics.totalDuration / (requestCount as real);
        successRate := (metrics.successCount as real / requestCount as real) * 100.0;
        lastUsed := LatestTimestamp(requests);
      } else {
        avgDuration := 0.0;
        successRate := 0.0;
        lastUsed := None;
      }
      line := ModelMetrics(modelId, requestCount, avgDuration, successRate, lastUsed);
    }

    /** `delete_research`: the records of `researchId` are removed; the result says whether there were any. */
    method DeleteResearch(researchId: string) returns (deleted: bool)
      modifies this
      ensures researchHistory == WithoutId(old(researchHistory), researchId)
      ensures modelMetrics == old(modelMetrics)
      ensures deleted <==> HasId(old(researchHistory), researchId)
      ensures !HasId(researchHistory, researchId)
    {
      var originalCount := |researchHistory|;
      WithoutIdElements(researchHistory, researchId);
      DeleteTwice(researchHistory, researchId);
      researchHistory := WithoutId(researchHistory, researchId);
      deleted := |researchHistory| < originalCount;
    }

    /** `get_detailed_metrics`, with the comprehensions over the requests as one loop. */
    method GetDetailedMetrics(model: string) returns (d: DetailedMetrics)
      ensures d == DetailedOf(model, modelMetrics)
    {
      if model !in modelMetrics {
        return NotFound("Model " + model + " not found");
      }
      var requests := modelMetrics[model].requests;
      if requests == [] {
        return NoRequests(model);
      }
      var durations: seq<real> := [];
      var successfulRequests: seq<RequestRecord> := [];
      var i := 0;
      while i < |requests|
        invariant 0 <= i <= |requests|
        invariant durations == Durations(requests[..i])
        invariant successfulRequests == Successful(requests[..i])
      {
        assert requests[..i + 1][..i] == requests[..i];
        durations := durations + [requests[i].duration];
        if requests[i].success {
          successfulRequests := successfulRequests + [requests[i]];
        }
        i := i + 1;
      }
      assert requests[..i] == requests;
      var n := |requests| as real;
      var recent := if |requests| >= 5 then requests[|requests| - 5..] else requests;
      d := Detailed(model, |requests|, |successfulRequests|, (|successfulRequests| as real / n) * 100.0,
                    Sum(durations) / n, Min(durations), Max(durations), Sum(durations), recent);
    }
  }
}
