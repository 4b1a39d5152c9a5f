/** The run summary of the repository root (reporting.py): profit and
    loss, the worst drawdown from the running peak, the average edges of
    READY decisions and the most frequent HOLD reasons. The three tables
    come in as row sequences in timestamp order; the database reads and
    the CSV/JSON export are not modelled. */
module Reporting {
  import opened Common

  /** The `reasons_json` cell of a decision row: NULL (read as "[]"), a
      JSON list of reason strings, or text `json.loads` rejects. */
  datatype ReasonsCell = Null | Json(reasons: seq<string>) | Malformed

  /** A row of the `decisions` table, as far as the summary reads it;
      None is a NULL/NaN cell. */
  datatype DecisionRow = DecisionRow(decision: string, edgePct: Option<real>, netEdgePct: Option<real>, reasons: ReasonsCell)

  /** The dict `compute_summary` returns; None stands for NaN. */
  datatype Summary = Summary(
    startEquity: real, endEquity: real, pnl: real, pnlPct: real,
    switches: nat, totalCost: real, maxDrawdownPct: real,
    avgEdgePct: Option<real>, avgNetEdgePct: Option<real>,
    topHoldReasons: seq<(string, nat)>)

  // ---- Profit and loss ----

  /** End equity: the last equity row, or the start when there is none. */
  function EndEquity(equity: seq<real>, startEquity: real): real {
    if |equity| == 0 then startEquity else equity[|equity| - 1]
  }

  /** `pnl_pct`: the profit as a percentage of a non-zero start, else 0. */
  function PnlPct(pnl: real, startEquity: real): real {
    if startEquity != 0.0 then pnl / startEquity * 100.0 else 0.0
  }

  function Sum(xs: seq<real>): real {
    if |xs| == 0 then 0.0 else Sum(xs[..|xs| - 1]) + xs[|xs| - 1]
  }

  /** End equity is start equity plus profit, and the percentage reads the
      profit back when the start is not zero. */
  lemma PnlAddsUp(equity: seq<real>, startEquity: real)
    ensures var pnl := EndEquity(equity, startEquity) - startEquity;
            && (|equity| == 0 ==> pnl == 0.0 && PnlPct(pnl, startEquity) == 0.0)
            && (startEquity != 0.0 ==> PnlPct(pnl, startEquity) * startEquity == pnl * 100.0)
            && (startEquity == 0.0 ==> PnlPct(pnl, startEquity) == 0.0)
  {
    var pnl := EndEquity(equity, startEquity) - startEquity;
    if startEquity != 0.0 {
      assert pnl / startEquity * startEquity == pnl;
    }
  }

  // ---- Drawdown ----

  /** The running peak after the given rows: it starts at the first row
      and rises to any higher one. */
  function Peak(equity: seq<real>): real
    requires |equity| > 0
  {
    if |equity| == 1 then equity[0]
    else
      var p := Peak(equity[..|equity| - 1]);
      if equity[|equity| - 1] > p then equity[|equity| - 1] else p
  }

  /** The peak is the largest row seen so far. */
  lemma {:induction false} PeakIsMax(equity: seq<real>)
    requires |equity| > 0
    ensures forall i :: 0 <= i < |equity| ==> equity[i] <= Peak(equity)
    ensures exists i :: 0 <= i < |equity| && equity[i] == Peak(equity)
  {
    if |equity| == 1 {
      assert equity[0] == Peak(equity);
    } else {
      var last := |equity| - 1;
      PeakIsMax(equity[..last]);
      assert forall i :: 0 <= i < last ==> equity[..last][i] == equity[i];
      var k :| 0 <= k < last && equity[..last][k] == Peak(equity[..last]);
      assert equity[k] == Peak(equity[..last]);
      if equity[last] > Peak(equity[..last]) {
        assert equity[last] == Peak(equity);
      } else {
        assert equity[k] == Peak(equity);
      }
    }
  }

  /** The drawdown at row `i` against the peak so far; 0 when the peak is 0. */
  function DrawdownAt(equity: seq<real>, i: int): real
    requires 0 <= i < |equity|
  {
    var peak := Peak(equity[..i + 1]);
    if peak != 0.0 then (equity[i] - peak) / peak else 0.0
  }

  /** `max_drawdown`: the least of 0 and every row's drawdown. */
  function MaxDrawdown(equity: seq<real>): real {
    if |equity| == 0 then 0.0
    else
      var before := MaxDrawdown(equity[..|equity| - 1]);
      var d := DrawdownAt(equity, |equity| - 1);
      if d < before then d else before
  }

  /** `max_drawdown_pct`. */
  function MaxDrawdownPct(equity: seq<real>): real {
    var m := MaxDrawdown(equity);
    (if m < 0.0 then -m else m) * 100.0
  }

  /** The worst drawdown is at most 0, no later than any row's drawdown,
      and is either 0 or some row's drawdown; so the percentage is never
      negative. */
  lemma {:induction false} MaxDrawdownIsWorst(equity: seq<real>)
    ensures MaxDrawdown(equity) <= 0.0
    ensures forall i :: 0 <= i < |equity| ==> MaxDrawdown(equity) <= DrawdownAt(equity, i)
    ensures MaxDrawdown(equity) == 0.0 || exists i :: 0 <= i < |equity| && MaxDrawdown(equity) == DrawdownAt(equity, i)
    ensures MaxDrawdownPct(equity) == -MaxDrawdown(equity) * 100.0 >= 0.0
  {
    if |equity| > 0 {
      var last := |equity| - 1;
      var prefix := equity[..last];
      MaxDrawdownIsWorst(prefix);
      forall i | 0 <= i < last ensures DrawdownAt(prefix, i) == DrawdownAt(equity, i) {
        assert prefix[..i + 1] == equity[..i + 1];
      }
    }
  }

  /** With every equity positive, each drawdown lies in (-1, 0], so the
      percentage stays below 100. */
  lemma {:induction false} PositiveEquityDrawdownBelowHundred(equity: seq<real>)
    requires forall i :: 0 <= i < |equity| ==> equity[i] > 0.0
    ensures 0.0 <= MaxDrawdownPct(equity) < 100.0
  {
    MaxDrawdownIsWorst(equity);
    if MaxDrawdown(equity) != 0.0 {
      var i :| 0 <= i < |equity| && MaxDrawdown(equity) == DrawdownAt(equity, i);
      var rows := equity[..i + 1];
      PeakIsMax(rows);
      var peak := Peak(rows);
      assert rows[i] == equity[i] && rows[0] == equity[0];
      assert 0.0 < equity[i] <= peak;
      DrawdownRange(equity[i], peak);
    }
  }

  /** `(e - p) / p` for `0 < e <= p` lies in (-1, 0]. */
  lemma DrawdownRange(e: real, p: real)
    requires 0.0 < e <= p
    ensures -1.0 < (e - p) / p <= 0.0
  {
    assert (e - p) / p * p == e - p;
  }

  /** The drawdown loop of `compute_summary`. */
  method ComputeMaxDrawdownPct(equity: seq<real>) returns (pct: real)
    ensures pct == MaxDrawdownPct(equity)
  {
    if |equity| == 0 {
      return 0.0;
    }
    var peak := equity[0];
    var maxDrawdown := 0.0;
    for i := 0 to |equity|
      invariant i > 0 ==> peak == Peak(equity[..i])
      invariant i == 0 ==> peak == equity[0]
      invariant maxDrawdown == MaxDrawdown(equity[..i])
    {
      var e := equity[i];
      assert equity[..i + 1][..i] == equity[..i];
      if e > peak {
        peak := e;
      }
      assert peak == Peak(equity[..i + 1]);
      var drawdown := if peak != 0.0 then (e - peak) / peak else 0.0;
      assert equity[..i + 1][..i + 1] == equity[..i + 1] && equity[..i + 1][i] == e;
      assert drawdown == DrawdownAt(equity[..i + 1], i);
      maxDrawdown := if drawdown < maxDrawdown then drawdown else maxDrawdown;
    }
    assert equity[..|equity|] == equity;
    pct := (if maxDrawdown < 0.0 then -maxDrawdown else maxDrawdown) * 100.0;
  }

  // ---- Average edges of READY decisions ----

  /** The values of a column that are present (pandas skips NaN). */
  function Present(xs: seq<Option<real>>): (r: seq<real>)
    ensures |r| <= |xs|
  {
    if |xs| == 0 then []
    else Present(xs[..|xs| - 1]) + (if xs[|xs| - 1].Some? then [xs[|xs| - 1].value] else [])
  }

  /** pandas `mean`: NaN when no value is present. */
  function Mean(xs: seq<Option<real>>): Option<real> {
    var present := Present(xs);
    if |present| == 0 then None else Some(Sum(present) / (|present| as real))
  }

  function IsReady(row: DecisionRow): bool { row.decision == "READY" }
  function IsHold(row: DecisionRow): bool { row.decision == "HOLD" }

  /** The rows of one decision. */
  function Rows(rows: seq<DecisionRow>, decision: string): seq<DecisionRow> {
    if |rows| == 0 then []
    else Rows(rows[..|rows| - 1], decision) + (if rows[|rows| - 1].decision == decision then [rows[|rows| - 1]] else [])
  }

  function EdgeColumn(rows: seq<DecisionRow>): seq<Option<real>> {
    if |rows| == 0 then [] else EdgeColumn(rows[..|rows| - 1]) + [rows[|rows| - 1].edgePct]
  }

  function NetEdgeColumn(rows: seq<DecisionRow>): seq<Option<real>> {
    if |rows| == 0 then [] else NetEdgeColumn(rows[..|rows| - 1]) + [rows[|rows| - 1].netEdgePct]
  }

  /** `avg_edge_pct` / `avg_net_edge_pct`: the mean over READY rows, 0
      when there is none. */
  function AvgOverReady(column: seq<Option<real>>, ready: seq<DecisionRow>): Option<real> {
    if |ready| == 0 then Some(0.0) else Mean(column)
  }

  /** Only READY rows enter the averages: rows of any other decision can
      be added or removed without changing them. */
  lemma {:induction false} AveragesIgnoreOtherDecisions(before: seq<DecisionRow>, other: DecisionRow, after: seq<DecisionRow>)
    requires other.decision != "READY"
    ensures Rows(before + [other] + after, "READY") == Rows(before + after, "READY")
    decreases |after|
  {
    if |after| == 0 {
      assert before + [other] + after == before + [other];
      assert (before + [other])[..|before|] == before;
      assert before + after == before;
    } else {
      var init, last := after[..|after| - 1], after[|after| - 1];
      AveragesIgnoreOtherDecisions(before, other, init);
      var withOther := before + [other] + after;
      assert withOther[..|withOther| - 1] == before + [other] + init;
      assert withOther[|withOther| - 1] == last;
      var without := before + after;
      assert without[..|without| - 1] == before + init;
      assert without[|without| - 1] == last;
    }
  }

  /** The mean of present values lies between their least and greatest. */
  lemma {:induction false} MeanWithinRange(xs: seq<Option<real>>, lo: real, hi: real)
    requires forall i :: 0 <= i < |xs| && xs[i].Some? ==> lo <= xs[i].value <= hi
    ensures Mean(xs).Some? ==> lo <= Mean(xs).value <= hi
  {
    var present := Present(xs);
    PresentWithin(xs, lo, hi);
    if |present| > 0 {
      SumWithin(present, lo, hi);
      QuotientWithin(Sum(present), |present| as real, lo, hi);
    }
  }

  /** A total between `lo * n` and `hi * n` averages between `lo` and `hi`. */
  lemma QuotientWithin(total: real, n: real, lo: real, hi: real)
    requires n > 0.0 && lo * n <= total <= hi * n
    ensures lo <= total / n <= hi
  {
    assert lo * n / n == lo && hi * n / n == hi;
  }

  lemma {:induction false} PresentWithin(xs: seq<Option<real>>, lo: real, hi: real)
    requires forall i :: 0 <= i < |xs| && xs[i].Some? ==> lo <= xs[i].value <= hi
    ensures forall i :: 0 <= i < |Present(xs)| ==> lo <= Present(xs)[i] <= hi
  {
    if |xs| > 0 {
      var last := |xs| - 1;
      assert forall i :: 0 <= i < last ==> xs[..last][i] == xs[i];
      PresentWithin(xs[..last], lo, hi);
      var before := Present(xs[..last]);
      assert forall i :: 0 <= i < |before| ==> Present(xs)[i] == before[i];
    }
  }

  lemma {:induction false} SumWithin(xs: seq<real>, lo: real, hi: real)
    requires forall i :: 0 <= i < |xs| ==> lo <= xs[i] <= hi
    ensures lo * (|xs| as real) <= Sum(xs) <= hi * (|xs| as real)
  {
    if |xs| > 0 {
      var last := |xs| - 1;
      assert forall i :: 0 <= i < last ==> xs[..last][i] == xs[i];
      SumWithin(xs[..last], lo, hi);
      var m, n := last as real, |xs| as real;
      assert n == m + 1.0;
      assert lo * n == lo * m + lo && hi * n == hi * m + hi;
      assert Sum(xs) == Sum(xs[..last]) + xs[last];
    }
  }

  // ---- HOLD reason tally ----

  /** The reasons a HOLD row contributes: its list, or none for a NULL or
      malformed cell. */
  function ReasonsOf(row: DecisionRow): seq<string> {
    match row.reasons
    case Json(reasons) => reasons
    case _ => []
  }

  /** A `Counter` as its insertion-ordered (key, count) items. */
  type Counter = seq<(string, nat)>

  /** Each key occurs once. */
  predicate DistinctKeys(counter: Counter) {
    forall i, j :: 0 <= i < j < |counter| ==> counter[i].0 != counter[j].0
  }

  /** Where `key` sits, or -1 when it is absent. */
  function KeyAt(counter: Counter, key: string): (i: int)
    ensures -1 <= i < |counter|
    ensures i >= 0 ==> counter[i].0 == key
    ensures i < 0 <==> forall j :: 0 <= j < |counter| ==> counter[j].0 != key
  {
    if |counter| == 0 then -1
    else if counter[|counter| - 1].0 == key then |counter| - 1
    else
      var i := KeyAt(counter[..|counter| - 1], key);
      assert forall j :: 0 <= j < |counter| - 1 ==> counter[..|counter| - 1][j] == counter[j];
      i
  }

  /** The count of `key`, 0 when absent. */
  function CountIn(counter: Counter, key: string): nat {
    var i := KeyAt(counter, key);
    if i < 0 then 0 else counter[i].1
  }

  /** Counting `key` once more: an existing key keeps its place and a new
      one goes last. */
  function Bump(counter: Counter, key: string): Counter {
    var i := KeyAt(counter, key);
    if i < 0 then counter + [(key, 1)] else counter[i := (key, counter[i].1 + 1)]
  }

  /** Bumping keeps keys distinct and adds one to that key's count only. */
  lemma BumpCounts(counter: Counter, key: string)
    requires DistinctKeys(counter)
    ensures DistinctKeys(Bump(counter, key))
    ensures forall k :: CountIn(Bump(counter, key), k) == CountIn(counter, k) + (if k == key then 1 else 0)
  {
    var r := Bump(counter, key);
    BumpKeys(counter, key);
    forall k ensures CountIn(r, k) == CountIn(counter, k) + (if k == key then 1 else 0) {
      BumpCountOf(counter, key, k);
    }
  }

  /** Bumping keeps every old key in its place, adds `key` last when it was
      absent, and so keeps keys distinct. */
  lemma BumpKeys(counter: Counter, key: string)
    requires DistinctKeys(counter)
    ensures var r := Bump(counter, key);
            && (forall j :: 0 <= j < |counter| ==> r[j].0 == counter[j].0)
            && (KeyAt(counter, key) < 0 ==> |r| == |counter| + 1 && r[|counter|].0 == key)
            && (KeyAt(counter, key) >= 0 ==> |r| == |counter|)
            && DistinctKeys(r)
  {
  }

  /** The count of one key after a bump. */
  lemma BumpCountOf(counter: Counter, key: string, k: string)
    requires DistinctKeys(counter)
    ensures CountIn(Bump(counter, key), k) == CountIn(counter, k) + (if k == key then 1 else 0)
  {
    var r := Bump(counter, key);
    BumpKeys(counter, key);
    var a := KeyAt(counter, k);
    var b := KeyAt(r, k);
    if a >= 0 {
      assert r[a].0 == k;
      assert b == a;
    } else if k == key {
      assert r[|counter|].0 == k;
      assert b == |counter|;
    } else {
      assert forall j :: 0 <= j < |r| ==> r[j].0 != k;
      assert b < 0;
    }
  }

  /** `Counter.update(reasons)`: every reason counted once more. */
  function Update(counter: Counter, reasons: seq<string>): Counter {
    if |reasons| == 0 then counter
    else Bump(Update(counter, reasons[..|reasons| - 1]), reasons[|reasons| - 1])
  }

  /** Updating keeps keys distinct and adds each reason's multiplicity. */
  lemma {:induction false} UpdateCounts(counter: Counter, reasons: seq<string>)
    requires DistinctKeys(counter)
    ensures DistinctKeys(Update(counter, reasons))
    ensures forall k :: CountIn(Update(counter, reasons), k) == CountIn(counter, k) + multiset(reasons)[k]
  {
    if |reasons| > 0 {
      var last := |reasons| - 1;
      assert reasons == reasons[..last] + [reasons[last]];
      UpdateCounts(counter, reasons[..last]);
      BumpCounts(Update(counter, reasons[..last]), reasons[last]);
    }
  }

  /** The counter after the reasons of every HOLD row. */
  function Tally(rows: seq<DecisionRow>): Counter {
    if |rows| == 0 then []
    else
      var last := |rows| - 1;
      var before := Tally(rows[..last]);
      if IsHold(rows[last]) then Update(before, ReasonsOf(rows[last])) else before
  }

  /** How often a reason is given across the HOLD rows. */
  function Mentions(rows: seq<DecisionRow>, reason: string): nat {
    if |rows| == 0 then 0
    else
      var last := |rows| - 1;
      Mentions(rows[..last], reason) + (if IsHold(rows[last]) then multiset(ReasonsOf(rows[last]))[reason] else 0)
  }

  /** The tally holds each reason once and counts it exactly as often as
      HOLD rows give it; READY rows and NULL or malformed cells add
      nothing. */
  lemma {:induction false} TallyCountsHoldReasons(rows: seq<DecisionRow>)
    ensures DistinctKeys(Tally(rows))
    ensures forall reason :: CountIn(Tally(rows), reason) == Mentions(rows, reason)
  {
    if |rows| > 0 {
      var last := |rows| - 1;
      TallyCountsHoldReasons(rows[..last]);
      if IsHold(rows[last]) {
        UpdateCounts(Tally(rows[..last]), ReasonsOf(rows[last]));
      }
    }
  }

  /** The count of an item, the sort key of `most_common`. */
  function CountKey(item: (string, nat)): real {
    item.1 as real
  }

  /** `Counter.most_common(n)`: the items by count, largest first (ties
      in first-counted order), at most `n` of them. */
  function MostCommon(counter: Counter, n: nat): seq<(string, nat)> {
    var sorted := SortDesc(counter, CountKey);
    if |sorted| <= n then sorted else sorted[..n]
  }

  /** The five most frequent HOLD reasons. */
  function TopReasons(rows: seq<DecisionRow>): seq<(string, nat)> {
    MostCommon(Tally(rows), 5)
  }

  /** `most_common(n)` keeps `n` items, or all when fewer were counted,
      each one taken from the counter. */
  lemma {:induction false} MostCommonDrawsFromCounter(counter: Counter, n: nat)
    ensures |MostCommon(counter, n)| == (if |counter| <= n then |counter| else n)
    ensures multiset(MostCommon(counter, n)) <= multiset(counter)
  {
    var sorted := SortDesc(counter, CountKey);
    var top := MostCommon(counter, n);
    assert sorted == top + sorted[|top|..];
    assert multiset(sorted) == multiset(top) + multiset(sorted[|top|..]);
  }

  /** Every item `most_common(n)` reports is an item of the counter. */
  lemma MostCommonItemsCounted(counter: Counter, n: nat)
    ensures forall i :: 0 <= i < |MostCommon(counter, n)| ==> MostCommon(counter, n)[i] in counter
  {
    var top := MostCommon(counter, n);
    MostCommonDrawsFromCounter(counter, n);
    forall i | 0 <= i < |top| ensures top[i] in counter {
      assert top[i] in multiset(top);
      assert top[i] in multiset(counter);
    }
  }

  /** In a counter that holds each key once, an item's count is the count
      looked up under its key. */
  lemma CountOfItem(counter: Counter, item: (string, nat))
    requires DistinctKeys(counter) && item in counter
    ensures CountIn(counter, item.0) == item.1
  {
    var k :| 0 <= k < |counter| && counter[k] == item;
    assert KeyAt(counter, item.0) == k;
  }

  /** `most_common(n)` lists its items largest count first, and an item it
      leaves out is counted no more often than any it keeps. */
  lemma {:induction false} MostCommonKeepsLargest(counter: Counter, n: nat)
    ensures forall i, j :: 0 <= i < j < |MostCommon(counter, n)| ==>
              MostCommon(counter, n)[i].1 >= MostCommon(counter, n)[j].1
    ensures forall item, i :: item in counter && item !in MostCommon(counter, n) && 0 <= i < |MostCommon(counter, n)| ==>
              item.1 <= MostCommon(counter, n)[i].1
  {
    var sorted := SortDesc(counter, CountKey);
    var top := MostCommon(counter, n);
    assert forall j :: 0 <= j < |top| ==> top[j] == sorted[j];
    forall i, j | 0 <= i < j < |top| ensures top[i].1 >= top[j].1 {
      assert CountKey(sorted[i]) >= CountKey(sorted[j]);
    }
    forall item, i | item in counter && item !in top && 0 <= i < |top| ensures item.1 <= top[i].1 {
      assert item in multiset(sorted);
      var k :| 0 <= k < |sorted| && sorted[k] == item;
      assert k >= |top|;
      assert CountKey(sorted[i]) >= CountKey(sorted[k]);
    }
  }

  /** The five most frequent reasons are reported, or all of them when
      fewer were given, each taken from the tally with its true count,
      largest first; a reason left out is given no more often than any
      reported one. */
  lemma {:induction false} TopReasonsAreMostCommon(rows: seq<DecisionRow>)
    ensures |TopReasons(rows)| == (if |Tally(rows)| <= 5 then |Tally(rows)| else 5)
    ensures multiset(TopReasons(rows)) <= multiset(Tally(rows))
    ensures forall i :: 0 <= i < |TopReasons(rows)| ==> TopReasons(rows)[i].1 == Mentions(rows, TopReasons(rows)[i].0)
    ensures forall i, j :: 0 <= i < j < |TopReasons(rows)| ==> TopReasons(rows)[i].1 >= TopReasons(rows)[j].1
    ensures forall item, i :: item in Tally(rows) && item !in TopReasons(rows) && 0 <= i < |TopReasons(rows)| ==>
              item.1 <= TopReasons(rows)[i].1
  {
    var counter := Tally(rows);
    var top := TopReasons(rows);
    TallyCountsHoldReasons(rows);
    MostCommonDrawsFromCounter(counter, 5);
    MostCommonKeepsLargest(counter, 5);
    MostCommonItemsCounted(counter, 5);
    forall i | 0 <= i < |top| ensures top[i].1 == Mentions(rows, top[i].0) {
      CountOfItem(counter, top[i]);
    }
  }

  /** The tally loop of `compute_summary`. */
  method TallyHoldReasons(rows: seq<DecisionRow>) returns (counter: Counter)
    ensures counter == Tally(rows)
  {
    counter := [];
    for i := 0 to |rows|
      invariant counter == Tally(rows[..i])
    {
      assert rows[..i + 1][..i] == rows[..i];
      if IsHold(rows[i]) {
        var reasons := match rows[i].reasons case Json(list) => list case _ => [];
        counter := Update(counter, reasons);
      }
    }
    assert rows[..|rows|] == rows;
  }

  // ---- The summary ----

  /** `compute_summary` on the three tables' rows. */
  function SummaryOf(equity: seq<real>, tradeCosts: seq<real>, decisions: seq<DecisionRow>, startEquity: real): Summary {
    var end := EndEquity(equity, startEquity);
    var pnl := end - startEquity;
    var ready := Rows(decisions, "READY");
    Summary(startEquity, end, pnl, PnlPct(pnl, startEquity),
            |tradeCosts|, Sum(tradeCosts), MaxDrawdownPct(equity),
            AvgOverReady(EdgeColumn(ready), ready), AvgOverReady(NetEdgeColumn(ready), ready),
            TopReasons(decisions))
  }

  /** `compute_summary`: the straight-line figures, the drawdown loop and
      the reason tally. */
  method ComputeSummary(equity: seq<real>, tradeCosts: seq<real>, decisions: seq<DecisionRow>, startEquity: real)
    returns (s: Summary)
    ensures s == SummaryOf(equity, tradeCosts, decisions, startEquity)
  {
    var end := EndEquity(equity, startEquity);
    var pnl := end - startEquity;
    var pnlPct := if startEquity != 0.0 then pnl / startEquity * 100.0 else 0.0;
    var totalCost := if |tradeCosts| > 0 then Sum(tradeCosts) else 0.0;
    var maxDrawdownPct := ComputeMaxDrawdownPct(equity);
    var ready := Rows(decisions, "READY");
    var avgEdge := if |ready| > 0 then Mean(EdgeColumn(ready)) else Some(0.0);
    var avgNetEdge := if |ready| > 0 then Mean(NetEdgeColumn(ready)) else Some(0.0);
    var counter := TallyHoldReasons(decisions);
    var top := MostCommon(counter, 5);
    s := Summary(startEquity, end, pnl, pnlPct, |tradeCosts|, totalCost, maxDrawdownPct, avgEdge, avgNetEdge, top);
  }
}
