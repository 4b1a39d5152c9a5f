/** The earlier score table of the repository root (score_engine.py): one
    row per snapshot symbol with fixed-weight momentum, ranked by score with
    unscored (NaN) rows last, and the edge/cost columns against the held
    asset. A table is a sequence of rows; a NaN cell is `None`. */
module LegacyScores {
  import opened Common

  /** One snapshot entry: the price now and the three lookback prices. */
  datatype Lookback = Lookback(priceNow: real, price15m: Option<real>, price1h: Option<real>, price4h: Option<real>)

  datatype ScoreRecord = ScoreRecord(
    asset: string, score: Option<real>,
    ret15m: Option<real>, ret1h: Option<real>, ret4h: Option<real>, historyOk: bool)

  /** `ZeroDivisionError` raised while scoring `asset`. */
  datatype ScoreError = ZeroDivision(asset: string)

  /** `price_now / past - 1`. */
  function Return(now: real, past: real): real
    requires past != 0.0
  {
    now / past - 1.0
  }

  /** `0.5 * ret_15m + 0.3 * ret_1h + 0.2 * ret_4h`. */
  function Weighted(r15: real, r1h: real, r4h: real): real {
    0.5 * r15 + 0.3 * r1h + 0.2 * r4h
  }

  /** The record of one snapshot entry (the body of the `compute_scores`
      loop): full returns and a score when all three lookbacks exist, NaN
      everywhere otherwise; a zero lookback price raises. */
  function RecordOf(symbol: string, p: Lookback): (r: Result<ScoreRecord, ScoreError>)
    ensures var ok := p.price15m.Some? && p.price1h.Some? && p.price4h.Some?;
            && (r.Err? <==> ok && (p.price15m.value == 0.0 || p.price1h.value == 0.0 || p.price4h.value == 0.0))
            && (r.Err? ==> r.error == ZeroDivision(symbol))
            && (r.Ok? ==> r.value.asset == symbol && r.value.historyOk == ok)
            && (r.Ok? && !ok ==> r.value.score.None? && r.value.ret15m.None? && r.value.ret1h.None? && r.value.ret4h.None?)
            && (r.Ok? && ok ==>
                  && r.value.ret15m == Some(Return(p.priceNow, p.price15m.value))
                  && r.value.ret1h == Some(Return(p.priceNow, p.price1h.value))
                  && r.value.ret4h == Some(Return(p.priceNow, p.price4h.value))
                  && r.value.score == Some(Weighted(r.value.ret15m.value, r.value.ret1h.value, r.value.ret4h.value)))
  {
    if p.price15m.Some? && p.price1h.Some? && p.price4h.Some? then
      if p.price15m.value == 0.0 || p.price1h.value == 0.0 || p.price4h.value == 0.0 then
        Err(ZeroDivision(symbol))
      else
        var r15 := Return(p.priceNow, p.price15m.value);
        var r1h := Return(p.priceNow, p.price1h.value);
        var r4h := Return(p.priceNow, p.price4h.value);
        Ok(ScoreRecord(symbol, Some(Weighted(r15, r1h, r4h)), Some(r15), Some(r1h), Some(r4h), true))
    else
      Ok(ScoreRecord(symbol, None, None, None, None, false))
  }

  /** The records of a snapshot in snapshot order, or the first error. */
  function Records(snapshot: seq<(string, Lookback)>): (r: Result<seq<ScoreRecord>, ScoreError>)
    ensures r.Ok? ==> |r.value| == |snapshot|
    ensures r.Ok? ==> forall i :: 0 <= i < |snapshot| ==> RecordOf(snapshot[i].0, snapshot[i].1) == Ok(r.value[i])
    ensures r.Err? <==> exists i :: 0 <= i < |snapshot| && RecordOf(snapshot[i].0, snapshot[i].1).Err?
    ensures r.Err? ==> exists i :: 0 <= i < |snapshot| && RecordOf(snapshot[i].0, snapshot[i].1) == Err(r.error)
                                   && forall k :: 0 <= k < i ==> RecordOf(snapshot[k].0, snapshot[k].1).Ok?
  {
    if |snapshot| == 0 then Ok([])
    else
      var last := |snapshot| - 1;
      var prefix := Records(snapshot[..last]);
      if prefix.Err? then
        assert forall i :: 0 <= i < last ==> snapshot[..last][i] == snapshot[i];
        prefix
      else
        match RecordOf(snapshot[last].0, snapshot[last].1)
        case Err(e) => Err(e)
        case Ok(rec) =>
          assert forall i :: 0 <= i < last ==> snapshot[..last][i] == snapshot[i];
          Ok(prefix.value + [rec])
  }

  /** The sort key of a scored row. */
  function ScoreKey(r: ScoreRecord): real {
    if r.score.Some? then r.score.value else 0.0
  }

  /** The rows that carry a score, in order. */
  function Scored(rows: seq<ScoreRecord>): (r: seq<ScoreRecord>)
    ensures forall x :: x in r <==> x in rows && x.score.Some?
    ensures |r| <= |rows|
  {
    if |rows| == 0 then []
    else (if rows[0].score.Some? then [rows[0]] else []) + Scored(rows[1..])
  }

  /** The rows whose score is NaN, in order. */
  function Unscored(rows: seq<ScoreRecord>): (r: seq<ScoreRecord>)
    ensures forall x :: x in r <==> x in rows && x.score.None?
  {
    if |rows| == 0 then []
    else (if rows[0].score.None? then [rows[0]] else []) + Unscored(rows[1..])
  }

  lemma {:induction false} SplitIsPermutation(rows: seq<ScoreRecord>)
    ensures multiset(Scored(rows)) + multiset(Unscored(rows)) == multiset(rows)
  {
    if |rows| > 0 {
      var head, tail := rows[0], rows[1..];
      SplitIsPermutation(tail);
      assert rows == [head] + tail;
      assert multiset(rows) == multiset{head} + multiset(tail);
      if head.score.Some? {
        assert Scored(rows) == [head] + Scored(tail);
        assert Unscored(rows) == Unscored(tail);
      } else {
        assert Scored(rows) == Scored(tail);
        assert Unscored(rows) == [head] + Unscored(tail);
      }
    }
  }

  /** `sort_values(by="score", ascending=False)`: scored rows by score,
      largest first, then the NaN rows. */
  function RankTable(rows: seq<ScoreRecord>): seq<ScoreRecord> {
    SortDesc(Scored(rows), ScoreKey) + Unscored(rows)
  }

  /** The ranked table is a reordering of the rows, scored rows come first
      in descending score, and every NaN row comes after them. */
  lemma RankTableIsRanking(rows: seq<ScoreRecord>)
    ensures var t := RankTable(rows);
            && multiset(t) == multiset(rows)
            && (forall i, j :: 0 <= i < j < |t| && t[j].score.Some? ==>
                  t[i].score.Some? && t[i].score.value >= t[j].score.value)
  {
    SplitIsPermutation(rows);
    var sorted := SortDesc(Scored(rows), ScoreKey);
    var t := RankTable(rows);
    forall i, j | 0 <= i < j < |t| && t[j].score.Some?
      ensures t[i].score.Some? && t[i].score.value >= t[j].score.value
    {
      if j < |sorted| {
        assert t[i] in multiset(Scored(rows)) && t[j] in multiset(Scored(rows));
        assert ScoreKey(sorted[i]) >= ScoreKey(sorted[j]);
      }
    }
  }

  /** `compute_scores`: the empty snapshot gives the empty table; otherwise
      the loop builds one record per entry and the table is ranked. */
  function ScoreTable(snapshot: seq<(string, Lookback)>): Result<seq<ScoreRecord>, ScoreError> {
    if |snapshot| == 0 then Ok([])
    else
      match Records(snapshot)
      case Err(e) => Err(e)
      case Ok(records) => Ok(RankTable(records))
  }

  /** One pass of the `compute_scores` loop. */
  method ScoreEntry(symbol: string, prices: Lookback) returns (r: Result<ScoreRecord, ScoreError>)
    ensures r == RecordOf(symbol, prices)
  {
    var history := prices.price15m.Some? && prices.price1h.Some? && prices.price4h.Some?;
    if history {
      if prices.price15m.value == 0.0 || prices.price1h.value == 0.0 || prices.price4h.value == 0.0 {
        return Err(ZeroDivision(symbol));
      }
      var r15 := prices.priceNow / prices.price15m.value - 1.0;
      var r1h := prices.priceNow / prices.price1h.value - 1.0;
      var r4h := prices.priceNow / prices.price4h.value - 1.0;
      r := Ok(ScoreRecord(symbol, Some(0.5 * r15 + 0.3 * r1h + 0.2 * r4h), Some(r15), Some(r1h), Some(r4h), true));
    } else {
      r := Ok(ScoreRecord(symbol, None, None, None, None, false));
    }
  }

  /** The loop of `compute_scores`, then the sort. */
  method ComputeScores(snapshot: seq<(string, Lookback)>) returns (r: Result<seq<ScoreRecord>, ScoreError>)
    ensures r == ScoreTable(snapshot)
  {
    if |snapshot| == 0 {
      return Ok([]);
    }
    var records: seq<ScoreRecord> := [];
    for i := 0 to |snapshot|
      invariant Records(snapshot[..i]) == Ok(records)
    {
      assert snapshot[..i + 1][..i] == snapshot[..i];
      var (symbol, prices) := snapshot[i];
      var record := ScoreEntry(symbol, prices);
      if record.Err? {
        return Err(record.error);
      }
      records := records + [record.value];
    }
    assert snapshot[..|snapshot|] == snapshot;
    r := Ok(RankTable(records));
  }

  /** A successful table has exactly one row per snapshot entry, ranked by
      score with the NaN rows last. */
  lemma ScoreTableIsRanked(snapshot: seq<(string, Lookback)>)
    requires ScoreTable(snapshot).Ok?
    ensures var t := ScoreTable(snapshot).value;
            && |t| == |snapshot|
            && multiset(t) == multiset(Records(snapshot).value)
            && (forall i, j :: 0 <= i < j < |t| && t[j].score.Some? ==>
                  t[i].score.Some? && t[i].score.value >= t[j].score.value)
  {
    if |snapshot| > 0 {
      RankTableIsRanking(Records(snapshot).value);
      assert |multiset(ScoreTable(snapshot).value)| == |multiset(Records(snapshot).value)|;
    }
  }

  // ------------------------------------------------------------ apply_costs

  datatype CostedRecord = CostedRecord(record: ScoreRecord, edge: Option<real>, cost: real, netEdge: Option<real>)

  /** The score of the first row of `asset`, if there is one. */
  function FirstScoreOf(rows: seq<ScoreRecord>, asset: string): (r: Option<Option<real>>)
    ensures r.None? <==> forall i :: 0 <= i < |rows| ==> rows[i].asset != asset
    ensures r.Some? ==> exists i :: 0 <= i < |rows| && rows[i].asset == asset && rows[i].score == r.value
                                    && forall k :: 0 <= k < i ==> rows[k].asset != asset
  {
    if |rows| == 0 then None
    else if rows[0].asset == asset then Some(rows[0].score)
    else
      var r := FirstScoreOf(rows[1..], asset);
      if r.Some? then
        var i :| 0 <= i < |rows[1..]| && rows[1..][i].asset == asset && rows[1..][i].score == r.value
                 && forall k :: 0 <= k < i ==> rows[1..][k].asset != asset;
        assert rows[i + 1].asset == asset && forall k :: 0 <= k < i + 1 ==> rows[k].asset != asset;
        r
      else r
  }

  /** `current_score`: the first row of the held asset, 0.0 when the asset
      is absent or its score is NaN. */
  function Baseline(rows: seq<ScoreRecord>, currentAsset: string): real {
    match FirstScoreOf(rows, currentAsset)
    case Some(Some(s)) => s
    case _ => 0.0
  }

  /** `apply_costs` on a copy of the table: `edge = score - current_score`
      (NaN stays NaN), `cost` the constant, `net_edge = edge - cost`. */
  function ApplyCosts(rows: seq<ScoreRecord>, currentAsset: string, costPct: real): (r: seq<CostedRecord>)
    ensures |r| == |rows|
    ensures forall i :: 0 <= i < |rows| ==> r[i].record == rows[i] && r[i].cost == costPct
  {
    var base := Baseline(rows, currentAsset);
    seq(|rows|, i requires 0 <= i < |rows| =>
      var edge := if rows[i].score.Some? then Some(rows[i].score.value - base) else None;
      CostedRecord(rows[i], edge, costPct, if edge.Some? then Some(edge.value - costPct) else None))
  }

  /** Measured against the held asset: its own first row has edge 0, a row
      has an edge exactly when it has a score, and the net edge is the edge
      less the cost. */
  lemma CostsMeasureAgainstHeldAsset(rows: seq<ScoreRecord>, currentAsset: string, costPct: real)
    ensures var r := ApplyCosts(rows, currentAsset, costPct);
            && (forall i :: 0 <= i < |rows| ==> (r[i].edge.Some? <==> rows[i].score.Some?))
            && (forall i :: 0 <= i < |rows| && r[i].edge.Some? ==> r[i].netEdge == Some(r[i].edge.value - costPct))
            && (forall i :: (0 <= i < |rows| && rows[i].asset == currentAsset && rows[i].score.Some?
                             && forall k :: 0 <= k < i ==> rows[k].asset != currentAsset)
                           ==> r[i].edge == Some(0.0))
            && ((forall i :: 0 <= i < |rows| ==> rows[i].asset != currentAsset) ==>
                  forall i :: 0 <= i < |rows| && rows[i].score.Some? ==> r[i].edge == rows[i].score)
  {
    var r := ApplyCosts(rows, currentAsset, costPct);
    forall i | 0 <= i < |rows| && rows[i].asset == currentAsset && rows[i].score.Some?
               && (forall k :: 0 <= k < i ==> rows[k].asset != currentAsset)
      ensures r[i].edge == Some(0.0)
    {
      var f := FirstScoreOf(rows, currentAsset);
      var j :| 0 <= j < |rows| && rows[j].asset == currentAsset && rows[j].score == f.value
               && forall k :: 0 <= k < j ==> rows[k].asset != currentAsset;
      assert j == i;
    }
  }

  /** Costs keep the ranking: on a ranked table the edges descend too. */
  lemma CostsKeepRanking(rows: seq<ScoreRecord>, currentAsset: string, costPct: real)
    requires forall i, j :: 0 <= i < j < |rows| && rows[j].score.Some? ==>
               rows[i].score.Some? && rows[i].score.value >= rows[j].score.value
    ensures var r := ApplyCosts(rows, currentAsset, costPct);
            forall i, j :: 0 <= i < j < |r| && r[j].netEdge.Some? ==>
              r[i].netEdge.Some? && r[i].netEdge.value >= r[j].netEdge.value
  {
  }
}
