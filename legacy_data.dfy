/** The earlier price feed of the repository root (data_provider.py): a
    count-bounded price history per symbol, a lookup that falls back to
    the oldest price, and the snapshot `update` builds from one batch of
    fetched prices. The HTTP fetch and the clock are inputs: the fetched
    prices arrive as `Some(pairs)`, a request failure as `None`. */
module LegacyData {
  import opened Common
  import LegacyScores

  /** A history point: (timestamp in seconds, price). */
  type Point = (real, real)

  /** `PriceHistory.maxlen` when a history is created without one. */
  const DefaultMaxLen: int := 3600

  /** The lookback spans of `update`: 15 minutes, 1 hour, 4 hours. */
  const Span15m: real := 900.0
  const Span1h: real := 3600.0
  const Span4h: real := 14400.0

  /** The points after `append`: the new point last, and only the newest
      `maxlen` points kept. */
  function Appended(points: seq<Point>, timestamp: real, price: real, maxlen: nat): seq<Point> {
    var all := points + [(timestamp, price)];
    if |all| > maxlen then all[|all| - maxlen..] else all
  }

  /** `append` keeps a suffix of the old points followed by the new one,
      as many as fit in `maxlen`. */
  lemma AppendedKeepsNewest(points: seq<Point>, timestamp: real, price: real, maxlen: nat)
    ensures var r := Appended(points, timestamp, price, maxlen);
            && |r| == (if |points| + 1 <= maxlen then |points| + 1 else maxlen)
            && (|r| > 0 ==> r[|r| - 1] == (timestamp, price))
            && (|r| > 1 ==> r[..|r| - 1] == points[|points| + 1 - |r|..])
  {
  }

  /** `i` is the last point stamped at or before `target`. */
  predicate LatestIndex(points: seq<Point>, target: real, i: int) {
    && 0 <= i < |points| && points[i].0 <= target
    && forall k :: i < k < |points| ==> points[k].0 > target
  }

  /** The reverse scan of `price_at`: the price of the last point stamped
      at or before `target`, if any. */
  function LatestAtOrBefore(points: seq<Point>, target: real): Option<real> {
    if |points| == 0 then None
    else if points[|points| - 1].0 <= target then Some(points[|points| - 1].1)
    else LatestAtOrBefore(points[..|points| - 1], target)
  }

  /** The scan finds the last point at or before `target`, and finds
      nothing exactly when every point is later. */
  lemma {:induction false} LatestAtOrBeforeFindsLast(points: seq<Point>, target: real)
    ensures var r := LatestAtOrBefore(points, target);
            && (r.None? <==> forall i :: 0 <= i < |points| ==> points[i].0 > target)
            && (r.Some? ==> exists i :: LatestIndex(points, target, i) && points[i].1 == r.value)
  {
    if |points| > 0 {
      var last := |points| - 1;
      if points[last].0 <= target {
        assert LatestIndex(points, target, last);
      } else {
        LatestAtOrBeforeFindsLast(points[..last], target);
        assert forall i :: 0 <= i < last ==> points[..last][i] == points[i];
        var r := LatestAtOrBefore(points[..last], target);
        if r.Some? {
          var i :| LatestIndex(points[..last], target, i) && points[..last][i].1 == r.value;
          assert LatestIndex(points, target, i);
        }
      }
    }
  }

  /** `price_at`: the latest price at or before `target`; failing that the
      oldest price; None only for an empty history. */
  function PriceAt(points: seq<Point>, target: real): Option<real> {
    match LatestAtOrBefore(points, target)
    case Some(p) => Some(p)
    case None => if |points| > 0 then Some(points[0].1) else None
  }

  /** `price_at` answers for every non-empty history: with the last price
      at or before `target`, or else with the oldest price, which then is
      later than `target`. */
  lemma PriceAtAnswers(points: seq<Point>, target: real)
    ensures PriceAt(points, target).None? <==> |points| == 0
    ensures |points| > 0 ==>
              || (exists i :: LatestIndex(points, target, i) && PriceAt(points, target) == Some(points[i].1))
              || (PriceAt(points, target) == Some(points[0].1) && forall i :: 0 <= i < |points| ==> points[i].0 > target)
  {
    LatestAtOrBeforeFindsLast(points, target);
  }

  /** `_price_delta`: the price `span` seconds before `now`, or the
      fallback when the history is empty. */
  function PriceDelta(points: seq<Point>, now: real, span: real, fallback: real): real {
    match PriceAt(points, now - span)
    case Some(p) => p
    case None => fallback
  }

  /** The fallback is taken only for an empty history; otherwise the
      answer is one of the history's prices. */
  lemma PriceDeltaFromHistory(points: seq<Point>, now: real, span: real, fallback: real)
    ensures |points| == 0 ==> PriceDelta(points, now, span, fallback) == fallback
    ensures |points| > 0 ==> exists i :: 0 <= i < |points| && PriceDelta(points, now, span, fallback) == points[i].1
  {
    PriceAtAnswers(points, now - span);
  }

  /** The snapshot entry of one symbol from its history after the append. */
  function EntryOf(points: seq<Point>, now: real, price: real): LegacyScores.Lookback {
    LegacyScores.Lookback(price,
      Some(PriceDelta(points, now, Span15m, price)),
      Some(PriceDelta(points, now, Span1h, price)),
      Some(PriceDelta(points, now, Span4h, price)))
  }

  /** A symbol's points, empty when it has no history yet (what
      `setdefault` hands to `append`). */
  function PointsOf(points: map<string, seq<Point>>, symbol: string): seq<Point> {
    if symbol in points then points[symbol] else []
  }

  /** The history points after a batch: each fetched symbol, in order, gets
      its price appended. */
  function UpdatedPoints(points: map<string, seq<Point>>, prices: seq<(string, real)>, now: real): map<string, seq<Point>> {
    if |prices| == 0 then points
    else
      var last := |prices| - 1;
      var m := UpdatedPoints(points, prices[..last], now);
      m[prices[last].0 := Appended(PointsOf(m, prices[last].0), now, prices[last].1, DefaultMaxLen)]
  }

  /** A symbol the batch does not list keeps its points. */
  lemma {:induction false} UpdatedPointsUntouched(points: map<string, seq<Point>>, prices: seq<(string, real)>, now: real,
                                                  symbol: string)
    requires forall k :: 0 <= k < |prices| ==> prices[k].0 != symbol
    ensures PointsOf(UpdatedPoints(points, prices, now), symbol) == PointsOf(points, symbol)
  {
    if |prices| > 0 {
      var last := |prices| - 1;
      assert forall k :: 0 <= k < last ==> prices[..last][k] == prices[k];
      UpdatedPointsUntouched(points, prices[..last], now, symbol);
    }
  }

  /** The next symbol of a batch of distinct symbols still has its
      starting points, and the batch one longer appends to them. */
  lemma UpdatedPointsNext(start: map<string, seq<Point>>, prices: seq<(string, real)>, i: nat, now: real)
    requires DistinctSymbols(prices) && i < |prices|
    ensures var m := UpdatedPoints(start, prices[..i], now);
            && PointsOf(m, prices[i].0) == PointsOf(start, prices[i].0)
            && UpdatedPoints(start, prices[..i + 1], now)
               == m[prices[i].0 := Appended(PointsOf(m, prices[i].0), now, prices[i].1, DefaultMaxLen)]
  {
    var symbol := prices[i].0;
    assert prices[..i + 1][..i] == prices[..i] && prices[..i + 1][i] == prices[i];
    forall k | 0 <= k < i ensures prices[..i][k].0 != symbol {
      assert prices[..i][k] == prices[k];
    }
    UpdatedPointsUntouched(start, prices[..i], now, symbol);
  }

  /** Per fetched symbol, in order: the symbol, its old points with the
      fetched price appended, and the price. */
  function Extended(points: map<string, seq<Point>>, prices: seq<(string, real)>, now: real): (r: seq<(string, seq<Point>, real)>)
    ensures |r| == |prices|
  {
    if |prices| == 0 then []
    else
      var last := |prices| - 1;
      Extended(points, prices[..last], now)
      + [(prices[last].0, Appended(PointsOf(points, prices[last].0), now, prices[last].1, DefaultMaxLen), prices[last].1)]
  }

  lemma {:induction false} ExtendedAt(points: map<string, seq<Point>>, prices: seq<(string, real)>, now: real)
    ensures forall i :: 0 <= i < |prices| ==>
              Extended(points, prices, now)[i]
              == (prices[i].0, Appended(PointsOf(points, prices[i].0), now, prices[i].1, DefaultMaxLen), prices[i].1)
  {
    if |prices| > 0 {
      var last := |prices| - 1;
      ExtendedAt(points, prices[..last], now);
      assert forall i :: 0 <= i < last ==> prices[..last][i] == prices[i];
    }
  }

  /** The snapshot entries of extended histories, in order. */
  function Entries(batch: seq<(string, seq<Point>, real)>, now: real): seq<(string, LegacyScores.Lookback)> {
    if |batch| == 0 then []
    else
      var last := |batch| - 1;
      Entries(batch[..last], now) + [(batch[last].0, EntryOf(batch[last].1, now, batch[last].2))]
  }

  lemma {:induction false} EntriesAt(batch: seq<(string, seq<Point>, real)>, now: real)
    ensures |Entries(batch, now)| == |batch|
    ensures forall i :: 0 <= i < |batch| ==> Entries(batch, now)[i] == (batch[i].0, EntryOf(batch[i].1, now, batch[i].2))
  {
    if |batch| > 0 {
      var last := |batch| - 1;
      EntriesAt(batch[..last], now);
      assert forall i :: 0 <= i < last ==> batch[..last][i] == batch[i];
    }
  }

  /** The snapshot `update` returns for a batch of fetched prices. */
  function Snapshot(points: map<string, seq<Point>>, prices: seq<(string, real)>, now: real): seq<(string, LegacyScores.Lookback)> {
    Entries(Extended(points, prices, now), now)
  }

  /** Entry `i` of the snapshot belongs to fetched symbol `i`: its price
      now is the fetched price and its lookbacks come from the symbol's
      history with that price appended, never from the fallback. */
  lemma SnapshotEntries(points: map<string, seq<Point>>, prices: seq<(string, real)>, now: real, i: int)
    requires 0 <= i < |prices|
    ensures var snap := Snapshot(points, prices, now);
            var extended := Appended(PointsOf(points, prices[i].0), now, prices[i].1, DefaultMaxLen);
            && |snap| == |prices|
            && snap[i] == (prices[i].0, EntryOf(extended, now, prices[i].1))
            && snap[i].1.priceNow == prices[i].1
            && (exists k :: 0 <= k < |extended| && snap[i].1.price15m == Some(extended[k].1))
            && (exists k :: 0 <= k < |extended| && snap[i].1.price1h == Some(extended[k].1))
            && (exists k :: 0 <= k < |extended| && snap[i].1.price4h == Some(extended[k].1))
  {
    ExtendedAt(points, prices, now);
    EntriesAt(Extended(points, prices, now), now);
    EntryUsesHistory(Appended(PointsOf(points, prices[i].0), now, prices[i].1, DefaultMaxLen), now, prices[i].1);
  }

  /** Each symbol of a dict appears once. */
  predicate DistinctSymbols(prices: seq<(string, real)>) {
    forall i, j :: 0 <= i < j < |prices| ==> prices[i].0 != prices[j].0
  }

  /** The dict has an item for `key`. */
  predicate HasKey(dict: seq<(string, real)>, key: string) {
    exists i :: 0 <= i < |dict| && dict[i].0 == key
  }

  /** The position of `key` among the dict's items, -1 when absent. */
  function KeyIndex(dict: seq<(string, real)>, key: string): (i: int)
    ensures -1 <= i < |dict|
    ensures i >= 0 ==> dict[i].0 == key
    ensures i < 0 <==> !HasKey(dict, key)
  {
    if |dict| == 0 then -1
    else if dict[|dict| - 1].0 == key then |dict| - 1
    else
      var i := KeyIndex(dict[..|dict| - 1], key);
      assert forall j :: 0 <= j < |dict| - 1 ==> dict[..|dict| - 1][j] == dict[j];
      i
  }

  /** `prices[symbol] = value` on a dict kept as its insertion-ordered
      items: an existing key keeps its place and takes the new value, a new
      key goes last. */
  function DictSet(dict: seq<(string, real)>, key: string, value: real): (r: seq<(string, real)>)
    requires DistinctSymbols(dict)
    ensures DistinctSymbols(r)
    ensures forall s :: HasKey(r, s) <==> s == key || HasKey(dict, s)
    ensures HasKey(dict, key) ==>
              |r| == |dict| && forall i :: 0 <= i < |dict| ==> r[i] == (if dict[i].0 == key then (key, value) else dict[i])
    ensures !HasKey(dict, key) ==> r == dict + [(key, value)]
  {
    var i := KeyIndex(dict, key);
    var r := if i >= 0 then dict[i := (key, value)] else dict + [(key, value)];
    assert forall s :: HasKey(r, s) ==> s == key || HasKey(dict, s) by {
      forall s | HasKey(r, s) ensures s == key || HasKey(dict, s) {
        var j :| 0 <= j < |r| && r[j].0 == s;
        if s != key { assert dict[j].0 == s; }
      }
    }
    assert forall s :: s == key || HasKey(dict, s) ==> HasKey(r, s) by {
      forall s | s == key || HasKey(dict, s) ensures HasKey(r, s) {
        if s == key {
          assert r[if i >= 0 then i else |dict|].0 == key;
        } else {
          var j :| 0 <= j < |dict| && dict[j].0 == s;
          assert r[j].0 == s;
        }
      }
    }
    r
  }

  /** The `price` field of a ticker item: absent (read as 0), a number, or
      something `float` rejects. */
  datatype PriceField = Missing | Number(value: real) | Unparsable

  /** One item of the ticker payload: its `symbol` (None when absent) and
      its `price` field. */
  datatype TickerItem = TickerItem(symbol: Option<string>, price: PriceField)

  /** The payload lists `symbol` with a price `float` accepts. */
  predicate Quoted(payload: seq<TickerItem>, symbol: string) {
    exists k :: 0 <= k < |payload| && payload[k].symbol == Some(symbol) && !payload[k].price.Unparsable?
  }

  /** `fetch_prices` on a received payload: the items whose symbol was
      asked for and whose price parses, a missing price read as 0, a later
      item of the same symbol overwriting an earlier one in place. */
  function FetchPrices(payload: seq<TickerItem>, symbols: seq<string>): (r: seq<(string, real)>)
    ensures DistinctSymbols(r)
    ensures forall s :: HasKey(r, s) <==> s in symbols && Quoted(payload, s)
  {
    if |payload| == 0 then []
    else
      var last := |payload| - 1;
      var prices := FetchPrices(payload[..last], symbols);
      var item := payload[last];
      QuotedStep(payload);
      if item.symbol.Some? && item.symbol.value in symbols && !item.price.Unparsable? then
        DictSet(prices, item.symbol.value, if item.price.Missing? then 0.0 else item.price.value)
      else
        prices
  }

  /** Quoting in a longer payload: quoted before, or by the last item. */
  lemma QuotedStep(payload: seq<TickerItem>)
    requires |payload| > 0
    ensures var last := payload[|payload| - 1];
            forall s :: Quoted(payload, s) <==>
                          Quoted(payload[..|payload| - 1], s) || (last.symbol == Some(s) && !last.price.Unparsable?)
  {
    var last := |payload| - 1;
    forall s ensures Quoted(payload, s) <==>
                     Quoted(payload[..last], s) || (payload[last].symbol == Some(s) && !payload[last].price.Unparsable?) {
      if Quoted(payload, s) {
        var k :| 0 <= k < |payload| && payload[k].symbol == Some(s) && !payload[k].price.Unparsable?;
        if k < last { assert payload[..last][k] == payload[k]; }
      }
      if Quoted(payload[..last], s) {
        var k :| 0 <= k < last && payload[..last][k].symbol == Some(s) && !payload[..last][k].price.Unparsable?;
        assert payload[k] == payload[..last][k];
      }
    }
  }

  /** When the payload ends with an item quoting an asked-for symbol, that
      item's price is the symbol's fetched price. */
  lemma {:induction false} LastItemWins(payload: seq<TickerItem>, symbols: seq<string>, s: string, value: real)
    requires s in symbols && |payload| > 0 && payload[|payload| - 1] == TickerItem(Some(s), Number(value))
    ensures exists i :: 0 <= i < |FetchPrices(payload, symbols)| && FetchPrices(payload, symbols)[i] == (s, value)
  {
    var prices := FetchPrices(payload[..|payload| - 1], symbols);
    var r := FetchPrices(payload, symbols);
    if HasKey(prices, s) {
      var i :| 0 <= i < |prices| && prices[i].0 == s;
      assert r[i] == (s, value);
    } else {
      assert r[|r| - 1] == (s, value);
    }
  }

  /** A snapshot entry never uses the fallback: the history was just
      extended, so every lookback price is one the history holds. */
  lemma EntryUsesHistory(points: seq<Point>, now: real, price: real)
    requires |points| > 0
    ensures var e := EntryOf(points, now, price);
            && (exists i :: 0 <= i < |points| && e.price15m == Some(points[i].1))
            && (exists i :: 0 <= i < |points| && e.price1h == Some(points[i].1))
            && (exists i :: 0 <= i < |points| && e.price4h == Some(points[i].1))
  {
    PriceDeltaFromHistory(points, now, Span15m, price);
    PriceDeltaFromHistory(points, now, Span1h, price);
    PriceDeltaFromHistory(points, now, Span4h, price);
  }

  /** A symbol seen for the first time has flat lookbacks: its one point is
      newer than every lookback time, so each lookup takes the oldest
      price, which is the price just fetched. */
  lemma {:induction false} FirstSightIsFlat(now: real, price: real)
    ensures EntryOf(Appended([], now, price, DefaultMaxLen), now, price)
            == LegacyScores.Lookback(price, Some(price), Some(price), Some(price))
  {
    assert Appended([], now, price, DefaultMaxLen) == [(now, price)];
    LoneLaterPoint(now, price, now - Span15m);
    LoneLaterPoint(now, price, now - Span1h);
    LoneLaterPoint(now, price, now - Span4h);
  }

  /** Scored on its first snapshot, a symbol gets 0 for every return and
      for the score; a zero price makes `compute_scores` raise instead. */
  lemma FirstSightScoresZero(symbol: string, now: real, price: real)
    ensures var r := LegacyScores.RecordOf(symbol, EntryOf(Appended([], now, price, DefaultMaxLen), now, price));
            && (r.Err? <==> price == 0.0)
            && (price != 0.0 ==> r == Ok(LegacyScores.ScoreRecord(symbol, Some(0.0), Some(0.0), Some(0.0), Some(0.0), true)))
  {
    FirstSightIsFlat(now, price);
    if price != 0.0 {
      assert LegacyScores.Return(price, price) == 0.0;
    }
  }

  /** A lone point later than the target is still the answer. */
  lemma LoneLaterPoint(t: real, p: real, target: real)
    requires target < t
    ensures PriceAt([(t, p)], target) == Some(p)
  {
    var points: seq<Point> := [(t, p)];
    assert points[..0] == [];
    assert LatestAtOrBefore(points, target) == LatestAtOrBefore([], target) == None;
  }

  /** A `PriceHistory`: its points, oldest first, at most `maxlen` of them. */
  class PriceHistory {
    const maxlen: nat
    var points: seq<Point>

    constructor (maxlen: nat)
      ensures this.maxlen == maxlen && points == []
    {
      this.maxlen := maxlen;
      points := [];
    }

    /** `append`: add the point, then drop the oldest while over `maxlen`. */
    method Append(timestamp: real, price: real)
      modifies this
      ensures points == Appended(old(points), timestamp, price, maxlen)
    {
      points := points + [(timestamp, price)];
      ghost var all := points;
      while |points| > maxlen
        invariant |points| <= |all| && points == all[|all| - |points|..]
        invariant |points| < |all| ==> |points| >= maxlen
        decreases |points|
      {
        points := points[1..];
      }
      assert |all| > maxlen ==> |points| == maxlen;
    }
  }

  /** `BinanceDataProvider` without its HTTP session: the histories it keeps
      per symbol and whether the last fetch succeeded. */
  class DataProvider {
    var history: map<string, PriceHistory>
    var lastConnectionOk: bool
    ghost var Repr: set<object>
    /** The abstract state: each tracked symbol's points. */
    ghost var Points: map<string, seq<Point>>

    ghost predicate Valid()
      reads this, Repr
    {
      && this in Repr
      && (forall s :: s in history ==> history[s] in Repr)
      && Points.Keys == history.Keys
      && (forall s :: s in history ==> history[s].points == Points[s] && history[s].maxlen == DefaultMaxLen)
      && (forall s, t :: s in history && t in history && s != t ==> history[s] != history[t])
    }

    constructor ()
      ensures Valid() && fresh(Repr)
      ensures Points == map[] && lastConnectionOk
    {
      history := map[];
      lastConnectionOk := true;
      Repr := {this};
      Points := map[];
    }

    /** `setdefault`: the symbol's history, created empty if missing. */
    method HistoryFor(symbol: string) returns (h: PriceHistory)
      requires Valid()
      modifies this
      ensures Valid() && fresh(Repr - old(Repr))
      ensures lastConnectionOk == old(lastConnectionOk)
      ensures symbol in history && h == history[symbol]
      ensures Points == old(Points)[symbol := PointsOf(old(Points), symbol)]
    {
      if symbol in history {
        h := history[symbol];
      } else {
        h := new PriceHistory(DefaultMaxLen);
        history := history[symbol := h];
        Repr := Repr + {h};
        Points := Points[symbol := []];
      }
    }

    /** `append` on a tracked symbol's history: only that history changes. */
    method AppendTo(symbol: string, price: real, now: real)
      requires Valid() && symbol in history
      modifies this, history[symbol]
      ensures Valid() && Repr == old(Repr) && history == old(history)
      ensures lastConnectionOk == old(lastConnectionOk)
      ensures Points == old(Points)[symbol := Appended(old(Points)[symbol], now, price, DefaultMaxLen)]
    {
      history[symbol].Append(now, price);
      Points := Points[symbol := history[symbol].points];
    }

    /** `update` on the fetch result: a failed request clears the
        connection flag and gives the empty snapshot; a received payload
        sets it, appends every fetched price and gives one entry per
        fetched symbol, in fetch order, each from the history just
        extended. */
    method Update(symbols: seq<string>, fetched: Option<seq<TickerItem>>, now: real)
      returns (snapshot: seq<(string, LegacyScores.Lookback)>)
      requires Valid()
      modifies Repr
      ensures Valid() && fresh(Repr - old(Repr))
      ensures lastConnectionOk == fetched.Some?
      ensures fetched.None? ==> snapshot == [] && Points == old(Points)
      ensures fetched.Some? ==>
                var prices := FetchPrices(fetched.value, symbols);
                Points == UpdatedPoints(old(Points), prices, now) && snapshot == Snapshot(old(Points), prices, now)
    {
      if fetched.None? {
        lastConnectionOk := false;
        return [];
      }
      lastConnectionOk := true;
      snapshot := RecordAll(FetchPrices(fetched.value, symbols), now);
    }

    /** The loop of `update`: append each fetched price to its symbol's
        history and take the snapshot entry from the extended history. */
    method RecordAll(prices: seq<(string, real)>, now: real) returns (snapshot: seq<(string, LegacyScores.Lookback)>)
      requires Valid() && DistinctSymbols(prices)
      modifies Repr
      ensures Valid() && fresh(Repr - old(Repr))
      ensures lastConnectionOk == old(lastConnectionOk)
      ensures Points == UpdatedPoints(old(Points), prices, now)
      ensures snapshot == Snapshot(old(Points), prices, now)
    {
      snapshot := [];
      for i := 0 to |prices|
        invariant Valid() && fresh(Repr - old(Repr)) && lastConnectionOk == old(lastConnectionOk)
        invariant Points == UpdatedPoints(old(Points), prices[..i], now)
        invariant snapshot == Snapshot(old(Points), prices[..i], now)
      {
        var entry := RecordNext(prices, i, now, old(Points));
        ghost var batch := Extended(old(Points), prices[..i + 1], now);
        assert prices[..i + 1][..i] == prices[..i] && prices[..i + 1][i] == prices[i];
        assert batch[..i] == Extended(old(Points), prices[..i], now);
        snapshot := snapshot + [(prices[i].0, entry)];
      }
      assert prices[..|prices|] == prices;
    }

    /** One pass of the `update` loop: the history of fetched symbol `i`
        gets its price, and the entry is read from the extended history. */
    method RecordNext(prices: seq<(string, real)>, i: nat, now: real, ghost start: map<string, seq<Point>>)
      returns (entry: LegacyScores.Lookback)
      requires Valid() && DistinctSymbols(prices) && i < |prices|
      requires Points == UpdatedPoints(start, prices[..i], now)
      modifies Repr
      ensures Valid() && fresh(Repr - old(Repr)) && lastConnectionOk == old(lastConnectionOk)
      ensures Points == UpdatedPoints(start, prices[..i + 1], now)
      ensures entry == EntryOf(Appended(PointsOf(start, prices[i].0), now, prices[i].1, DefaultMaxLen), now, prices[i].1)
    {
      var symbol, price := prices[i].0, prices[i].1;
      UpdatedPointsNext(start, prices, i, now);
      var h := HistoryFor(symbol);
      AppendTo(symbol, price, now);
      entry := EntryOf(h.points, now, price);
    }
  }
}
