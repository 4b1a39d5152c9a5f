/** Per-asset price history bounded by age, and weighted 15m/1h/4h momentum
    scores over it. */
module Scoring {
  import opened Common

  /** One observation: (timestamp in seconds, price). */
  type Entry = (real, real)

  datatype ReturnWindow = ReturnWindow(ret15m: Option<real>, ret1h: Option<real>, ret4h: Option<real>)

  datatype ScoreRow = ScoreRow(
    asset: string,
    score: Option<real>,
    ret15m: Option<real>,
    ret1h: Option<real>,
    ret4h: Option<real>)

  /** The window lengths and weights the engine was built with. */
  datatype ScoreSettings = ScoreSettings(
    ret15mSec: int, ret1hSec: int, ret4hSec: int,
    weight15m: real, weight1h: real, weight4h: real)
  {
    /** Entries older than this many seconds are dropped on every write. */
    function MaxAge(): (m: int)
      ensures m >= ret15mSec + 300 && m >= ret1hSec + 300 && m >= ret4hSec + 300
      ensures m == ret15mSec + 300 || m == ret1hSec + 300 || m == ret4hSec + 300
    {
      var longest := if ret15mSec >= ret1hSec && ret15mSec >= ret4hSec then ret15mSec
                     else if ret1hSec >= ret4hSec then ret1hSec
                     else ret4hSec;
      longest + 300
    }
  }

  /** Timestamps never go backwards. */
  ghost predicate Chronological(data: seq<Entry>) {
    forall i, j :: 0 <= i < j < |data| ==> data[i].0 <= data[j].0
  }

  /** What the trim loop leaves: entries are dropped from the front while
      the oldest one is more than `maxAge` seconds before `now`. */
  function Trimmed(data: seq<Entry>, now: real, maxAge: int): (r: seq<Entry>)
    ensures |r| <= |data|
    ensures r == [] || now - r[0].0 <= maxAge as real
    ensures forall k :: 0 <= k < |data| - |r| ==> now - data[k].0 > maxAge as real
    decreases |data|
  {
    if |data| > 0 && now - data[0].0 > maxAge as real then Trimmed(data[1..], now, maxAge) else data
  }

  /** Trimming only removes from the front: what is kept is a suffix, in order. */
  lemma {:induction false} TrimmedIsSuffix(data: seq<Entry>, now: real, maxAge: int)
    ensures Trimmed(data, now, maxAge) == data[|data| - |Trimmed(data, now, maxAge)|..]
    decreases |data|
  {
    if |data| > 0 && now - data[0].0 > maxAge as real {
      TrimmedIsSuffix(data[1..], now, maxAge);
      assert data[1..][|data| - 1 - |Trimmed(data, now, maxAge)|..] == data[|data| - |Trimmed(data, now, maxAge)|..];
    }
  }

  /** On a chronological history no retained entry is older than the bound. */
  lemma TrimmedWithinAge(data: seq<Entry>, now: real, maxAge: int)
    requires Chronological(data)
    ensures forall k :: 0 <= k < |Trimmed(data, now, maxAge)| ==> now - Trimmed(data, now, maxAge)[k].0 <= maxAge as real
  {
    var r := Trimmed(data, now, maxAge);
    TrimmedIsSuffix(data, now, maxAge);
    forall k | 0 <= k < |r|
      ensures now - r[k].0 <= maxAge as real
    {
      assert r[k] == data[|data| - |r| + k] && r[0] == data[|data| - |r|];
    }
  }

  /** `add(t, p)`: append, then trim against `t`. */
  function Added(data: seq<Entry>, t: real, p: real, maxAge: int): seq<Entry> {
    Trimmed(data + [(t, p)], t, maxAge)
  }

  /** After `add(t, p)` with a non-negative age bound the newest entry is
      (t, p), nothing older than the bound against `t` is left when the
      history is chronological, and what is kept is a suffix, in order. */
  lemma AddedKeepsNewest(data: seq<Entry>, t: real, p: real, maxAge: int)
    requires maxAge >= 0
    ensures var r := Added(data, t, p, maxAge);
      && |r| >= 1 && r[|r| - 1] == (t, p)
      && r == (data + [(t, p)])[|data| + 1 - |r|..]
    ensures Chronological(data) && (|data| == 0 || data[|data| - 1].0 <= t) ==>
              forall k :: 0 <= k < |Added(data, t, p, maxAge)| ==> t - Added(data, t, p, maxAge)[k].0 <= maxAge as real
  {
    var d := data + [(t, p)];
    if Chronological(data) && (|data| == 0 || data[|data| - 1].0 <= t) {
      assert Chronological(d) by {
        forall i, j | 0 <= i < j < |d| ensures d[i].0 <= d[j].0 {
          if j == |data| && i < |data| - 1 { assert data[i].0 <= data[|data| - 1].0; }
        }
      }
      TrimmedWithinAge(d, t, maxAge);
    }
    TrimmedIsSuffix(d, t, maxAge);
    assert !(t - d[|d| - 1].0 > maxAge as real);
  }

  /** Adding an entry no older than the newest keeps the history chronological. */
  lemma {:induction false} AddedChronological(data: seq<Entry>, t: real, p: real, maxAge: int)
    requires Chronological(data)
    requires |data| == 0 || data[|data| - 1].0 <= t
    ensures Chronological(Added(data, t, p, maxAge))
  {
    var d := data + [(t, p)];
    assert Chronological(d);
    TrimmedIsSuffix(d, t, maxAge);
  }

  /** The position of the most recent entry at or before time `t`, found by
      a scan from the newest entry backwards. */
  function LatestAtOrBefore(data: seq<Entry>, t: real): (r: Option<nat>)
    ensures r.None? <==> forall k :: 0 <= k < |data| ==> data[k].0 > t
    ensures r.Some? ==> r.value < |data| && data[r.value].0 <= t
                        && forall j :: r.value < j < |data| ==> data[j].0 > t
  {
    if |data| == 0 then None
    else if data[|data| - 1].0 <= t then Some(|data| - 1)
    else LatestAtOrBefore(data[..|data| - 1], t)
  }

  /** `_price_at_or_before(t)`: the price of the latest entry at or before
      `t`; absent when every entry is later (never the oldest as a fallback). */
  function PriceAtOrBefore(data: seq<Entry>, t: real): (r: Option<real>)
    ensures r.None? <==> forall k :: 0 <= k < |data| ==> data[k].0 > t
    ensures r.Some? ==> r.value == data[LatestAtOrBefore(data, t).value].1
  {
    match LatestAtOrBefore(data, t)
    case None => None
    case Some(k) => Some(data[k].1)
  }

  /** One window's return: current over past minus one, when a past price
      exists and is positive. */
  function WindowReturn(data: seq<Entry>, now: real, delta: int): (r: Option<real>)
    requires |data| > 0
    ensures r.Some? <==> PriceAtOrBefore(data, now - delta as real).Some?
                         && PriceAtOrBefore(data, now - delta as real).value > 0.0
    ensures r.Some? ==> (1.0 + r.value) * PriceAtOrBefore(data, now - delta as real).value
                        == data[|data| - 1].1
  {
    var current := data[|data| - 1].1;
    match PriceAtOrBefore(data, now - delta as real)
    case None => None
    case Some(past) => if past <= 0.0 then None else Some(current / past - 1.0)
  }

  /** `returns(now, ...)`: the three window returns; all absent on an empty history. */
  function Returns(data: seq<Entry>, now: real, s: ScoreSettings): (r: ReturnWindow)
    ensures |data| == 0 ==> r == ReturnWindow(None, None, None)
    ensures |data| > 0 ==> r == ReturnWindow(WindowReturn(data, now, s.ret15mSec),
                                             WindowReturn(data, now, s.ret1hSec),
                                             WindowReturn(data, now, s.ret4hSec))
  {
    if |data| == 0 then ReturnWindow(None, None, None)
    else ReturnWindow(WindowReturn(data, now, s.ret15mSec),
                      WindowReturn(data, now, s.ret1hSec),
                      WindowReturn(data, now, s.ret4hSec))
  }

  /** The weighted score: present exactly when all three returns are. */
  function Score(w: ReturnWindow, s: ScoreSettings): (r: Option<real>)
    ensures r.Some? <==> w.ret15m.Some? && w.ret1h.Some? && w.ret4h.Some?
    ensures r.Some? ==> r.value == s.weight15m * w.ret15m.value + s.weight1h * w.ret1h.value
                                   + s.weight4h * w.ret4h.value
  {
    if w.ret15m.Some? && w.ret1h.Some? && w.ret4h.Some? then
      Some(s.weight15m * w.ret15m.value + s.weight1h * w.ret1h.value + s.weight4h * w.ret4h.value)
    else
      None
  }

  /** The row `scores` emits for one asset with history `data`. */
  function RowOf(asset: string, data: seq<Entry>, now: real, s: ScoreSettings): ScoreRow {
    var w := Returns(data, now, s);
    ScoreRow(asset, Score(w, s), w.ret15m, w.ret1h, w.ret4h)
  }

  /** An asset with less history than the shortest window has no score:
      it cannot lead, whatever its short-term move. */
  lemma ShortHistoryHasNoScore(asset: string, data: seq<Entry>, now: real, s: ScoreSettings)
    requires forall k :: 0 <= k < |data| ==> data[k].0 > now - s.ret15mSec as real
    ensures RowOf(asset, data, now, s).score.None?
  {
    if |data| > 0 {
      assert PriceAtOrBefore(data, now - s.ret15mSec as real).None?;
    }
  }

  /** `add` applied `n` times with the same observation. */
  function AddedTimes(data: seq<Entry>, t: real, p: real, maxAge: int, n: nat): seq<Entry> {
    if n == 0 then data else Added(AddedTimes(data, t, p, maxAge, n - 1), t, p, maxAge)
  }

  /** The history of `asset` after `update_prices(prices, now)` when the asset
      occurs `n` times in the asset list. */
  function UpdatedHistory(data: seq<Entry>, asset: string, prices: map<string, real>, now: real,
                          maxAge: int, n: nat): seq<Entry>
  {
    if SymbolOf(asset) in prices then AddedTimes(data, now, prices[SymbolOf(asset)], maxAge, n) else data
  }

  /** How many times `a` occurs in `s`. */
  function Occurrences(s: seq<string>, a: string): (n: nat)
    ensures n <= |s|
    ensures a !in s <==> n == 0
  {
    if |s| == 0 then 0
    else Occurrences(s[..|s| - 1], a) + (if s[|s| - 1] == a then 1 else 0)
  }

  /** One `add(now, price)` when the asset's symbol has a price. */
  function AddedIfPriced(data: seq<Entry>, asset: string, prices: map<string, real>, now: real, maxAge: int): seq<Entry> {
    if SymbolOf(asset) in prices then Added(data, now, prices[SymbolOf(asset)], maxAge) else data
  }

  /** Every tracked history after `update_prices(prices, now)` over the asset list `assets`. */
  function UpdatedHistories(hist: map<string, seq<Entry>>, assets: seq<string>, prices: map<string, real>,
                            now: real, maxAge: int): (h: map<string, seq<Entry>>)
    ensures h.Keys == hist.Keys
  {
    map a | a in hist :: UpdatedHistory(hist[a], a, prices, now, maxAge, Occurrences(assets, a))
  }

  /** One more asset at the end of the list updates that asset's history
      once more and no other. */
  lemma UpdatedHistoriesStep(hist: map<string, seq<Entry>>, assets: seq<string>, asset: string,
                             prices: map<string, real>, now: real, maxAge: int)
    requires asset in hist
    ensures var h := UpdatedHistories(hist, assets, prices, now, maxAge);
            UpdatedHistories(hist, assets + [asset], prices, now, maxAge)
            == h[asset := AddedIfPriced(h[asset], asset, prices, now, maxAge)]
  {
    var h := UpdatedHistories(hist, assets, prices, now, maxAge);
    var h' := UpdatedHistories(hist, assets + [asset], prices, now, maxAge);
    assert (assets + [asset])[..|assets|] == assets;
    forall a | a in hist
      ensures h'[a] == h[asset := AddedIfPriced(h[asset], asset, prices, now, maxAge)][a]
    {
      if a == asset {
        assert Occurrences(assets + [asset], a) == Occurrences(assets, a) + 1;
      } else {
        assert Occurrences(assets + [asset], a) == Occurrences(assets, a);
      }
    }
  }

  /** `set(assets)`. */
  function AssetSet(assets: seq<string>): (r: set<string>)
    ensures forall a :: a in r <==> a in assets
  {
    set a | a in assets
  }

  /** A new, empty history for every asset of the list. */
  function EmptyHistoriesOf(assets: seq<string>): (h: map<string, seq<Entry>>)
    ensures forall a :: a in h <==> a in assets
    ensures forall a :: a in h ==> h[a] == []
  {
    map a | a in assets :: []
  }

  /** The rows of `scores(now)`: one per listed asset, in list order. */
  function ScoreRows(assets: seq<string>, hist: map<string, seq<Entry>>, now: real, s: ScoreSettings): (rows: seq<ScoreRow>)
    requires forall a :: a in assets ==> a in hist
    ensures |rows| == |assets|
    ensures forall i :: 0 <= i < |rows| ==> rows[i] == RowOf(assets[i], hist[assets[i]], now, s)
  {
    seq(|assets|, i requires 0 <= i < |assets| => RowOf(assets[i], hist[assets[i]], now, s))
  }

  class PriceHistory {
    const maxAgeSec: int
    var data: seq<Entry>

    constructor (maxAgeSec: int)
      ensures this.maxAgeSec == maxAgeSec && data == []
    {
      this.maxAgeSec := maxAgeSec;
      data := [];
    }

    method Add(timestamp: real, price: real)
      modifies this
      ensures data == Added(old(data), timestamp, price, maxAgeSec)
    {
      data := data + [(timestamp, price)];
      Trim(timestamp);
    }

    method Trim(now: real)
      modifies this
      ensures data == Trimmed(old(data), now, maxAgeSec)
    {
      while |data| > 0 && now - data[0].0 > maxAgeSec as real
        invariant Trimmed(data, now, maxAgeSec) == Trimmed(old(data), now, maxAgeSec)
        decreases |data|
      {
        data := data[1..];
      }
    }
  }

  class ScoringEngine {
    var assets: seq<string>
    const settings: ScoreSettings
    var histories: map<string, PriceHistory>
    ghost var Repr: set<object>
    /** The abstract state: each tracked asset's history. */
    ghost var Histories: map<string, seq<Entry>>

    /** The engine's invariant: one distinct history object per tracked
        asset, each with the engine's age bound and holding `Histories`. */
    ghost predicate Valid()
      reads this, Repr
    {
      && this in Repr
      && Repr == {this} + histories.Values
      && (forall a :: a in assets <==> a in histories)
      && Histories.Keys == histories.Keys
      && (forall a :: a in histories ==> histories[a].maxAgeSec == settings.MaxAge() && histories[a].data == Histories[a])
      && (forall a, b :: a in histories && b in histories && a != b ==> histories[a] != histories[b])
    }

    constructor (assets: seq<string>, settings: ScoreSettings)
      ensures Valid() && fresh(Repr)
      ensures this.assets == assets && this.settings == settings
      ensures Histories == EmptyHistoriesOf(assets)
    {
      this.assets := assets;
      this.settings := settings;
      var created := EmptyHistories(assets, settings.MaxAge());
      histories := created;
      Repr := {this} + created.Values;
      Histories := EmptyHistoriesOf(assets);
    }

    /** `{asset: PriceHistory(max_age) for asset in assets}`: one new, empty
        history per distinct asset. */
    static method EmptyHistories(assets: seq<string>, maxAge: int) returns (m: map<string, PriceHistory>)
      ensures forall a :: a in assets <==> a in m
      ensures forall a :: a in m ==> fresh(m[a]) && m[a].data == [] && m[a].maxAgeSec == maxAge
      ensures forall a, b :: a in m && b in m && a != b ==> m[a] != m[b]
    {
      m := map[];
      for i := 0 to |assets|
        invariant forall a :: a in assets[..i] <==> a in m
        invariant forall a :: a in m ==> fresh(m[a]) && m[a].data == [] && m[a].maxAgeSec == maxAge
        invariant forall a, b :: a in m && b in m && a != b ==> m[a] != m[b]
      {
        var h := new PriceHistory(maxAge);
        m := m[assets[i] := h];
        assert assets[..i + 1] == assets[..i] + [assets[i]];
      }
      assert assets[..|assets|] == assets;
    }

    /** `update_assets`: nothing happens when the asset set is unchanged;
        otherwise every history is replaced by an empty one. */
    method UpdateAssets(newAssets: seq<string>)
      requires Valid()
      modifies this
      ensures Valid() && fresh(Repr - old(Repr))
      ensures var same := AssetSet(newAssets) == AssetSet(old(assets));
              && assets == (if same then old(assets) else newAssets)
              && Histories == (if same then old(Histories) else EmptyHistoriesOf(newAssets))
    {
      if AssetSet(newAssets) == AssetSet(assets) {
        return;
      }
      assets := newAssets;
      var created := EmptyHistories(newAssets, settings.MaxAge());
      histories := created;
      Repr := {this} + created.Values;
      Histories := EmptyHistoriesOf(newAssets);
    }

    /** `update_prices`: every listed asset whose symbol has a price gets
        `add(now, price)`, once per occurrence in the list; the others keep
        their history. */
    method UpdatePrices(prices: map<string, real>, now: real)
      requires Valid()
      modifies Repr
      ensures Valid() && Repr == old(Repr)
      ensures assets == old(assets) && histories == old(histories)
      ensures Histories == UpdatedHistories(old(Histories), assets, prices, now, settings.MaxAge())
    {
      ghost var maxAge := settings.MaxAge();
      for i := 0 to |assets|
        invariant Valid() && Repr == old(Repr)
        invariant assets == old(assets) && histories == old(histories)
        invariant Histories == UpdatedHistories(old(Histories), assets[..i], prices, now, maxAge)
      {
        var asset := assets[i];
        assert assets[..i + 1] == assets[..i] + [asset];
        UpdatedHistoriesStep(old(Histories), assets[..i], asset, prices, now, maxAge);
        AddPrice(asset, prices, now);
      }
      assert assets[..|assets|] == assets;
    }

    /** The body of the `update_prices` loop for one asset: only that
        asset's history changes. */
    method AddPrice(asset: string, prices: map<string, real>, now: real)
      requires Valid() && asset in histories
      modifies this, histories[asset]
      ensures Valid() && Repr == old(Repr)
      ensures assets == old(assets) && histories == old(histories)
      ensures Histories == old(Histories)[asset := AddedIfPriced(old(Histories[asset]), asset, prices, now, settings.MaxAge())]
    {
      var symbol := SymbolOf(asset);
      if symbol in prices {
        histories[asset].Add(now, prices[symbol]);
      }
      Histories := Histories[asset := histories[asset].data];
    }

    /** `scores(now)`: one row per tracked asset, in asset-list order. */
    method Scores(now: real) returns (rows: seq<ScoreRow>)
      requires Valid()
      ensures rows == ScoreRows(assets, Histories, now, settings)
    {
      rows := [];
      for i := 0 to |assets|
        invariant |rows| == i
        invariant forall k :: 0 <= k < i ==> rows[k] == RowOf(assets[k], histories[assets[k]].data, now, settings)
      {
        var asset := assets[i];
        if asset in histories {
          var history := histories[asset];
          var window := Returns(history.data, now, settings);
          var score := Score(window, settings);
          rows := rows + [ScoreRow(asset, score, window.ret15m, window.ret1h, window.ret4h)];
        }
      }
    }
  }
}
