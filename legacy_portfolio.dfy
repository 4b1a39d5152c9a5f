/** The earlier paper portfolio of the repository root
    (paper_portfolio.py): one position, valued in USDT, switched to
    another asset by selling to USDT and buying, with the trading cost
    charged on each leg. Prices are keyed by asset; the clock is an
    input. */
module LegacyPortfolio {
  import opened Common

  /** `_price_for_asset` raises `KeyError`; the division by the target's
      price raises `ZeroDivisionError`. */
  datatype PortfolioError = MissingPrice(asset: string) | ZeroDivision

  datatype SwitchStatus = Noop | Switched

  /** The dict `simulate_switch_via_usdt` returns; None stands for a
      missing value. */
  datatype SwitchReport = SwitchReport(
    status: SwitchStatus, fromAsset: string, toAsset: string,
    vBefore: Option<real>, vAfter: Option<real>, costPaid: real, pxUsed: Option<real>)

  /** The fields of a `PaperPortfolio`. */
  datatype Holding = Holding(
    asset: string, qty: real, startEquity: real, equity: real,
    totalCost: real, switches: nat, lastSwitch: Option<real>)

  /** `_price_for_asset`: USDT is worth 1; any other asset needs a price. */
  function PriceFor(asset: string, prices: map<string, real>): (r: Result<real, PortfolioError>)
    ensures asset == Cash ==> r == Ok(1.0)
    ensures asset != Cash ==> (r.Ok? <==> asset in prices)
    ensures asset != Cash && asset in prices ==> r.value == prices[asset]
    ensures r.Err? ==> r.error == MissingPrice(asset)
  {
    if asset == Cash then Ok(1.0)
    else if asset !in prices then Err(MissingPrice(asset))
    else Ok(prices[asset])
  }

  /** `value_in_usdt`: USDT counts at face value, any other asset at its
      price. */
  function ValueOf(h: Holding, prices: map<string, real>): (r: Result<real, PortfolioError>)
    ensures h.asset == Cash ==> r == Ok(h.qty)
    ensures h.asset != Cash ==> (r.Ok? <==> h.asset in prices)
    ensures h.asset != Cash && h.asset in prices ==> r.value == h.qty * prices[h.asset]
  {
    if h.asset == Cash then Ok(h.qty)
    else match PriceFor(h.asset, prices)
      case Ok(price) => Ok(h.qty * price)
      case Err(e) => Err(e)
  }

  /** `from_start`: all in USDT, or an empty position in another asset. */
  function StartHolding(asset: string, startEquity: real): Holding {
    Holding(asset, if asset == Cash then startEquity else 0.0, startEquity, startEquity, 0.0, 0, None)
  }

  /** The value left after paying `costBps` on the sale and again on the
      purchase. */
  function AfterCosts(vBefore: real, costBps: real): real {
    var costPct := costBps / 10000.0;
    vBefore * (1.0 - costPct) * (1.0 - costPct)
  }

  /** `simulate_switch_via_usdt` on a holding: the holding afterwards and
      the report; an error leaves the holding as it was. */
  function SwitchOutcome(h: Holding, target: string, prices: map<string, real>, costBps: real, now: real)
    : (Holding, Result<SwitchReport, PortfolioError>)
  {
    if h.asset == target then
      (h, Ok(SwitchReport(Noop, h.asset, target, None, None, 0.0, None)))
    else
      match ValueOf(h, prices)
      case Err(e) => (h, Err(e))
      case Ok(vBefore) =>
        var vAfter := AfterCosts(vBefore, costBps);
        var booked := (qty: real, px: Option<real>) =>
          h.(asset := target, qty := qty, totalCost := h.totalCost + (vBefore - vAfter),
             switches := h.switches + 1, lastSwitch := Some(now), equity := vAfter);
        if target == Cash then
          var px := if h.asset != Cash then Some(prices[h.asset]) else None;
          (booked(vAfter, px), Ok(SwitchReport(Switched, h.asset, target, Some(vBefore), Some(vAfter), vBefore - vAfter, px)))
        else
          match PriceFor(target, prices)
          case Err(e) => (h, Err(e))
          case Ok(px) =>
            if px == 0.0 then (h, Err(ZeroDivision))
            else (booked(vAfter / px, Some(px)),
                  Ok(SwitchReport(Switched, h.asset, target, Some(vBefore), Some(vAfter), vBefore - vAfter, Some(px))))
  }

  /** Switching to the asset already held changes nothing and costs
      nothing; a failed switch changes nothing either. */
  lemma NoopAndErrorsKeepHolding(h: Holding, target: string, prices: map<string, real>, costBps: real, now: real)
    ensures var (h', r) := SwitchOutcome(h, target, prices, costBps, now);
            && (h.asset == target ==> h' == h && r.Ok? && r.value.status == Noop && r.value.costPaid == 0.0)
            && (r.Err? ==> h' == h)
            && (r.Ok? ==> (r.value.status == Noop <==> h.asset == target))
  {
  }

  /** A switch fails exactly when the held asset or the target has no
      price, or the target's price is zero. */
  lemma {:induction false} SwitchFailsOnlyOnPrices(h: Holding, target: string, prices: map<string, real>, costBps: real, now: real)
    requires h.asset != target
    ensures var r := SwitchOutcome(h, target, prices, costBps, now).1;
            && (r.Err? <==> (h.asset != Cash && h.asset !in prices)
                            || (target != Cash && (target !in prices || prices[target] == 0.0)))
            && (h.asset != Cash && h.asset !in prices ==> r == Err(MissingPrice(h.asset)))
  {
    var v := ValueOf(h, prices);
    if v.Ok? && target != Cash {
      var p := PriceFor(target, prices);
      assert p.Ok? <==> target in prices;
    }
  }

  /** A successful switch: the new position is the target, worth exactly
      the value after both legs' costs at the same prices; the cost paid
      is booked, the switch counted and stamped, and equity set. Value
      plus costs paid is conserved. */
  lemma {:induction false} SwitchConservesValue(h: Holding, target: string, prices: map<string, real>, costBps: real, now: real)
    requires h.asset != target
    requires SwitchOutcome(h, target, prices, costBps, now).1.Ok?
    ensures var (h', r) := SwitchOutcome(h, target, prices, costBps, now);
            var vBefore := ValueOf(h, prices).value;
            && ValueOf(h, prices).Ok?
            && r.value.status == Switched && r.value.vBefore == Some(vBefore)
            && r.value.vAfter == Some(AfterCosts(vBefore, costBps))
            && h'.asset == target
            && ValueOf(h', prices) == Ok(AfterCosts(vBefore, costBps))
            && h'.equity == AfterCosts(vBefore, costBps)
            && h'.totalCost == h.totalCost + r.value.costPaid
            && h'.equity + r.value.costPaid == vBefore
            && h'.switches == h.switches + 1 && h'.lastSwitch == Some(now)
            && h'.startEquity == h.startEquity
  {
    var vBefore := ValueOf(h, prices).value;
    var vAfter := AfterCosts(vBefore, costBps);
    var h' := SwitchOutcome(h, target, prices, costBps, now).0;
    if target != Cash {
      var px := prices[target];
      DivisionUndone(vAfter, px);
      assert h'.qty == vAfter / px;
    }
    assert ValueOf(h', prices).Ok? && ValueOf(h', prices).value == vAfter;
  }

  /** With a cost between 0 and 100% and a non-negative value, the cost
      paid is non-negative and never more than the value. */
  lemma SwitchCostBounded(vBefore: real, costBps: real)
    requires 0.0 <= vBefore && 0.0 <= costBps <= 10000.0
    ensures 0.0 <= vBefore - AfterCosts(vBefore, costBps) <= vBefore
  {
    var c := costBps / 10000.0;
    var k := (1.0 - c) * (1.0 - c);
    assert 0.0 <= 1.0 - c <= 1.0;
    assert 0.0 <= k <= 1.0 by {
      assert (1.0 - c) * (1.0 - c) <= 1.0 * (1.0 - c);
    }
    assert AfterCosts(vBefore, costBps) == vBefore * k;
    assert vBefore * k <= vBefore * 1.0;
  }

  /** Dividing by a non-zero price and multiplying back gives the value. */
  lemma DivisionUndone(v: real, px: real)
    requires px != 0.0
    ensures v / px * px == v
  {
  }

  /** A `PaperPortfolio`. */
  class PaperPortfolio {
    var asset: string
    var qty: real
    var startEquity: real
    var equity: real
    var totalCost: real
    var switches: nat
    var lastSwitch: Option<real>

    /** The fields as a value. */
    function State(): Holding
      reads this
    {
      Holding(asset, qty, startEquity, equity, totalCost, switches, lastSwitch)
    }

    /** `from_start`. */
    constructor FromStart(asset: string, startEquity: real)
      ensures State() == StartHolding(asset, startEquity)
    {
      this.asset := asset;
      qty := if asset == Cash then startEquity else 0.0;
      this.startEquity := startEquity;
      equity := startEquity;
      totalCost := 0.0;
      switches := 0;
      lastSwitch := None;
    }

    /** `value_in_usdt`. */
    method ValueInUsdt(prices: map<string, real>) returns (r: Result<real, PortfolioError>)
      ensures r == ValueOf(State(), prices)
    {
      if asset == Cash {
        return Ok(qty);
      }
      var price := PriceFor(asset, prices);
      if price.Err? {
        return Err(price.error);
      }
      r := Ok(qty * price.value);
      assert r.value == ValueOf(State(), prices).value;
      assert r.Ok? && ValueOf(State(), prices).Ok?;
    }

    /** `simulate_switch_via_usdt`; `now` None means the clock's time. */
    method SimulateSwitchViaUsdt(target: string, prices: map<string, real>, costBps: real, now: Option<real>, clock: real)
      returns (r: Result<SwitchReport, PortfolioError>)
      modifies this
      ensures (State(), r) == SwitchOutcome(old(State()), target, prices, costBps, now.GetOr(clock))
    {
      if asset == target {
        return Ok(SwitchReport(Noop, asset, target, None, None, 0.0, None));
      }
      var stamp := now.GetOr(clock);
      var fromAsset := asset;
      var value := ValueInUsdt(prices);
      if value.Err? {
        return Err(value.error);
      }
      var vBefore := value.value;
      var vAfter := AfterCosts(vBefore, costBps);
      var pxUsed: Option<real> := None;
      if target == Cash {
        qty := vAfter;
        asset := Cash;
        if fromAsset != Cash {
          var px := PriceFor(fromAsset, prices);
          pxUsed := Some(px.value);
        }
      } else {
        var px := PriceFor(target, prices);
        if px.Err? {
          return Err(px.error);
        }
        if px.value == 0.0 {
          return Err(ZeroDivision);
        }
        pxUsed := Some(px.value);
        qty := vAfter / px.value;
        asset := target;
      }
      var costPaid := vBefore - vAfter;
      totalCost := totalCost + costPaid;
      switches := switches + 1;
      lastSwitch := Some(stamp);
      equity := vAfter;
      return Ok(SwitchReport(Switched, fromAsset, target, Some(vBefore), Some(vAfter), costPaid, pxUsed));
    }

    /** `update_equity`: equity becomes the current value; a missing price
        raises and leaves it as it was. */
    method UpdateEquity(prices: map<string, real>) returns (r: Result<real, PortfolioError>)
      modifies this
      ensures r == ValueOf(old(State()), prices)
      ensures State() == if r.Ok? then old(State()).(equity := r.value) else old(State())
    {
      r := ValueInUsdt(prices);
      if r.Ok? {
        equity := r.value;
      }
    }
  }
}
