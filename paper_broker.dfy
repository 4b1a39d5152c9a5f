/** Simulated single-asset holdings that rotate through USDT, paying the
    per-trade cost on every leg. */
module Broker {
  import opened Common

  datatype Holdings = Holdings(asset: string, quantity: real, cashUsdt: real)

  /** Exactly one position at a time: all cash, or all in one asset. */
  predicate Exclusive(h: Holdings) {
    (h.asset == Cash ==> h.quantity == 0.0) && (h.asset != Cash ==> h.cashUsdt == 0.0)
  }

  /** `amount * (1 - bps / 10000)`: what is left of `amount` after one leg. */
  function NetOfCost(amount: real, bps: real): (r: real)
    ensures 0.0 <= bps <= 10000.0 && amount >= 0.0 ==> 0.0 <= r <= amount
  {
    var kept := 1.0 - bps / 10000.0;
    assert 0.0 <= bps <= 10000.0 && amount >= 0.0 ==> amount * kept <= amount * 1.0 by {
      if 0.0 <= bps <= 10000.0 && amount >= 0.0 {
        assert kept <= 1.0;
      }
    }
    amount * kept
  }

  /** `equity_usdt`: cash in USDT, else quantity times the held asset's price;
      with that price missing, the cash balance (zero for an exclusive
      position) instead of an error. */
  function Equity(h: Holdings, prices: map<string, real>): (e: real)
    ensures h.asset == Cash ==> e == h.cashUsdt
    ensures h.asset != Cash && SymbolOf(h.asset) in prices ==> e == h.quantity * prices[SymbolOf(h.asset)]
    ensures Exclusive(h) && h.asset != Cash && SymbolOf(h.asset) !in prices ==> e == 0.0
  {
    if h.asset == Cash then h.cashUsdt
    else if SymbolOf(h.asset) !in prices then h.cashUsdt
    else h.quantity * prices[SymbolOf(h.asset)]
  }

  /** `park_usdt`: sell the whole position into USDT net of one leg's cost;
      nothing happens in USDT already or without a price. */
  function Parked(h: Holdings, prices: map<string, real>, costBps: real): (r: Holdings)
    ensures Exclusive(h) ==> Exclusive(r)
    ensures h.asset == Cash || SymbolOf(h.asset) !in prices ==> r == h
    ensures h.asset != Cash && SymbolOf(h.asset) in prices ==>
              r.asset == Cash && r.cashUsdt == NetOfCost(Equity(h, prices), costBps)
  {
    if h.asset == Cash then h
    else if SymbolOf(h.asset) !in prices then h
    else Holdings(Cash, 0.0, NetOfCost(h.quantity * prices[SymbolOf(h.asset)], costBps))
  }

  /** `buy_asset`: spend all cash on `asset` net of one leg's cost; nothing
      happens without a price or when not in USDT. A non-positive price
      still spends the cash, for a quantity of zero. */
  function Bought(h: Holdings, asset: string, prices: map<string, real>, costBps: real): (r: Holdings)
    ensures Exclusive(h) && (asset != Cash || SymbolOf(Cash) !in prices) ==> Exclusive(r)
    ensures h.asset != Cash || SymbolOf(asset) !in prices ==> r == h
    ensures h.asset == Cash && SymbolOf(asset) in prices && prices[SymbolOf(asset)] > 0.0 ==>
              r.asset == asset && r.cashUsdt == 0.0 &&
              r.quantity * prices[SymbolOf(asset)] == NetOfCost(h.cashUsdt, costBps)
    ensures h.asset == Cash && SymbolOf(asset) in prices && prices[SymbolOf(asset)] <= 0.0 ==>
              r == Holdings(asset, 0.0, 0.0)
  {
    if SymbolOf(asset) !in prices then h
    else if h.asset != Cash then h
    else
      var price := prices[SymbolOf(asset)];
      var netCash := NetOfCost(h.cashUsdt, costBps);
      Holdings(asset, if price > 0.0 then netCash / price else 0.0, 0.0)
  }

  /** `switch_asset`: nothing when `to` is already held; otherwise park
      (when not in USDT) and then buy. */
  function Switched(h: Holdings, to: string, prices: map<string, real>, costBps: real): (r: Holdings)
    ensures Exclusive(h) && (to != Cash || SymbolOf(Cash) !in prices) ==> Exclusive(r)
    ensures r.asset == h.asset || r.asset == Cash || r.asset == to
  {
    if h.asset == to then h
    else
      var parked := if h.asset != Cash then Parked(h, prices, costBps) else h;
      Bought(parked, to, prices, costBps)
  }

  /** Once a switch to `to` has gone through, switching to `to` again
      changes nothing. */
  lemma SwitchIdempotent(h: Holdings, to: string, prices: map<string, real>, costBps: real)
    requires Switched(h, to, prices, costBps).asset == to
    ensures Switched(Switched(h, to, prices, costBps), to, prices, costBps) == Switched(h, to, prices, costBps)
  {
  }

  /** When the old asset has a price but the new one has none, the park leg
      happens and the buy leg does not: the broker ends up in USDT. */
  lemma SwitchStrandedInCash(h: Holdings, to: string, prices: map<string, real>, costBps: real)
    requires h.asset != Cash && h.asset != to
    requires SymbolOf(h.asset) in prices && SymbolOf(to) !in prices
    ensures Switched(h, to, prices, costBps).asset == Cash
    ensures Switched(h, to, prices, costBps).cashUsdt == NetOfCost(Equity(h, prices), costBps)
  {
  }

  /** A rotation from one asset to another, valued at the same prices, keeps
      the equity net of two legs: equity * (1 - c)^2, with c = bps / 10000;
      the cost is paid twice, never as one direct conversion. */
  lemma {:induction false} SwitchPaysTwoLegs(h: Holdings, to: string, prices: map<string, real>, costBps: real)
    requires Exclusive(h) && h.asset != Cash && to != Cash && h.asset != to
    requires SymbolOf(h.asset) in prices && SymbolOf(to) in prices && prices[SymbolOf(to)] > 0.0
    ensures Equity(Switched(h, to, prices, costBps), prices)
            == Equity(h, prices) * (1.0 - costBps / 10000.0) * (1.0 - costBps / 10000.0)
  {
    var parked := Parked(h, prices, costBps);
    var price := prices[SymbolOf(to)];
    var r := Bought(parked, to, prices, costBps);
    assert r == Switched(h, to, prices, costBps);
    calc {
      Equity(r, prices);
      r.quantity * price;
      NetOfCost(parked.cashUsdt, costBps);
      NetOfCost(NetOfCost(Equity(h, prices), costBps), costBps);
      Equity(h, prices) * (1.0 - costBps / 10000.0) * (1.0 - costBps / 10000.0);
    }
  }

  /** Starting in USDT only the buy leg is paid: equity * (1 - c). */
  lemma {:induction false} SwitchFromCashPaysOneLeg(h: Holdings, to: string, prices: map<string, real>, costBps: real)
    requires h.asset == Cash && to != Cash
    requires SymbolOf(to) in prices && prices[SymbolOf(to)] > 0.0
    ensures Equity(Switched(h, to, prices, costBps), prices) == Equity(h, prices) * (1.0 - costBps / 10000.0)
  {
    var r := Switched(h, to, prices, costBps);
    assert r == Bought(h, to, prices, costBps);
    assert Equity(r, prices) == r.quantity * prices[SymbolOf(to)];
  }

  /** 10000 USDT into an asset priced 100 with a 14.5 bps leg buys 99.855 units. */
  lemma BuyScenario()
    ensures Switched(Holdings(Cash, 0.0, 10000.0), "A", map["AUSDT" := 100.0], 14.5)
            == Holdings("A", 99.855, 0.0)
  {
    assert SymbolOf("A") == "AUSDT";
  }

  class PaperBroker {
    var holdings: Holdings

    constructor (startingBalance: real)
      ensures holdings == Holdings(Cash, 0.0, startingBalance) && Exclusive(holdings)
    {
      holdings := Holdings(Cash, 0.0, startingBalance);
    }

    function CurrentAsset(): string
      reads this
    {
      holdings.asset
    }

    function EquityUsdt(prices: map<string, real>): (e: real)
      reads this
      ensures e == Equity(holdings, prices)
    {
      if holdings.asset == Cash then holdings.cashUsdt
      else if SymbolOf(holdings.asset) !in prices then holdings.cashUsdt
      else holdings.quantity * prices[SymbolOf(holdings.asset)]
    }

    method ParkUsdt(prices: map<string, real>, costBps: real)
      modifies this
      ensures holdings == Parked(old(holdings), prices, costBps)
    {
      if holdings.asset == Cash {
        return;
      }
      var symbol := SymbolOf(holdings.asset);
      if symbol !in prices {
        return;
      }
      var grossUsdt := holdings.quantity * prices[symbol];
      var netUsdt := grossUsdt * (1.0 - costBps / 10000.0);
      holdings := Holdings(Cash, 0.0, netUsdt);
    }

    method BuyAsset(asset: string, prices: map<string, real>, costBps: real)
      modifies this
      ensures holdings == Bought(old(holdings), asset, prices, costBps)
    {
      var symbol := SymbolOf(asset);
      if symbol !in prices {
        return;
      }
      var price := prices[symbol];
      if holdings.asset != Cash {
        return;
      }
      var netCash := holdings.cashUsdt * (1.0 - costBps / 10000.0);
      var quantity := if price > 0.0 then netCash / price else 0.0;
      holdings := Holdings(asset, quantity, 0.0);
    }

    method SwitchAsset(toAsset: string, prices: map<string, real>, costBpsPerTrade: real)
      modifies this
      ensures holdings == Switched(old(holdings), toAsset, prices, costBpsPerTrade)
    {
      if holdings.asset == toAsset {
        return;
      }
      if holdings.asset != Cash {
        ParkUsdt(prices, costBpsPerTrade);
      }
      BuyAsset(toAsset, prices, costBpsPerTrade);
    }
  }
}
