/** The settings record of the rotation engine (`AppConfig`) and its defaults. */
module Config {
  import opened Common

  datatype AppConfig = AppConfig(
    startingBalance: real,
    updateIntervalSec: int,
    universe: seq<string>,
    edgeThresholdPct: real,
    confirmN: int,
    minHoldSec: int,
    cooldownSec: int,
    maxSwitchesPerDay: int,
    dataStaleSec: int,
    ret15mSec: int,
    ret1hSec: int,
    ret4hSec: int,
    weight15m: real,
    weight1h: real,
    weight4h: real,
    feeBps: real,
    slippageBps: real,
    spreadBpsBuffer: real,
    netEdgeGateEnabled: bool,
    netEdgeMinPct: real)
  {
    /** The exchange symbols of the universe, one per asset, in universe order. */
    function Symbols(): (r: seq<string>)
      ensures |r| == |universe|
      ensures forall i :: 0 <= i < |r| ==>
                |r[i]| == |universe[i]| + |Cash| &&
                r[i][..|universe[i]|] == universe[i] && r[i][|universe[i]|..] == Cash
    {
      seq(|universe|, i requires 0 <= i < |universe| => SymbolOf(universe[i]))
    }
  }

  const DefaultUniverse: seq<string> := [
    "BTC", "ETH", "BNB", "SOL", "XRP", "ADA", "DOGE", "TRX", "MATIC", "DOT",
    "LTC", "AVAX", "LINK", "BCH", "XLM", "ATOM", "ETC", "FIL", "APT", "NEAR"]

  /** The record built with no arguments. */
  function Default(): AppConfig {
    AppConfig(
      startingBalance := 10000.0,
      updateIntervalSec := 10,
      universe := DefaultUniverse,
      edgeThresholdPct := 0.5,
      confirmN := 3,
      minHoldSec := 900,
      cooldownSec := 120,
      maxSwitchesPerDay := 12,
      dataStaleSec := 30,
      ret15mSec := 15 * 60,
      ret1hSec := 60 * 60,
      ret4hSec := 4 * 60 * 60,
      weight15m := 0.5,
      weight1h := 0.3,
      weight4h := 0.2,
      feeBps := 7.5,
      slippageBps := 5.0,
      spreadBpsBuffer := 2.0,
      netEdgeGateEnabled := true,
      netEdgeMinPct := 0.25)
  }

  /** The default windows are 15 minutes, one hour and four hours, and their
      weights 0.5, 0.3 and 0.2 add up to one. */
  lemma DefaultWindowsAndWeights()
    ensures Default().ret15mSec == 900 && Default().ret1hSec == 3600 && Default().ret4hSec == 14400
    ensures Default().weight15m + Default().weight1h + Default().weight4h == 1.0
    ensures Default().weight15m > Default().weight1h > Default().weight4h > 0.0
  {
  }

  /** The default gates and the default portfolio. */
  lemma DefaultGates()
    ensures var c := Default();
      && c.edgeThresholdPct == 0.5 && c.confirmN == 3 && c.minHoldSec == 900
      && c.cooldownSec == 120 && c.maxSwitchesPerDay == 12 && c.dataStaleSec == 30
      && c.netEdgeGateEnabled && c.netEdgeMinPct == 0.25
      && c.startingBalance == 10000.0 && |c.universe| == 20
      && c.cooldownSec < c.minHoldSec
  {
  }

  /** The default universe lists twenty distinct assets, so its symbols are
      twenty distinct pairs against USDT. */
  lemma DefaultSymbols()
    ensures |Default().Symbols()| == 20
    ensures Default().Symbols()[0] == "BTCUSDT" && Default().Symbols()[19] == "NEARUSDT"
    ensures forall i, j :: 0 <= i < j < 20 ==> Default().Symbols()[i] != Default().Symbols()[j]
  {
  }
}
