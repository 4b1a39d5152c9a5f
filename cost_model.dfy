/** Trading cost of one leg and of a rotation, in basis points. */
module Cost {
  import Config

  datatype CostModel = CostModel(feeBps: real, slippageBps: real, spreadBpsBuffer: real) {

    predicate NonNegative() {
      feeBps >= 0.0 && slippageBps >= 0.0 && spreadBpsBuffer >= 0.0
    }

    /** The cost of one leg (a sell or a buy). */
    function PerTradeBps(): (r: real)
      ensures NonNegative() ==> r >= feeBps && r >= slippageBps && r >= spreadBpsBuffer
    {
      feeBps + slippageBps + spreadBpsBuffer
    }

    /** A rotation sells one asset and buys another: two legs. */
    function SwitchCostBps(): (r: real)
      ensures r == 2.0 * PerTradeBps()
      ensures NonNegative() ==> r >= PerTradeBps() >= 0.0
    {
      2.0 * PerTradeBps()
    }
  }

  function FromConfig(c: Config.AppConfig): (m: CostModel)
    ensures m.PerTradeBps() == c.feeBps + c.slippageBps + c.spreadBpsBuffer
  {
    CostModel(c.feeBps, c.slippageBps, c.spreadBpsBuffer)
  }

  /** With the default fee 7.5, slippage 5 and spread buffer 2 a leg costs
      14.5 bps and a rotation 29 bps, that is 0.29 %. */
  lemma DefaultCosts()
    ensures FromConfig(Config.Default()).PerTradeBps() == 14.5
    ensures FromConfig(Config.Default()).SwitchCostBps() == 29.0
    ensures FromConfig(Config.Default()).SwitchCostBps() / 10000.0 == 0.0029
  {
  }
}
