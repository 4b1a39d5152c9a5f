/** The L2 trade calculator (src/core/calc.py): coins bought with roubles
    are turned into adena, sold for roubles through FunPay with its fee,
    and withdrawn as USDT with a withdrawal fee; plus the inverse, from a
    USDT amount back to coins, and the record's dict form. Python floats
    are modelled as reals. */
module Calc {
  import opened Common

  /** Roubles per coin: 400 roubles buy 3200 coins. */
  const RubPerCoin: real := 400.0 / 3200.0

  /** The calculator's inputs; None is an empty field. */
  datatype Params = Params(
    coinPer1kkA: Option<real>, fpBuyerRubPer1kkA: Option<real>,
    feeFp: real, feeWithdraw: real, coinsIn: Option<real>, rubPerUsdt: Option<real>)

  /** The summary; None is a figure that cannot be computed. */
  datatype CalcResult = CalcResult(
    donateRub: Option<real>, adenaKk: Option<real>, sumFpBuyerRub: Option<real>,
    sumFpYouRub: Option<real>, sumFpYouUsdt: Option<real>,
    profitRub: Option<real>, profitUsdt: Option<real>)

  /** One item's figures. */
  datatype ItemResult = ItemResult(
    itemCoins: real, itemCostRub: real, itemAdenaKk: real, itemFpBuyerRub: real,
    itemFpYouRub: real, itemUsdtNet: real, profitRub: real, profitUsdt: real)

  /** What the item calculations give: None for a missing rate, the item,
      or the `ZeroDivisionError` a zero rate or a fee of 100% raises. */
  datatype ItemOutcome = Unavailable | Computed(item: ItemResult) | DivisionByZero

  /** `_safe_div`: no quotient for a missing or zero denominator. */
  function SafeDiv(numerator: real, denominator: Option<real>): (r: Option<real>)
    ensures r.None? <==> denominator.None? || denominator.value == 0.0
  {
    if denominator.None? || denominator.value == 0.0 then None
    else Some(numerator / denominator.value)
  }

  /** Python truthiness of an optional float. */
  predicate Truthy(x: Option<real>) {
    x.Some? && x.value != 0.0
  }

  /** `calc_summary`. */
  function Summary(p: Params): CalcResult {
    if p.coinsIn.None? then CalcResult(None, None, None, None, None, None, None)
    else
      var donateRub := p.coinsIn.value * RubPerCoin;
      var adenaKk := SafeDiv(p.coinsIn.value, p.coinPer1kkA);
      if adenaKk.Some? && p.fpBuyerRubPer1kkA.Some? then
        var buyer := ToRub(adenaKk.value, p.fpBuyerRubPer1kkA.value);
        var you := AfterFee(buyer, p.feeFp);
        var usdt := if Truthy(p.rubPerUsdt) then Some(AfterFee(ToUsdt(you, p.rubPerUsdt.value), p.feeWithdraw)) else None;
        var profitUsdt := if Truthy(p.rubPerUsdt) then Some(usdt.value - ToUsdt(donateRub, p.rubPerUsdt.value)) else None;
        CalcResult(Some(donateRub), adenaKk, Some(buyer), Some(you), usdt, Some(you - donateRub), profitUsdt)
      else
        CalcResult(Some(donateRub), adenaKk, None, None, None, None, None)
  }

  /** Which figures of the summary exist: nothing without coins; the
      donation whenever there are coins; adena unless the rate is missing
      or zero; the rouble sale figures when adena and the buyer price
      exist; the USDT figures only with a non-zero USDT rate besides. */
  lemma SummaryFieldsPresent(p: Params)
    ensures var r := Summary(p);
            && (p.coinsIn.None? ==> r == CalcResult(None, None, None, None, None, None, None))
            && (p.coinsIn.Some? ==> r.donateRub == Some(p.coinsIn.value * RubPerCoin))
            && (p.coinsIn.Some? ==> (r.adenaKk.Some? <==> Truthy(p.coinPer1kkA)))
            && (r.sumFpBuyerRub.Some? <==> p.coinsIn.Some? && Truthy(p.coinPer1kkA) && p.fpBuyerRubPer1kkA.Some?)
            && (r.sumFpYouRub.Some? <==> r.sumFpBuyerRub.Some?)
            && (r.profitRub.Some? <==> r.sumFpBuyerRub.Some?)
            && (r.sumFpYouUsdt.Some? <==> r.sumFpBuyerRub.Some? && Truthy(p.rubPerUsdt))
            && (r.profitUsdt.Some? <==> r.sumFpYouUsdt.Some?)
            && (r.profitRub.Some? ==> r.profitRub.value == r.sumFpYouRub.value - r.donateRub.value)
  {
  }

  // ---- The conversion steps ----

  /** Coins to millions of adena, at `coinPer1kkA` coins per million. */
  function ToAdena(coins: real, coinPer1kkA: real): real
    requires coinPer1kkA != 0.0
  {
    coins / coinPer1kkA
  }

  /** Millions of adena back to coins. */
  function FromAdena(adenaKk: real, coinPer1kkA: real): real {
    adenaKk * coinPer1kkA
  }

  /** Millions of adena to the roubles a buyer pays. */
  function ToRub(adenaKk: real, rubPer1kkA: real): real {
    adenaKk * rubPer1kkA
  }

  /** Roubles a buyer pays back to millions of adena. */
  function FromRub(rub: real, rubPer1kkA: real): real
    requires rubPer1kkA != 0.0
  {
    rub / rubPer1kkA
  }

  /** An amount after a fee (a fraction) is taken. */
  function AfterFee(amount: real, fee: real): real {
    amount * (1.0 - fee)
  }

  /** The amount before a fee that leaves `amount`. */
  function BeforeFee(amount: real, fee: real): real
    requires fee != 1.0
  {
    amount / (1.0 - fee)
  }

  /** Roubles to USDT. */
  function ToUsdt(rub: real, rubPerUsdt: real): real
    requires rubPerUsdt != 0.0
  {
    rub / rubPerUsdt
  }

  /** USDT to roubles. */
  function FromUsdt(usdt: real, rubPerUsdt: real): real {
    usdt * rubPerUsdt
  }

  /** Adena and coins convert back and forth without loss. */
  lemma AdenaUndone(x: real, coinPer1kkA: real)
    requires coinPer1kkA != 0.0
    ensures ToAdena(FromAdena(x, coinPer1kkA), coinPer1kkA) == x && FromAdena(ToAdena(x, coinPer1kkA), coinPer1kkA) == x
  {
  }

  /** So do adena and the roubles a buyer pays, at a non-zero price. */
  lemma RubUndone(x: real, rubPer1kkA: real)
    requires rubPer1kkA != 0.0
    ensures FromRub(ToRub(x, rubPer1kkA), rubPer1kkA) == x && ToRub(FromRub(x, rubPer1kkA), rubPer1kkA) == x
  {
  }

  /** Taking a fee below 100% and adding it back cancel. */
  lemma FeeUndone(x: real, fee: real)
    requires fee != 1.0
    ensures BeforeFee(AfterFee(x, fee), fee) == x && AfterFee(BeforeFee(x, fee), fee) == x
  {
    var kept := 1.0 - fee;
    assert kept != 0.0;
    assert x * kept / kept == x && x / kept * kept == x;
  }

  /** Roubles and USDT convert back and forth without loss. */
  lemma UsdtUndone(x: real, rubPerUsdt: real)
    requires rubPerUsdt != 0.0
    ensures ToUsdt(FromUsdt(x, rubPerUsdt), rubPerUsdt) == x && FromUsdt(ToUsdt(x, rubPerUsdt), rubPerUsdt) == x
  {
  }

  /** `calc_item_forward`: a missing rate gives None, a zero coin or USDT
      rate raises. */
  function Forward(p: Params, itemCoins: real): ItemOutcome {
    if p.coinPer1kkA.None? || p.fpBuyerRubPer1kkA.None? then Unavailable
    else if p.rubPerUsdt.None? then Unavailable
    else if p.coinPer1kkA.value == 0.0 || p.rubPerUsdt.value == 0.0 then DivisionByZero
    else
      var rate := p.rubPerUsdt.value;
      var costRub := itemCoins * RubPerCoin;
      var adenaKk := ToAdena(itemCoins, p.coinPer1kkA.value);
      var buyer := ToRub(adenaKk, p.fpBuyerRubPer1kkA.value);
      var you := AfterFee(buyer, p.feeFp);
      var usdtNet := AfterFee(ToUsdt(you, rate), p.feeWithdraw);
      Computed(ItemResult(itemCoins, costRub, adenaKk, buyer, you, usdtNet, you - costRub, usdtNet - ToUsdt(costRub, rate)))
  }

  /** `calc_item_inverse`: from the USDT wanted back to the coins, then
      forward again; a fee of 100% or a zero buyer price raises. */
  function Inverse(p: Params, usdtNet: real): ItemOutcome {
    if p.fpBuyerRubPer1kkA.None? || p.coinPer1kkA.None? then Unavailable
    else if p.rubPerUsdt.None? then Unavailable
    else if p.feeWithdraw == 1.0 || p.feeFp == 1.0 || p.fpBuyerRubPer1kkA.value == 0.0 then DivisionByZero
    else
      var you := FromUsdt(BeforeFee(usdtNet, p.feeWithdraw), p.rubPerUsdt.value);
      var buyer := BeforeFee(you, p.feeFp);
      var adenaKk := FromRub(buyer, p.fpBuyerRubPer1kkA.value);
      Forward(p, FromAdena(adenaKk, p.coinPer1kkA.value))
  }

  /** The conditions under which both directions compute: every rate
      present and non-zero, no fee of 100%. */
  predicate Invertible(p: Params) {
    && p.coinPer1kkA.Some? && p.coinPer1kkA.value != 0.0
    && p.fpBuyerRubPer1kkA.Some? && p.fpBuyerRubPer1kkA.value != 0.0
    && p.rubPerUsdt.Some? && p.rubPerUsdt.value != 0.0
    && p.feeFp != 1.0 && p.feeWithdraw != 1.0
  }

  /** The item figures: each step of the chain follows from the one
      before, and the profits are sale minus cost in each currency. */
  lemma ForwardChain(p: Params, itemCoins: real)
    requires Forward(p, itemCoins).Computed?
    ensures var it := Forward(p, itemCoins).item;
            && it.itemCoins == itemCoins
            && it.itemCostRub == itemCoins * RubPerCoin
            && FromAdena(it.itemAdenaKk, p.coinPer1kkA.value) == itemCoins
            && it.itemFpBuyerRub == ToRub(it.itemAdenaKk, p.fpBuyerRubPer1kkA.value)
            && it.itemFpYouRub == AfterFee(it.itemFpBuyerRub, p.feeFp)
            && FromUsdt(it.itemUsdtNet, p.rubPerUsdt.value) == AfterFee(it.itemFpYouRub, p.feeWithdraw)
            && it.profitRub == it.itemFpYouRub - it.itemCostRub
            && FromUsdt(it.profitUsdt, p.rubPerUsdt.value) == it.profitRub - it.itemFpYouRub * p.feeWithdraw
  {
    var it := Forward(p, itemCoins).item;
    var rate := p.rubPerUsdt.value;
    AdenaUndone(itemCoins, p.coinPer1kkA.value);
    UsdtUndone(it.itemFpYouRub, rate);
    UsdtUndone(it.itemCostRub, rate);
    var youUsdt := ToUsdt(it.itemFpYouRub, rate);
    assert FromUsdt(it.itemUsdtNet, rate) == youUsdt * rate * (1.0 - p.feeWithdraw);
    assert FromUsdt(it.profitUsdt, rate) == FromUsdt(it.itemUsdtNet, rate) - FromUsdt(ToUsdt(it.itemCostRub, rate), rate);
  }

  /** The calculator's round trip: asking for a USDT amount gives an item
      that nets exactly that amount. */
  lemma InverseNetsTarget(p: Params, usdtNet: real)
    requires Invertible(p)
    ensures Inverse(p, usdtNet).Computed?
    ensures Inverse(p, usdtNet).item.itemUsdtNet == usdtNet
  {
    var rate := p.rubPerUsdt.value;
    var before := BeforeFee(usdtNet, p.feeWithdraw);
    var you := FromUsdt(before, rate);
    var buyer := BeforeFee(you, p.feeFp);
    var adenaKk := FromRub(buyer, p.fpBuyerRubPer1kkA.value);
    AdenaUndone(adenaKk, p.coinPer1kkA.value);
    RubUndone(buyer, p.fpBuyerRubPer1kkA.value);
    FeeUndone(you, p.feeFp);
    UsdtUndone(before, rate);
    FeeUndone(usdtNet, p.feeWithdraw);
  }

  /** And the other way: feeding an item's net USDT back gives the same
      item. */
  lemma ForwardThenInverse(p: Params, itemCoins: real)
    requires Invertible(p)
    ensures Forward(p, itemCoins).Computed?
    ensures Inverse(p, Forward(p, itemCoins).item.itemUsdtNet) == Forward(p, itemCoins)
  {
    var it := Forward(p, itemCoins).item;
    var youUsdt := ToUsdt(it.itemFpYouRub, p.rubPerUsdt.value);
    FeeUndone(youUsdt, p.feeWithdraw);
    UsdtUndone(it.itemFpYouRub, p.rubPerUsdt.value);
    FeeUndone(it.itemFpBuyerRub, p.feeFp);
    RubUndone(it.itemAdenaKk, p.fpBuyerRubPer1kkA.value);
    AdenaUndone(itemCoins, p.coinPer1kkA.value);
  }

  /** With coins present and every rate non-zero, the summary gives the
      same figures as the item calculation for those coins. */
  lemma SummaryMatchesForward(p: Params)
    requires Invertible(p) && p.coinsIn.Some?
    ensures var s := Summary(p);
            var it := Forward(p, p.coinsIn.value).item;
            && Forward(p, p.coinsIn.value).Computed?
            && s.donateRub == Some(it.itemCostRub) && s.adenaKk == Some(it.itemAdenaKk)
            && s.sumFpBuyerRub == Some(it.itemFpBuyerRub) && s.sumFpYouRub == Some(it.itemFpYouRub)
            && s.sumFpYouUsdt == Some(it.itemUsdtNet)
            && s.profitRub == Some(it.profitRub) && s.profitUsdt == Some(it.profitUsdt)
  {
  }

  // ---- The dict form ----

  /** The keys of the dict form, in field order. */
  const FieldNames: seq<string> := [
    "item_coins", "item_cost_rub", "item_adena_kk", "item_fp_buyer_rub",
    "item_fp_you_rub", "item_usdt_net", "profit_rub", "profit_usdt"]

  /** The values of an item, in field order. */
  function FieldValues(it: ItemResult): seq<real> {
    [it.itemCoins, it.itemCostRub, it.itemAdenaKk, it.itemFpBuyerRub,
     it.itemFpYouRub, it.itemUsdtNet, it.profitRub, it.profitUsdt]
  }

  /** No two field names are equal. */
  lemma FieldNamesDistinct()
    ensures forall i, j :: 0 <= i < j < |FieldNames| ==> FieldNames[i] != FieldNames[j]
  {
    assert FieldNames[0][0] != FieldNames[6][0];
    assert FieldNames[1][5] != FieldNames[2][5] && FieldNames[1][5] != FieldNames[5][5] && FieldNames[2][5] != FieldNames[5][5];
  }

  /** A dict whose keys are exactly the eight field names. */
  ghost predicate HasExactlyFields(m: map<string, real>) {
    forall k :: k in m <==> k in FieldNames
  }

  /** `serialize_item`: the eight fields by name. */
  function Serialize(it: ItemResult): map<string, real> {
    map[FieldNames[0] := it.itemCoins, FieldNames[1] := it.itemCostRub,
        FieldNames[2] := it.itemAdenaKk, FieldNames[3] := it.itemFpBuyerRub,
        FieldNames[4] := it.itemFpYouRub, FieldNames[5] := it.itemUsdtNet,
        FieldNames[6] := it.profitRub, FieldNames[7] := it.profitUsdt]
  }

  /** The written dict has the eight keys, each holding its field. */
  lemma SerializeFields(it: ItemResult)
    ensures HasExactlyFields(Serialize(it))
    ensures forall i :: 0 <= i < |FieldNames| ==> Serialize(it)[FieldNames[i]] == FieldValues(it)[i]
  {
    FieldNamesDistinct();
  }

  /** The first field name the dict lacks, in the order the record's
      fields are read. */
  function FirstMissing(m: map<string, real>, names: seq<string>): (r: Option<string>)
    ensures r.None? <==> forall k :: k in names ==> k in m
    ensures r.Some? ==> r.value in names && r.value !in m
    ensures r.Some? ==> exists i :: 0 <= i < |names| && names[i] == r.value && forall j :: 0 <= j < i ==> names[j] in m
  {
    if |names| == 0 then None
    else if names[0] !in m then Some(names[0])
    else
      var rest := FirstMissing(m, names[1..]);
      if rest.Some? then
        var i :| 0 <= i < |names[1..]| && names[1..][i] == rest.value && forall j :: 0 <= j < i ==> names[1..][j] in m;
        assert names[i + 1] == rest.value;
        assert forall j :: 1 <= j < i + 1 ==> names[j] == names[1..][j - 1];
        rest
      else rest
  }

  /** `deserialize_item`: a missing key raises `KeyError` for it; keys
      beyond the eight are ignored. */
  function Deserialize(m: map<string, real>): Result<ItemResult, string> {
    var missing := FirstMissing(m, FieldNames);
    if missing.Some? then Err(missing.value)
    else Ok(ItemResult(m[FieldNames[0]], m[FieldNames[1]], m[FieldNames[2]], m[FieldNames[3]],
                       m[FieldNames[4]], m[FieldNames[5]], m[FieldNames[6]], m[FieldNames[7]]))
  }

  /** Reading back a written item gives the item. */
  lemma SerializeRoundTrip(it: ItemResult)
    ensures Deserialize(Serialize(it)) == Ok(it)
  {
    SerializeFields(it);
  }

  /** A dict with exactly the eight keys is the written form of what is
      read from it. */
  lemma DeserializeRoundTrip(m: map<string, real>)
    requires HasExactlyFields(m)
    ensures Deserialize(m).Ok? && Serialize(Deserialize(m).value) == m
  {
    ReadFields(m);
    var it := Deserialize(m).value;
    SerializeFields(it);
    SameOnFields(Serialize(it), m);
  }

  /** Two dicts with exactly the field names as keys are equal when they
      agree on every field. */
  lemma SameOnFields(a: map<string, real>, b: map<string, real>)
    requires HasExactlyFields(a) && HasExactlyFields(b)
    requires forall i :: 0 <= i < |FieldNames| ==> a[FieldNames[i]] == b[FieldNames[i]]
    ensures a == b
  {
    forall k | k in a ensures a[k] == b[k] {
      var i :| 0 <= i < |FieldNames| && FieldNames[i] == k;
    }
    assert a.Keys == b.Keys;
  }

  /** A dict with every field name reads as the item of its values. */
  lemma ReadFields(m: map<string, real>)
    requires HasExactlyFields(m)
    ensures Deserialize(m).Ok?
    ensures forall i :: 0 <= i < |FieldNames| ==> FieldValues(Deserialize(m).value)[i] == m[FieldNames[i]]
  {
    assert forall k :: k in FieldNames ==> k in m;
    var it := Deserialize(m).value;
    assert FieldValues(it) == [m[FieldNames[0]], m[FieldNames[1]], m[FieldNames[2]], m[FieldNames[3]],
                               m[FieldNames[4]], m[FieldNames[5]], m[FieldNames[6]], m[FieldNames[7]]];
  }

  /** Reading fails exactly when a field name is missing, and names the
      first missing one in field order. */
  lemma DeserializeFails(m: map<string, real>)
    ensures Deserialize(m).Err? <==> exists k :: k in FieldNames && k !in m
    ensures Deserialize(m).Err? ==> Deserialize(m).error in FieldNames && Deserialize(m).error !in m
    ensures Deserialize(m).Err? ==>
              exists i :: 0 <= i < |FieldNames| && FieldNames[i] == Deserialize(m).error
                          && forall j :: 0 <= j < i ==> FieldNames[j] in m
  {
  }
}
