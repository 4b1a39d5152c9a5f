/** The calculator's persistence (src/services/storage.py): the parameters
    kept in a settings store, and the goods list whose rows carry a
    calculated item either as a record or as its dict form. The settings
    store is a map held by the `Storage` object; the JSON goods file is not
    modelled. */
module GoodsStorage {
  import opened Common
  import Calc

  // ---- Reading numbers from settings ----

  /** A stored setting: a float as written, or text (as read back from a
      settings file). */
  datatype Setting = Number(value: real) | Text(text: string)

  predicate IsDigit(c: char) { '0' <= c <= '9' }

  predicate AllDigits(s: string) {
    forall i :: 0 <= i < |s| ==> IsDigit(s[i])
  }

  /** The value of a run of decimal digits. */
  function DigitsValue(s: string): nat
    requires AllDigits(s)
  {
    if |s| == 0 then 0
    else DigitsValue(s[..|s| - 1]) * 10 + (s[|s| - 1] as int - '0' as int)
  }

  function Pow10(n: nat): (r: nat)
    ensures r > 0
  {
    if n == 0 then 1 else 10 * Pow10(n - 1)
  }

  /** Where the first `.` is, or -1. */
  function DotAt(s: string): (i: int)
    ensures -1 <= i < |s|
    ensures i >= 0 ==> s[i] == '.'
  {
    if |s| == 0 then -1
    else if s[0] == '.' then 0
    else
      var j := DotAt(s[1..]);
      if j < 0 then -1 else j + 1
  }

  /** `float(text)` for plain decimals: an optional sign, digits, and an
      optional fraction after a point; anything else is rejected. */
  function ParseDecimal(text: string): Option<real> {
    var negative := |text| > 0 && text[0] == '-';
    var body := if |text| > 0 && (text[0] == '-' || text[0] == '+') then text[1..] else text;
    var dot := DotAt(body);
    var whole := if dot < 0 then body else body[..dot];
    var fraction := if dot < 0 then "" else body[dot + 1..];
    if |whole| + |fraction| == 0 || !AllDigits(whole) || !AllDigits(fraction) then None
    else
      var magnitude := DigitsValue(whole) as real + DigitsValue(fraction) as real / Pow10(|fraction|) as real;
      Some(if negative then -magnitude else magnitude)
  }

  /** `float` on a decimal fraction with a whole part. */
  lemma ParseDecimalFraction()
    ensures ParseDecimal("0.15") == Some(0.15)
  {
    var t := "0.15";
    assert DotAt(t) == 1;
    assert t[..1] == "0" && t[2..] == "15";
    assert AllDigits("0") && AllDigits("15");
    assert DigitsValue("0") == 0 by { assert "0"[..0] == ""; }
    assert DigitsValue("15") == 15 by { assert "15"[..1] == "1"; assert "1"[..0] == ""; }
    assert Pow10(2) == 100;
  }

  /** `float` on a decimal fraction without a whole part. */
  lemma ParseDecimalBareFraction()
    ensures ParseDecimal(".5") == Some(0.5)
  {
    var t := ".5";
    assert DotAt(t) == 0;
    assert t[..0] == "" && t[1..] == "5";
    assert AllDigits("5");
    assert DigitsValue("5") == 5 by { assert "5"[..0] == ""; }
    assert Pow10(1) == 10;
  }

  /** `float` on a signed integer, and on text the model rejects: a bare
      sign, and an exponent form. */
  lemma ParseDecimalSignsAndRejects()
    ensures ParseDecimal("-12") == Some(-12.0)
    ensures ParseDecimal("1e3") == None
    ensures ParseDecimal("-") == None
  {
    assert DotAt("12") == -1 by { assert "12"[1..] == "2"; assert "2"[1..] == ""; }
    assert DigitsValue("12") == 12 by { assert "12"[..1] == "1"; assert "1"[..0] == ""; }
    assert DotAt("1e3") == -1 by { assert "1e3"[1..] == "e3"; assert "e3"[1..] == "3"; assert "3"[1..] == ""; }
    assert !AllDigits("1e3") by { assert "1e3"[1] == 'e'; }
    assert "-"[1..] == "" && DotAt("") == -1;
  }

  /** `_get_float`: a missing or empty setting, or text `float` rejects,
      gives the fallback. */
  function GetFloat(settings: map<string, Setting>, key: string, fallback: Option<real>): (r: Option<real>)
    ensures key !in settings ==> r == fallback
    ensures key in settings && settings[key].Number? ==> r == Some(settings[key].value)
    ensures key in settings && settings[key].Text? && ParseDecimal(settings[key].text).None? ==> r == fallback
    ensures key in settings && settings[key].Text? && ParseDecimal(settings[key].text).Some? ==>
              r == ParseDecimal(settings[key].text)
  {
    if key !in settings then fallback
    else match settings[key]
      case Number(v) => Some(v)
      case Text(t) => if t == "" then fallback else match ParseDecimal(t)
        case Some(v) => Some(v)
        case None => fallback
  }

  /** The keys `asdict(params)` lists, in field order. */
  const CoinKey := "coin_per_1kkA"
  const BuyerKey := "fp_buyer_rub_per_1kkA"
  const FeeFpKey := "fee_fp"
  const FeeWithdrawKey := "fee_withdraw"
  const CoinsInKey := "coins_in"
  const RateKey := "rub_per_usdt"

  /** `load_params` on a settings map: the fees default to 0.15 and 0.21,
      the coins to 1000; the rates stay empty when unset. */
  function ParamsFrom(settings: map<string, Setting>): Calc.Params {
    Calc.Params(
      GetFloat(settings, CoinKey, None),
      GetFloat(settings, BuyerKey, None),
      GetFloat(settings, FeeFpKey, Some(0.15)).GetOr(0.15),
      GetFloat(settings, FeeWithdrawKey, Some(0.21)).GetOr(0.21),
      Some(GetFloat(settings, CoinsInKey, Some(1000.0)).GetOr(1000.0)),
      GetFloat(settings, RateKey, None))
  }

  /** `asdict(params).items()`: each field by its key, None where empty. */
  function ParamItems(p: Calc.Params): seq<(string, Option<real>)> {
    [(CoinKey, p.coinPer1kkA), (BuyerKey, p.fpBuyerRubPer1kkA), (FeeFpKey, Some(p.feeFp)),
     (FeeWithdrawKey, Some(p.feeWithdraw)), (CoinsInKey, p.coinsIn), (RateKey, p.rubPerUsdt)]
  }

  /** The settings after writing the items in order: an empty field's key
      is removed, any other is set to its float. */
  function Saved(settings: map<string, Setting>, items: seq<(string, Option<real>)>): map<string, Setting> {
    if |items| == 0 then settings
    else
      var before := Saved(settings, items[..|items| - 1]);
      var (key, value) := items[|items| - 1];
      if value.None? then before - {key} else before[key := Number(value.value)]
  }

  /** The value the last item for `key` writes: None when no item names
      it, Some(None) when it removes the key. */
  function LastWrite(items: seq<(string, Option<real>)>, key: string): Option<Option<real>> {
    if |items| == 0 then None
    else if items[|items| - 1].0 == key then Some(items[|items| - 1].1)
    else LastWrite(items[..|items| - 1], key)
  }

  /** After saving, a key no item names is as it was; otherwise the last
      item naming it decides: removed when empty, else its float. */
  lemma {:induction false} SavedAt(settings: map<string, Setting>, items: seq<(string, Option<real>)>, key: string)
    ensures var saved := Saved(settings, items);
            match LastWrite(items, key)
            case None => (key in saved <==> key in settings) && (key in settings ==> saved[key] == settings[key])
            case Some(v) => (key in saved <==> v.Some?) && (v.Some? ==> saved[key] == Number(v.value))
  {
    if |items| > 0 {
      SavedAt(settings, items[..|items| - 1], key);
    }
  }

  /** With distinct keys, the item naming a key is the one that writes it. */
  lemma {:induction false} LastWriteOfDistinct(items: seq<(string, Option<real>)>, k: int)
    requires 0 <= k < |items|
    requires forall i, j :: 0 <= i < j < |items| ==> items[i].0 != items[j].0
    ensures LastWrite(items, items[k].0) == Some(items[k].1)
  {
    var last := |items| - 1;
    if k < last {
      assert forall i :: 0 <= i < last ==> items[..last][i] == items[i];
      LastWriteOfDistinct(items[..last], k);
    }
  }

  /** Saving parameters and loading them back gives the same parameters,
      except that empty coins come back as the default 1000. */
  lemma SaveThenLoad(settings: map<string, Setting>, p: Calc.Params)
    ensures ParamsFrom(Saved(settings, ParamItems(p))) == p.(coinsIn := Some(p.coinsIn.GetOr(1000.0)))
  {
    var items := ParamItems(p);
    assert FeeWithdrawKey[0] != RateKey[0];
    assert forall i, j :: 0 <= i < j < |items| ==> items[i].0 != items[j].0;
    LastWriteOfDistinct(items, 0);
    LastWriteOfDistinct(items, 1);
    LastWriteOfDistinct(items, 2);
    LastWriteOfDistinct(items, 3);
    LastWriteOfDistinct(items, 4);
    LastWriteOfDistinct(items, 5);
    SavedAt(settings, items, CoinKey);
    SavedAt(settings, items, BuyerKey);
    SavedAt(settings, items, FeeFpKey);
    SavedAt(settings, items, FeeWithdrawKey);
    SavedAt(settings, items, CoinsInKey);
    SavedAt(settings, items, RateKey);
  }

  /** With nothing stored the defaults apply and the rates are empty. */
  lemma LoadDefaults()
    ensures ParamsFrom(map[]) == Calc.Params(None, None, 0.15, 0.21, Some(1000.0), None)
  {
  }

  /** The settings store. */
  class Storage {
    var settings: map<string, Setting>

    constructor (settings: map<string, Setting>)
      ensures this.settings == settings
    {
      this.settings := settings;
    }

    /** `load_params`. */
    method LoadParams() returns (p: Calc.Params)
      ensures p == ParamsFrom(settings)
    {
      var feeFp := GetFloat(settings, FeeFpKey, Some(0.15));
      var feeWithdraw := GetFloat(settings, FeeWithdrawKey, Some(0.21));
      var coinsIn := GetFloat(settings, CoinsInKey, Some(1000.0));
      p := Calc.Params(
        GetFloat(settings, CoinKey, None),
        GetFloat(settings, BuyerKey, None),
        if feeFp.Some? then feeFp.value else 0.15,
        if feeWithdraw.Some? then feeWithdraw.value else 0.21,
        if coinsIn.Some? then coinsIn else Some(1000.0),
        GetFloat(settings, RateKey, None));
    }

    /** `save_params`: each field in turn, removing the empty ones. */
    method SaveParams(p: Calc.Params)
      modifies this
      ensures settings == Saved(old(settings), ParamItems(p))
    {
      var items := ParamItems(p);
      for i := 0 to |items|
        invariant settings == Saved(old(settings), items[..i])
      {
        assert items[..i + 1][..i] == items[..i];
        var (key, value) := items[i];
        if value.None? {
          settings := settings - {key};
        } else {
          settings := settings[key := Number(value.value)];
        }
      }
      assert items[..|items|] == items;
    }

    /** `save_rate`: the USDT rate and the time it was fetched. */
    method SaveRate(rate: real, timestamp: string)
      modifies this
      ensures settings == old(settings)[RateKey := Number(rate)]["rate_timestamp" := Text(timestamp)]
    {
      settings := settings[RateKey := Number(rate)];
      settings := settings["rate_timestamp" := Text(timestamp)];
    }
  }

  // ---- Goods rows ----

  /** A cell of a goods row: a calculated item, its dict form, or any
      other value (names, prices and the like, as text). */
  datatype Cell = Item(item: Calc.ItemResult) | Dict(fields: map<string, real>) | Other(text: string)

  const CalcKey := "calc"

  /** A goods row: a dict the list holds by reference. */
  class GoodsRow {
    var fields: map<string, Cell>

    constructor (fields: map<string, Cell>)
      ensures this.fields == fields
    {
      this.fields := fields;
    }
  }

  /** One row of `hydrate_goods`: a dict `calc` becomes the item it
      describes (or raises `KeyError` for the first missing field); any
      other row stays as it is. */
  function Hydrated(fields: map<string, Cell>): Result<map<string, Cell>, string> {
    if CalcKey in fields && fields[CalcKey].Dict? then
      match Calc.Deserialize(fields[CalcKey].fields)
      case Ok(item) => Ok(fields[CalcKey := Item(item)])
      case Err(key) => Err(key)
    else Ok(fields)
  }

  /** One row of `serialize_goods`: an item `calc` becomes its eight-field
      dict; any other row stays as it is. */
  function Serialized(fields: map<string, Cell>): map<string, Cell> {
    if CalcKey in fields && fields[CalcKey].Item? then fields[CalcKey := Dict(Calc.Serialize(fields[CalcKey].item))]
    else fields
  }

  /** Hydrating a hydrated row changes nothing. */
  lemma HydrateIdempotent(fields: map<string, Cell>)
    requires Hydrated(fields).Ok?
    ensures Hydrated(Hydrated(fields).value) == Hydrated(fields)
  {
  }

  /** Hydrating a serialised row restores it, unless its `calc` was a dict
      all along. */
  lemma HydrateAfterSerialize(fields: map<string, Cell>)
    requires CalcKey in fields ==> !fields[CalcKey].Dict?
    ensures Hydrated(Serialized(fields)) == Ok(fields)
  {
    if CalcKey in fields && fields[CalcKey].Item? {
      var item := fields[CalcKey].item;
      var written := fields[CalcKey := Dict(Calc.Serialize(item))];
      Calc.SerializeRoundTrip(item);
      assert Hydrated(written) == Ok(written[CalcKey := Item(item)]);
      assert written[CalcKey := Item(item)] == fields;
    }
  }

  /** Serialising a hydrated row restores it when its `calc` was a dict
      with exactly the eight fields or not an item at all. */
  lemma SerializeAfterHydrate(fields: map<string, Cell>)
    requires CalcKey in fields ==> !fields[CalcKey].Item?
    requires CalcKey in fields && fields[CalcKey].Dict? ==> Calc.HasExactlyFields(fields[CalcKey].fields)
    ensures Hydrated(fields).Ok?
    ensures Serialized(Hydrated(fields).value) == fields
  {
    if CalcKey in fields && fields[CalcKey].Dict? {
      var dict := fields[CalcKey].fields;
      Calc.DeserializeRoundTrip(dict);
      var item := Calc.Deserialize(dict).value;
      RewriteCalcTwice(fields, Item(item), Dict(dict));
    }
  }

  /** Setting `calc` and then setting it back to its old cell gives the row. */
  lemma RewriteCalcTwice(fields: map<string, Cell>, mid: Cell, last: Cell)
    requires CalcKey in fields && fields[CalcKey] == last
    ensures fields[CalcKey := mid][CalcKey := last] == fields
  {
  }

  /** `hydrate_goods`: rewrites the rows in place and returns them in a new
      list. On a `KeyError` the rows before the failing one are already
      rewritten and the rest are untouched. A row listed twice is rewritten
      once: the second time its `calc` is already an item. */
  method HydrateGoods(rows: seq<GoodsRow>) returns (r: Result<seq<GoodsRow>, string>)
    modifies set row | row in rows
    ensures r.Ok? ==> r.value == rows
    ensures r.Ok? ==> forall row :: row in rows ==> Hydrated(old(row.fields)) == Ok(row.fields)
    ensures r.Err? ==> exists k :: 0 <= k < |rows| && rows[k] !in rows[..k] && Hydrated(old(rows[k].fields)) == Err(r.error)
                          && (forall row :: row in rows[..k] ==> Hydrated(old(row.fields)) == Ok(row.fields))
                          && (forall row :: row in rows && row !in rows[..k] ==> row.fields == old(row.fields))
  {
    var items: seq<GoodsRow> := [];
    for i := 0 to |rows|
      invariant items == rows[..i]
      invariant forall row :: row in rows[..i] ==> Hydrated(old(row.fields)) == Ok(row.fields)
      invariant forall row :: row in rows && row !in rows[..i] ==> row.fields == old(row.fields)
    {
      var row := rows[i];
      assert rows[..i + 1] == rows[..i] + [row];
      if CalcKey in row.fields && row.fields[CalcKey].Dict? {
        var item := Calc.Deserialize(row.fields[CalcKey].fields);
        if item.Err? {
          assert row !in rows[..i];
          return Err(item.error);
        }
        row.fields := row.fields[CalcKey := Item(item.value)];
      }
      items := items + [row];
    }
    assert rows[..|rows|] == rows;
    return Ok(items);
  }

  /** One row of `serialize_goods`: a copy when it holds an item, else
      the row itself. */
  method SerializeRow(row: GoodsRow) returns (out: GoodsRow)
    ensures out.fields == Serialized(row.fields)
    ensures if CalcKey in row.fields && row.fields[CalcKey].Item? then fresh(out) else out == row
  {
    out := row;
    if CalcKey in row.fields && row.fields[CalcKey].Item? {
      out := new GoodsRow(row.fields[CalcKey := Dict(Calc.Serialize(row.fields[CalcKey].item))]);
    }
  }

  /** `serialize_goods`: a new list of the same length; a row with an item
      is copied with the item's dict form, any other row is passed on as
      the same object; no input row changes. */
  method SerializeGoods(rows: seq<GoodsRow>) returns (payload: seq<GoodsRow>)
    ensures |payload| == |rows|
    ensures forall i :: 0 <= i < |rows| ==> payload[i].fields == Serialized(rows[i].fields)
    ensures forall i :: 0 <= i < |rows| ==>
              if CalcKey in rows[i].fields && rows[i].fields[CalcKey].Item? then fresh(payload[i]) else payload[i] == rows[i]
  {
    payload := [];
    for i := 0 to |rows|
      invariant |payload| == i
      invariant forall j :: 0 <= j < i ==> payload[j].fields == Serialized(rows[j].fields)
      invariant forall j :: 0 <= j < i ==>
                  if CalcKey in rows[j].fields && rows[j].fields[CalcKey].Item? then fresh(payload[j]) else payload[j] == rows[j]
    {
      var row := SerializeRow(rows[i]);
      payload := payload + [row];
    }
  }
}
