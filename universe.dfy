/** The trading universe of the repository root (universe.py): the USDT
    pairs of a 24-hour ticker payload, stablecoins and thin markets
    dropped, ranked by quote volume and cut to the configured size, with a
    fixed fallback list when the request fails. The HTTP call is left to
    the caller: the payload is an input, `None` standing for a failed
    request. */
module Universe {
  import opened Common

  /** `STABLE_BASES`: bases that are themselves dollar stablecoins. */
  const StableBases: set<string> := {"USDT", "USDC", "BUSD", "TUSD", "DAI", "FDUSD", "USDP"}

  /** The `quoteVolume` field of a ticker item: absent (read as 0), a
      number, or something `float` rejects. */
  datatype VolumeField = Missing | Number(value: real) | Unparsable

  /** One item of the 24-hour ticker payload; a missing symbol is "". */
  datatype TickerItem = TickerItem(symbol: string, quoteVolume: VolumeField)

  /** `s.endswith(suffix)`. */
  predicate EndsWith(s: string, suffix: string) {
    |suffix| <= |s| && s[|s| - |suffix|..] == suffix
  }

  /** `s.replace(pat, rep)`: every non-overlapping occurrence of `pat`,
      scanning left to right, replaced by `rep`. */
  function ReplaceAll(s: string, pat: string, rep: string): string
    requires |pat| > 0
    decreases |s|
  {
    if |s| < |pat| then s
    else if s[..|pat|] == pat then rep + ReplaceAll(s[|pat|..], pat, rep)
    else [s[0]] + ReplaceAll(s[1..], pat, rep)
  }

  /** No occurrence of "USDT" can straddle the end of a string and the
      "USDT" appended to it, so removing every "USDT" from `b + "USDT"`
      removes the appended one and whatever `b` held. */
  lemma {:induction false} BaseOfPair(b: string)
    ensures ReplaceAll(b + Cash, Cash, "") == ReplaceAll(b, Cash, "")
    decreases |b|
  {
    var s := b + Cash;
    if |b| == 0 {
      assert s[..4] == Cash && s[4..] == [];
    } else if |b| >= 4 {
      assert s[..4] == b[..4];
      if b[..4] == Cash {
        assert s[4..] == b[4..] + Cash;
        BaseOfPair(b[4..]);
      } else {
        assert s[1..] == b[1..] + Cash;
        BaseOfPair(b[1..]);
      }
    } else {
      assert s[..4] != Cash by {
        assert s[..4][|b|] == 'U' != Cash[|b|];
      }
      assert s[1..] == b[1..] + Cash;
      BaseOfPair(b[1..]);
      assert ReplaceAll(b[1..], Cash, "") == b[1..];
      assert [b[0]] + b[1..] == b;
    }
  }

  /** The symbol and quote volume `fetch_universe` keeps for one item, if
      it keeps it: a USDT pair whose base is not a stablecoin and whose
      volume parses (a missing one reads 0) and reaches the minimum. */
  function Candidate(item: TickerItem, minQuoteVolume: real): (r: Option<(string, real)>)
    ensures r.Some? ==> r.value.0 == item.symbol && Admitted(r.value, minQuoteVolume)
    ensures r.None? <==> || !EndsWith(item.symbol, Cash)
                         || ReplaceAll(item.symbol, Cash, "") in StableBases
                         || item.quoteVolume.Unparsable?
                         || (item.quoteVolume.Missing? && 0.0 < minQuoteVolume)
                         || (item.quoteVolume.Number? && item.quoteVolume.value < minQuoteVolume)
  {
    if !EndsWith(item.symbol, Cash) then None
    else if ReplaceAll(item.symbol, Cash, "") in StableBases then None
    else if item.quoteVolume.Unparsable? then None
    else
      var volume := if item.quoteVolume.Missing? then 0.0 else item.quoteVolume.value;
      if volume < minQuoteVolume then None else Some((item.symbol, volume))
  }

  /** An entry the filter lets through: a USDT pair with a base that is
      not a stablecoin and a volume at the minimum or above. */
  predicate Admitted(entry: (string, real), minQuoteVolume: real) {
    && EndsWith(entry.0, Cash)
    && ReplaceAll(entry.0, Cash, "") !in StableBases
    && entry.1 >= minQuoteVolume
  }

  /** The symbol is one of the payload's. */
  predicate Listed(payload: seq<TickerItem>, symbol: string) {
    exists k :: 0 <= k < |payload| && payload[k].symbol == symbol
  }

  /** The `assets` list the `fetch_universe` loop builds: only admitted
      entries of listed symbols. */
  function Candidates(payload: seq<TickerItem>, minQuoteVolume: real): (r: seq<(string, real)>)
    ensures forall i :: 0 <= i < |r| ==> Admitted(r[i], minQuoteVolume) && Listed(payload, r[i].0)
  {
    if |payload| == 0 then []
    else
      var last := |payload| - 1;
      var before := Candidates(payload[..last], minQuoteVolume);
      assert forall i :: 0 <= i < |before| ==> Listed(payload, before[i].0) by {
        forall i | 0 <= i < |before| ensures Listed(payload, before[i].0) {
          var k :| 0 <= k < last && payload[..last][k].symbol == before[i].0;
          assert payload[k] == payload[..last][k];
        }
      }
      match Candidate(payload[last], minQuoteVolume)
      case Some(c) => before + [c]
      case None => before
  }

  /** Every item that passes the filter is kept, in payload order. */
  lemma {:induction false} CandidatesKeepPassingItems(payload: seq<TickerItem>, minQuoteVolume: real, k: int)
    requires 0 <= k < |payload| && Candidate(payload[k], minQuoteVolume).Some?
    ensures Candidate(payload[k], minQuoteVolume).value in Candidates(payload, minQuoteVolume)
  {
    var last := |payload| - 1;
    if k < last {
      assert payload[..last][k] == payload[k];
      CandidatesKeepPassingItems(payload[..last], minQuoteVolume, k);
    }
  }

  /** Python's `s[:n]` for any integer `n`: a negative `n` drops that many
      from the end. */
  function PyTake<T>(s: seq<T>, n: int): (r: seq<T>)
    ensures n >= 0 ==> |r| == if n <= |s| then n else |s|
    ensures n < 0 ==> |r| == if -n <= |s| then |s| + n else 0
    ensures r == s[..|r|]
  {
    if n >= 0 then (if n <= |s| then s[..n] else s)
    else (if -n <= |s| then s[..|s| + n] else [])
  }

  /** The quote volume of an entry, the sort key. */
  function Volume(entry: (string, real)): real {
    entry.1
  }

  /** The symbols of a list of entries, in order. */
  function SymbolsOf(entries: seq<(string, real)>): (r: seq<string>)
    ensures |r| == |entries| && forall i :: 0 <= i < |r| ==> r[i] == entries[i].0
  {
    if |entries| == 0 then [] else SymbolsOf(entries[..|entries| - 1]) + [entries[|entries| - 1].0]
  }

  /** What `fetch_universe` returns for a payload: the candidates, by quote
      volume largest first (equal volumes in payload order), cut to
      `universe_size`. */
  function Ranked(payload: seq<TickerItem>, minQuoteVolume: real, universeSize: int): seq<string> {
    SymbolsOf(PyTake(SortDesc(Candidates(payload, minQuoteVolume), Volume), universeSize))
  }

  /** Every ranked symbol is a USDT pair with a non-stablecoin base whose
      volume reached the minimum; the list runs from the largest volume
      down and holds `universe_size` symbols, or all candidates if fewer. */
  lemma {:induction false} RankedIsFilteredAndOrdered(payload: seq<TickerItem>, minQuoteVolume: real, universeSize: int)
    ensures var cands := Candidates(payload, minQuoteVolume);
            var entries := PyTake(SortDesc(cands, Volume), universeSize);
            var r := Ranked(payload, minQuoteVolume, universeSize);
            && |r| == |entries|
            && (universeSize >= 0 ==> |r| == if universeSize <= |cands| then universeSize else |cands|)
            && (forall i :: 0 <= i < |r| ==> r[i] == entries[i].0 && Admitted(entries[i], minQuoteVolume) && Listed(payload, r[i]))
            && (forall i, j :: 0 <= i < j < |r| ==> entries[i].1 >= entries[j].1)
  {
    var cands := Candidates(payload, minQuoteVolume);
    var sorted := SortDesc(cands, Volume);
    var entries := PyTake(sorted, universeSize);
    forall i | 0 <= i < |entries|
      ensures Admitted(entries[i], minQuoteVolume) && Listed(payload, entries[i].0)
    {
      assert entries[i] == sorted[i];
      assert sorted[i] in multiset(cands);
      var k :| 0 <= k < |cands| && cands[k] == sorted[i];
    }
    forall i, j | 0 <= i < j < |entries| ensures entries[i].1 >= entries[j].1 {
      assert entries[i] == sorted[i] && entries[j] == sorted[j];
      assert Volume(sorted[i]) >= Volume(sorted[j]);
    }
  }

  /** `default_universe`: the ten pairs used when the ticker cannot be
      fetched. */
  function DefaultUniverse(): (r: seq<string>)
    ensures |r| == 10 && forall i :: 0 <= i < |r| ==> EndsWith(r[i], Cash)
  {
    ["BTCUSDT", "ETHUSDT", "BNBUSDT", "SOLUSDT", "XRPUSDT",
     "ADAUSDT", "DOGEUSDT", "AVAXUSDT", "LINKUSDT", "TRXUSDT"]
  }

  /** `get_universe`: the ranked payload, or the default list when the
      request failed. */
  function GetUniverse(fetched: Option<seq<TickerItem>>, minQuoteVolume: real, universeSize: int): (r: seq<string>)
    ensures fetched.None? ==> r == DefaultUniverse()
    ensures fetched.Some? ==> r == Ranked(fetched.value, minQuoteVolume, universeSize)
    ensures forall i :: 0 <= i < |r| ==> EndsWith(r[i], Cash)
  {
    match fetched
    case None => DefaultUniverse()
    case Some(payload) =>
      RankedIsFilteredAndOrdered(payload, minQuoteVolume, universeSize);
      Ranked(payload, minQuoteVolume, universeSize)
  }

  /** `fetch_universe` on a received payload: the filter loop, the stable
      sort by volume and the cut. */
  method FetchUniverse(payload: seq<TickerItem>, minQuoteVolume: real, universeSize: int) returns (symbols: seq<string>)
    ensures symbols == Ranked(payload, minQuoteVolume, universeSize)
  {
    var assets: seq<(string, real)> := [];
    for i := 0 to |payload|
      invariant assets == Candidates(payload[..i], minQuoteVolume)
    {
      assert payload[..i + 1][..i] == payload[..i];
      var item := payload[i];
      if !EndsWith(item.symbol, Cash) {
        continue;
      }
      var base := ReplaceAll(item.symbol, Cash, "");
      if base in StableBases {
        continue;
      }
      if item.quoteVolume.Unparsable? {
        continue;
      }
      var volume := if item.quoteVolume.Missing? then 0.0 else item.quoteVolume.value;
      if volume < minQuoteVolume {
        continue;
      }
      assets := assets + [(item.symbol, volume)];
    }
    assert payload[..|payload|] == payload;
    var ranked := PyTake(SortDesc(assets, Volume), universeSize);
    symbols := [];
    for i := 0 to |ranked|
      invariant symbols == SymbolsOf(ranked[..i])
    {
      assert ranked[..i + 1][..i] == ranked[..i];
      symbols := symbols + [ranked[i].0];
    }
    assert ranked[..|ranked|] == ranked;
  }

  /** `str.upper` on one character, for the ASCII letters. */
  function UpperChar(c: char): char {
    if 'a' <= c <= 'z' then (c as int - 'a' as int + 'A' as int) as char else c
  }

  function Upper(s: string): (r: string)
    ensures |r| == |s| && forall i :: 0 <= i < |s| ==> r[i] == UpperChar(s[i])
  {
    if |s| == 0 then "" else [UpperChar(s[0])] + Upper(s[1..])
  }

  /** `normalize_symbols`: every symbol upper-cased, same length and order. */
  function NormalizeSymbols(symbols: seq<string>): (r: seq<string>)
    ensures |r| == |symbols| && forall i :: 0 <= i < |r| ==> r[i] == Upper(symbols[i])
  {
    if |symbols| == 0 then [] else [Upper(symbols[0])] + NormalizeSymbols(symbols[1..])
  }

  /** Normalizing twice is normalizing once, and a normalized symbol has
      no lower-case ASCII letter. */
  lemma NormalizeIdempotent(symbols: seq<string>)
    ensures NormalizeSymbols(NormalizeSymbols(symbols)) == NormalizeSymbols(symbols)
    ensures forall i, k :: 0 <= i < |symbols| && 0 <= k < |NormalizeSymbols(symbols)[i]| ==>
              !('a' <= NormalizeSymbols(symbols)[i][k] <= 'z')
  {
    var once := NormalizeSymbols(symbols);
    forall i | 0 <= i < |symbols| ensures Upper(once[i]) == once[i] {
      assert forall k :: 0 <= k < |once[i]| ==> UpperChar(once[i][k]) == once[i][k];
    }
  }
}
