/** Small shared vocabulary: optional values, the cash asset, ordering by a key. */
module Common {

  /** A value that may be absent: Python's `None`, or a NaN cell of a table. */
  datatype Option<+T> = None | Some(value: T) {
    function GetOr(default: T): T {
      match this
      case Some(v) => v
      case None => default
    }
  }

  /** The outcome of an operation that can raise: its value, or the error
      it raised. */
  datatype Result<+T, +E> = Ok(value: T) | Err(error: E)

  /** Python's `x or 0.0` on an optional float: None and 0.0 both give 0.0. */
  function OrZero(x: Option<real>): (r: real)
    ensures x.Some? ==> r == x.value
    ensures x.None? ==> r == 0.0
  {
    if x.Some? then x.value else 0.0
  }

  /** A basis-point figure as a fraction: `bps / 10000`. */
  function FromBps(bps: real): real {
    bps / 10000.0
  }

  /** A percentage as a fraction: `pct / 100`. */
  function FromPercent(pct: real): real {
    pct / 100.0
  }

  /** The quote/cash asset every symbol is priced against. */
  const Cash: string := "USDT"

  /** The exchange symbol of an asset: `f"{asset}USDT"`. */
  function SymbolOf(asset: string): (s: string)
    ensures |s| == |asset| + 4 && s[..|asset|] == asset && s[|asset|..] == Cash
  {
    asset + Cash
  }

  /** `s` is ordered by `key`, largest first. */
  ghost predicate SortedDesc<T>(s: seq<T>, key: T -> real) {
    forall i, j :: 0 <= i < j < |s| ==> key(s[i]) >= key(s[j])
  }

  /** Inserts `x` into a list ordered largest first, after every element
      whose key is at least key(x): equal keys keep their arrival order. */
  function InsertDesc<T>(s: seq<T>, x: T, key: T -> real): (r: seq<T>)
    ensures |r| == |s| + 1
    ensures multiset(r) == multiset(s) + multiset{x}
  {
    if |s| == 0 then [x]
    else if key(s[0]) >= key(x) then
      assert s == [s[0]] + s[1..];
      [s[0]] + InsertDesc(s[1..], x, key)
    else
      [x] + s
  }

  lemma {:induction false} InsertDescSorted<T>(s: seq<T>, x: T, key: T -> real)
    requires SortedDesc(s, key)
    ensures SortedDesc(InsertDesc(s, x, key), key)
  {
    if |s| > 0 && key(s[0]) >= key(x) {
      InsertDescSorted(s[1..], x, key);
      var tail := InsertDesc(s[1..], x, key);
      forall k | 0 <= k < |tail|
        ensures key(s[0]) >= key(tail[k])
      {
        assert tail[k] in multiset(tail);
        assert tail[k] in multiset(s[1..]) || tail[k] == x;
        if tail[k] != x {
          assert tail[k] in s[1..];
          var m :| 0 <= m < |s[1..]| && s[1..][m] == tail[k];
          assert s[m + 1] == tail[k];
        }
      }
    }
  }

  /** Python's stable `sorted(s, key=key, reverse=True)`: elements are
      inserted first to last, so among equal keys the earlier one stays first. */
  function SortDesc<T>(s: seq<T>, key: T -> real): (r: seq<T>)
    ensures |r| == |s|
    ensures multiset(r) == multiset(s)
    ensures SortedDesc(r, key)
  {
    if |s| == 0 then []
    else
      assert s == s[..|s| - 1] + [s[|s| - 1]];
      var sorted := SortDesc(s[..|s| - 1], key);
      InsertDescSorted(sorted, s[|s| - 1], key);
      InsertDesc(sorted, s[|s| - 1], key)
  }

  /** The head of `SortDesc(s)` is the earliest element of `s` with the
      largest key: every element before it has a strictly smaller key. */
  lemma {:induction false} SortDescHeadIsFirstMax<T>(s: seq<T>, key: T -> real)
    requires |s| > 0
    ensures exists k :: 0 <= k < |s| && s[k] == SortDesc(s, key)[0]
                        && forall j :: 0 <= j < k ==> key(s[j]) < key(s[k])
  {
    var init, x := s[..|s| - 1], s[|s| - 1];
    var sorted := SortDesc(init, key);
    SortDescHead(s, key);
    if |init| == 0 {
      assert s[0] == x;
    } else if key(sorted[0]) >= key(x) {
      SortDescHeadIsFirstMax(init, key);
      var k :| 0 <= k < |init| && init[k] == sorted[0] && forall j :: 0 <= j < k ==> key(init[j]) < key(init[k]);
      forall j | 0 <= j < k ensures key(s[j]) < key(s[k]) { assert s[j] == init[j] && s[k] == init[k]; }
      assert s[k] == SortDesc(s, key)[0];
    } else {
      SortedHeadIsMax(sorted, key);
      forall j | 0 <= j < |init| ensures key(s[j]) < key(x) {
        assert s[j] == init[j];
        assert init[j] in multiset(sorted);
      }
    }
  }

  /** The head of `SortDesc(s)`: the last element when it outranks the head
      of the sorted rest (or there is no rest), otherwise that head. */
  lemma SortDescHead<T>(s: seq<T>, key: T -> real)
    requires |s| > 0
    ensures var sorted := SortDesc(s[..|s| - 1], key);
            SortDesc(s, key)[0] == if |sorted| == 0 || key(sorted[0]) < key(s[|s| - 1]) then s[|s| - 1] else sorted[0]
  {
    var sorted := SortDesc(s[..|s| - 1], key);
    assert SortDesc(s, key) == InsertDesc(sorted, s[|s| - 1], key);
  }

  /** The head of a list ordered largest first has the largest key. */
  lemma SortedHeadIsMax<T>(s: seq<T>, key: T -> real)
    requires SortedDesc(s, key) && |s| > 0
    ensures forall x :: x in s ==> key(x) <= key(s[0])
  {
    forall x | x in s
      ensures key(x) <= key(s[0])
    {
      var k :| 0 <= k < |s| && s[k] == x;
      if k > 0 {
        assert key(s[0]) >= key(s[k]);
      }
    }
  }
}
