/** The rotation decision: leader selection, the confirmation streak, the
    gates that hold a switch back, the leaderboard, and the engine object
    that runs one cycle per price snapshot. */
module Decision {
  import opened Common
  import opened Config
  import Cost
  import opened Scoring
  import opened Broker

  datatype Connection = Ok | Degraded
  /** The `state` of a snapshot: HOLD, SAFE, READY or SWITCHING. */
  datatype Phase = Hold | Safe | Ready | Switching
  /** The `next_action` of a snapshot: HOLD or SWITCH. */
  datatype NextAction = HoldNext | SwitchNext
  /** The reason codes, in the order the gates are checked. */
  datatype Reason =
    | DataStale | Error
    | HoldMinHold | HoldCooldown | HoldMaxSwitches
    | HoldEdgeTooSmall | HoldNetEdgeTooSmall | HoldConfirming
    | Switch

  /** Prices of one fetch, keyed by symbol, and the time they were fetched. */
  datatype PriceSnapshot = PriceSnapshot(prices: map<string, real>, fetchedAt: real)

  /** One row of the equity table. */
  datatype EquityPoint = EquityPoint(timestamp: real, asset: string, equityUsdt: real)

  /** One row of the switch table. */
  datatype SwitchRecord = SwitchRecord(
    timestamp: real, fromAsset: string, toAsset: string, reason: string,
    equityUsdt: real, edgePct: Option<real>, netEdgePct: Option<real>)

  /** A leaderboard line; `confirm` is the pair rendered as "count/N". */
  datatype LeaderboardRow = LeaderboardRow(
    rank: nat, asset: string, score: Option<real>,
    ret15m: Option<real>, ret1h: Option<real>, ret4h: Option<real>,
    edgeBps: Option<real>, costBps: real, netEdgeBps: Option<real>,
    confirm: (int, int), isLeader: bool)

  datatype DecisionSnapshot = DecisionSnapshot(
    mode: string, connection: Connection, lastUpdate: real,
    currentAsset: string, equityUsdt: real, phase: Phase,
    leader: Option<string>, edgePct: Option<real>, costBps: real,
    netEdgePct: Option<real>, confirm: (int, int), next: NextAction,
    reasons: seq<Reason>, leaderboard: seq<LeaderboardRow>)

  /** Python truthiness of an optional asset name: neither None nor "". */
  predicate Truthy(s: Option<string>) {
    s.Some? && s.value != ""
  }

  /** The score windows and weights of a configuration. */
  function SettingsOf(c: AppConfig): ScoreSettings {
    ScoreSettings(c.ret15mSec, c.ret1hSec, c.ret4hSec, c.weight15m, c.weight1h, c.weight4h)
  }

  // ---------------------------------------------------------------- leader

  /** The sort key `row.score or -999`: a missing score, and also a score of
      exactly 0.0, rank as -999. */
  function RankKey(row: ScoreRow): real {
    if row.score.Some? && row.score.value != 0.0 then row.score.value else -999.0
  }

  /** A row may lead when it has a score and is not blacklisted. */
  predicate Eligible(row: ScoreRow, blacklist: set<string>) {
    row.score.Some? && row.asset !in blacklist
  }

  /** The `available` list: the eligible rows, in their original order. */
  function Available(rows: seq<ScoreRow>, blacklist: set<string>): (r: seq<ScoreRow>)
    ensures |r| <= |rows|
    ensures forall x :: x in r <==> x in rows && Eligible(x, blacklist)
  {
    if |rows| == 0 then []
    else
      assert rows == [rows[0]] + rows[1..];
      (if Eligible(rows[0], blacklist) then [rows[0]] else []) + Available(rows[1..], blacklist)
  }

  /** The first row of the available list sorted by rank key, largest first:
      an eligible row no other eligible row outranks. */
  function Leader(rows: seq<ScoreRow>, blacklist: set<string>): (r: Option<ScoreRow>)
    ensures r.None? <==> forall x :: x in rows ==> !Eligible(x, blacklist)
    ensures r.Some? ==> r.value in rows && Eligible(r.value, blacklist)
    ensures r.Some? ==> forall x :: x in rows && Eligible(x, blacklist) ==> RankKey(x) <= RankKey(r.value)
  {
    var available := Available(rows, blacklist);
    var ranked := SortDesc(available, RankKey);
    if |ranked| == 0 then
      assert forall x :: x in available ==> x in multiset(ranked);
      None
    else
      assert ranked[0] in multiset(available);
      SortedHeadIsMax(ranked, RankKey);
      assert forall x :: x in available ==> x in multiset(ranked);
      Some(ranked[0])
  }

  /** The k-th available row is some row of `rows` every earlier eligible
      row of which comes before it in the available list. */
  ghost predicate ListedAt(rows: seq<ScoreRow>, blacklist: set<string>, a: seq<ScoreRow>, k: nat, m: nat)
    requires k < |a| && m < |rows|
  {
    rows[m] == a[k] &&
    forall j :: 0 <= j < m && Eligible(rows[j], blacklist) ==> exists i :: 0 <= i < k && a[i] == rows[j]
  }

  lemma {:induction false} AvailableIndex(rows: seq<ScoreRow>, blacklist: set<string>, k: nat)
    requires k < |Available(rows, blacklist)|
    ensures exists m :: 0 <= m < |rows| && ListedAt(rows, blacklist, Available(rows, blacklist), k, m)
  {
    if Eligible(rows[0], blacklist) {
      if k == 0 {
        assert ListedAt(rows, blacklist, Available(rows, blacklist), 0, 0);
      } else {
        AvailableIndex(rows[1..], blacklist, k - 1);
        var m' :| 0 <= m' < |rows[1..]| && ListedAt(rows[1..], blacklist, Available(rows[1..], blacklist), k - 1, m');
        AvailableIndexKept(rows, blacklist, k, m');
      }
    } else {
      AvailableIndex(rows[1..], blacklist, k);
      var m' :| 0 <= m' < |rows[1..]| && ListedAt(rows[1..], blacklist, Available(rows[1..], blacklist), k, m');
      AvailableIndexSkipped(rows, blacklist, k, m');
    }
  }

  /** The step of `AvailableIndex` past an eligible first row. */
  lemma AvailableIndexKept(rows: seq<ScoreRow>, blacklist: set<string>, k: nat, m': nat)
    requires |rows| > 0 && Eligible(rows[0], blacklist) && 0 < k < |Available(rows, blacklist)| && m' < |rows| - 1
    requires ListedAt(rows[1..], blacklist, Available(rows[1..], blacklist), k - 1, m')
    ensures ListedAt(rows, blacklist, Available(rows, blacklist), k, m' + 1)
  {
    var a, rest := Available(rows, blacklist), Available(rows[1..], blacklist);
    assert a == [rows[0]] + rest;
    assert rows[m' + 1] == rows[1..][m'];
    forall j | 0 <= j < m' + 1 && Eligible(rows[j], blacklist)
      ensures exists i :: 0 <= i < k && a[i] == rows[j]
    {
      if j == 0 {
        assert a[0] == rows[0];
      } else {
        assert rows[1..][j - 1] == rows[j];
        var i :| 0 <= i < k - 1 && rest[i] == rows[1..][j - 1];
        assert a[i + 1] == rows[j];
      }
    }
  }

  /** The step of `AvailableIndex` past an ineligible first row. */
  lemma AvailableIndexSkipped(rows: seq<ScoreRow>, blacklist: set<string>, k: nat, m': nat)
    requires |rows| > 0 && !Eligible(rows[0], blacklist) && k < |Available(rows, blacklist)| && m' < |rows| - 1
    requires ListedAt(rows[1..], blacklist, Available(rows[1..], blacklist), k, m')
    ensures ListedAt(rows, blacklist, Available(rows, blacklist), k, m' + 1)
  {
    var a, rest := Available(rows, blacklist), Available(rows[1..], blacklist);
    assert a == rest;
    assert rows[m' + 1] == rows[1..][m'];
    forall j | 0 <= j < m' + 1 && Eligible(rows[j], blacklist)
      ensures exists i :: 0 <= i < k && a[i] == rows[j]
    {
      assert rows[1..][j - 1] == rows[j];
    }
  }

  /** The stable sort breaks ties by position: the leader is the first
      eligible row of `rows` with the leader's rank key, since every
      eligible row before it ranks strictly lower. */
  lemma LeaderIsFirstBest(rows: seq<ScoreRow>, blacklist: set<string>)
    requires Leader(rows, blacklist).Some?
    ensures var r := Leader(rows, blacklist).value;
            exists m :: 0 <= m < |rows| && rows[m] == r
              && forall j :: 0 <= j < m && Eligible(rows[j], blacklist) ==> RankKey(rows[j]) < RankKey(r)
  {
    var available := Available(rows, blacklist);
    var r := Leader(rows, blacklist).value;
    assert r == SortDesc(available, RankKey)[0];
    SortDescHeadIsFirstMax(available, RankKey);
    var k :| 0 <= k < |available| && available[k] == r
             && forall j :: 0 <= j < k ==> RankKey(available[j]) < RankKey(available[k]);
    AvailableIndex(rows, blacklist, k);
    var m :| 0 <= m < |rows| && ListedAt(rows, blacklist, available, k, m);
    forall j | 0 <= j < m && Eligible(rows[j], blacklist)
      ensures RankKey(rows[j]) < RankKey(r)
    {
      var i :| 0 <= i < k && available[i] == rows[j];
    }
  }

  /** A leader's asset, or None. */
  function LeaderAsset(row: Option<ScoreRow>): Option<string> {
    if row.Some? then Some(row.value.asset) else None
  }

  /** Because of `score or -999`, a leader scoring exactly 0.0 loses to one
      scoring -0.5. */
  lemma ZeroScoreLosesToNegative()
    ensures var rows := [ScoreRow("A", Some(0.0), None, None, None), ScoreRow("B", Some(-0.5), None, None, None)];
            LeaderAsset(Leader(rows, {})) == Some("B")
  {
    var rows := [ScoreRow("A", Some(0.0), None, None, None), ScoreRow("B", Some(-0.5), None, None, None)];
    var r := Leader(rows, {});
    assert rows[1] in rows && Eligible(rows[1], {});
    assert RankKey(rows[1]) == -0.5 && RankKey(rows[0]) == -999.0;
  }

  /** `next(row for row in scores if row.asset == asset)`: the index of the
      first row for `asset`. */
  function FirstRowOf(rows: seq<ScoreRow>, asset: string): (r: Option<nat>)
    ensures r.None? <==> forall k :: 0 <= k < |rows| ==> rows[k].asset != asset
    ensures r.Some? ==> r.value < |rows| && rows[r.value].asset == asset &&
                        forall k :: 0 <= k < r.value ==> rows[k].asset != asset
  {
    if |rows| == 0 then None
    else if rows[0].asset == asset then Some(0)
    else
      var rest := FirstRowOf(rows[1..], asset);
      if rest.None? then None else Some(rest.value + 1)
  }

  /** The score of the currently held asset's row, None without one. */
  function CurrentScore(rows: seq<ScoreRow>, asset: string): Option<real> {
    match FirstRowOf(rows, asset)
    case None => None
    case Some(k) => rows[k].score
  }

  /** `leader.score - (current_score or 0.0)`. */
  function EdgePct(leader: Option<ScoreRow>, currentScore: Option<real>): (r: Option<real>)
    ensures r.Some? <==> leader.Some? && leader.value.score.Some?
    ensures r.Some? ==> r.value + OrZero(currentScore) == leader.value.score.value
  {
    if leader.Some? && leader.value.score.Some? then Some(leader.value.score.value - OrZero(currentScore))
    else None
  }

  // ---------------------------------------------------------- confirmation

  /** How many consecutive cycles the current leader has led. */
  datatype Streak = Streak(count: int, lastLeader: Option<string>)

  /** `_update_confirmation`. */
  function NextStreak(s: Streak, leader: Option<string>): (r: Streak)
    ensures r.lastLeader == leader
    ensures Truthy(leader) && leader == s.lastLeader ==> r.count == s.count + 1
    ensures Truthy(leader) && leader != s.lastLeader ==> r.count == 1
    ensures !Truthy(leader) ==> r.count == 0
  {
    if Truthy(leader) && leader == s.lastLeader then Streak(s.count + 1, s.lastLeader)
    else Streak(if Truthy(leader) then 1 else 0, leader)
  }

  /** The streak after a run of cycles with these leaders, from the initial
      state (count 0, no leader). */
  function StreakAfter(leaders: seq<Option<string>>): Streak {
    if |leaders| == 0 then Streak(0, None)
    else NextStreak(StreakAfter(leaders[..|leaders| - 1]), leaders[|leaders| - 1])
  }

  /** How many entries at the end of `leaders` equal `x`. */
  function RunOf(leaders: seq<Option<string>>, x: Option<string>): nat {
    if |leaders| == 0 || leaders[|leaders| - 1] != x then 0
    else 1 + RunOf(leaders[..|leaders| - 1], x)
  }

  /** The confirmation count is the length of the final run of one truthy
      leader, and zero after a cycle without one. */
  lemma {:induction false} StreakIsTrailingRun(leaders: seq<Option<string>>)
    ensures StreakAfter(leaders).lastLeader == if |leaders| == 0 then None else leaders[|leaders| - 1]
    ensures StreakAfter(leaders).count
            == if |leaders| == 0 || !Truthy(leaders[|leaders| - 1]) then 0
               else RunOf(leaders, leaders[|leaders| - 1])
  {
    if |leaders| > 0 {
      var prefix := leaders[..|leaders| - 1];
      var x := leaders[|leaders| - 1];
      StreakIsTrailingRun(prefix);
      if Truthy(x) && x == StreakAfter(prefix).lastLeader {
        assert |prefix| > 0 && prefix[|prefix| - 1] == x;
      } else if Truthy(x) {
        assert RunOf(prefix, x) == 0;
      }
    }
  }

  // ------------------------------------------------------------ the gates

  /** `_data_stale`: more than `staleSec` since the previous snapshot. */
  function DataStaleAt(lastUpdate: Option<real>, now: real, staleSec: int): bool {
    lastUpdate.Some? && now - lastUpdate.value > staleSec as real
  }

  /** `_min_hold_active`. */
  function MinHoldActive(lastSwitchTime: Option<real>, now: real, minHoldSec: int): bool {
    lastSwitchTime.Some? && now - lastSwitchTime.value < minHoldSec as real
  }

  /** `_cooldown_active`. */
  function CooldownActive(cooldownUntil: Option<real>, now: real): bool {
    cooldownUntil.Some? && now < cooldownUntil.value
  }

  /** The per-day switch counter and the day it counts. */
  datatype DayCount = DayCount(count: int, date: Option<int>)

  /** `_reset_daily_switch_count`: a new calendar day starts from zero. */
  function ResetDaily(d: DayCount, today: int): (r: DayCount)
    ensures r.date == Some(today)
    ensures d.date == Some(today) ==> r == d
    ensures d.date != Some(today) ==> r.count == 0
  {
    if d.date != Some(today) then DayCount(0, Some(today)) else d
  }

  /** What the gates look at in one cycle. */
  datatype GateInputs = GateInputs(
    stale: bool, hasLeader: bool,
    minHoldActive: bool, cooldownActive: bool, switchLimitReached: bool,
    edgePct: Option<real>, netEdgePct: Option<real>,
    confirmCount: int, leaderIsCurrent: bool)

  datatype Verdict = Verdict(connection: Connection, phase: Phase, next: NextAction, reasons: seq<Reason>)

  /** `_can_switch`. */
  predicate CanSwitch(g: GateInputs) {
    !(g.minHoldActive || g.cooldownActive || g.switchLimitReached)
  }

  predicate EdgeTooSmall(g: GateInputs, c: AppConfig) {
    g.edgePct.Some? && g.edgePct.value < FromPercent(c.edgeThresholdPct)
  }

  predicate NetEdgeTooSmall(g: GateInputs, c: AppConfig) {
    c.netEdgeGateEnabled && OrZero(g.netEdgePct) < FromPercent(c.netEdgeMinPct)
  }

  /** The position of a reason in the order the gates are checked. */
  function GateOrder(r: Reason): nat {
    match r
    case DataStale => 0
    case Error => 1
    case HoldMinHold => 2
    case HoldCooldown => 3
    case HoldMaxSwitches => 4
    case HoldEdgeTooSmall => 5
    case HoldNetEdgeTooSmall => 6
    case HoldConfirming => 7
    case Switch => 8
  }

  /** Every active timing gate, in the order min-hold, cooldown, daily limit. */
  function TimingReasons(g: GateInputs): (r: seq<Reason>)
    ensures HoldMinHold in r <==> g.minHoldActive
    ensures HoldCooldown in r <==> g.cooldownActive
    ensures HoldMaxSwitches in r <==> g.switchLimitReached
    ensures forall x :: x in r ==> x == HoldMinHold || x == HoldCooldown || x == HoldMaxSwitches
    ensures forall i, j :: 0 <= i < j < |r| ==> GateOrder(r[i]) < GateOrder(r[j])
    ensures r == [] <==> CanSwitch(g)
  {
    (if g.minHoldActive then [HoldMinHold] else [])
    + (if g.cooldownActive then [HoldCooldown] else [])
    + (if g.switchLimitReached then [HoldMaxSwitches] else [])
  }

  /** The decision of `process_prices` before any switch is made. */
  function Gate(g: GateInputs, c: AppConfig): (v: Verdict)
    ensures v.connection == if g.stale then Degraded else Connection.Ok
    ensures v.phase == Safe <==> g.stale || !g.hasLeader
    ensures g.stale ==> v.reasons == [DataStale]
    ensures !g.stale && !g.hasLeader ==> v.reasons == [Error]
    ensures v.next == SwitchNext <==> v.phase == Ready
    ensures v.phase == Ready <==>
              && !g.stale && g.hasLeader && CanSwitch(g)
              && !EdgeTooSmall(g, c) && !NetEdgeTooSmall(g, c)
              && g.confirmCount >= c.confirmN && !g.leaderIsCurrent
    ensures v.phase == Ready <==> v.reasons == []
    ensures v.phase != Switching
    ensures !g.stale && g.hasLeader && !CanSwitch(g) ==> v.reasons == TimingReasons(g)
    ensures !g.stale && g.hasLeader && CanSwitch(g) ==>
              && (EdgeTooSmall(g, c) ==> v.reasons == [HoldEdgeTooSmall])
              && (!EdgeTooSmall(g, c) && NetEdgeTooSmall(g, c) ==> v.reasons == [HoldNetEdgeTooSmall])
              && (!EdgeTooSmall(g, c) && !NetEdgeTooSmall(g, c) && (g.confirmCount < c.confirmN || g.leaderIsCurrent)
                  ==> v.reasons == [HoldConfirming])
  {
    if g.stale then Verdict(Degraded, Safe, HoldNext, [DataStale])
    else if !g.hasLeader then Verdict(Connection.Ok, Safe, HoldNext, [Error])
    else if !CanSwitch(g) then Verdict(Connection.Ok, Hold, HoldNext, TimingReasons(g))
    else if EdgeTooSmall(g, c) then Verdict(Connection.Ok, Hold, HoldNext, [HoldEdgeTooSmall])
    else if NetEdgeTooSmall(g, c) then Verdict(Connection.Ok, Hold, HoldNext, [HoldNetEdgeTooSmall])
    else if g.confirmCount < c.confirmN then Verdict(Connection.Ok, Hold, HoldNext, [HoldConfirming])
    else if g.leaderIsCurrent then Verdict(Connection.Ok, Hold, HoldNext, [HoldConfirming])
    else Verdict(Connection.Ok, Ready, SwitchNext, [])
  }

  /** Under the default settings a 0.5 % edge clears the edge threshold but,
      after the 29 bps round trip, not the 0.25 % net-edge gate. */
  lemma DefaultNetEdgeGate()
    ensures var costBps := Cost.FromConfig(Default()).SwitchCostBps();
            var g := GateInputs(false, true, false, false, false, Some(0.005), Some(0.005 - FromBps(costBps)), 3, false);
            Gate(g, Default()).reasons == [HoldNetEdgeTooSmall]
  {
    var c := Default();
    DefaultGates();
    Cost.DefaultCosts();
    var costBps := Cost.FromConfig(c).SwitchCostBps();
    assert costBps == 29.0;
    var g := GateInputs(false, true, false, false, false, Some(0.005), Some(0.005 - FromBps(costBps)), 3, false);
    assert !EdgeTooSmall(g, c);
    assert NetEdgeTooSmall(g, c);
  }

  // ----------------------------------------------------------- leaderboard

  /** A leaderboard line for the score row at `rank`. */
  function LeaderboardRowOf(rank: nat, row: ScoreRow, currentScore: Option<real>, costBps: real,
                            streak: Streak, confirmN: int): LeaderboardRow
  {
    var edgeBps := if row.score.Some? then Some((row.score.value - OrZero(currentScore)) * 10000.0) else None;
    var isLeader := Some(row.asset) == streak.lastLeader;
    LeaderboardRow(rank, row.asset, row.score, row.ret15m, row.ret1h, row.ret4h,
                   edgeBps, costBps, if edgeBps.Some? then Some(edgeBps.value - costBps) else None,
                   if isLeader then (streak.count, confirmN) else (0, 0), isLeader)
  }

  /** One pass of the `_build_leaderboard` loop. */
  method LeaderboardLine(rank: nat, row: ScoreRow, currentScore: Option<real>, costBps: real,
                         streak: Streak, confirmN: int) returns (line: LeaderboardRow)
    ensures line == LeaderboardRowOf(rank, row, currentScore, costBps, streak, confirmN)
  {
    var edgeBps: Option<real> := None;
    var netEdgeBps: Option<real> := None;
    if row.score.Some? {
      var edge := row.score.value - OrZero(currentScore);
      edgeBps := Some(edge * 10000.0);
      netEdgeBps := Some(edge * 10000.0 - costBps);
    }
    var isLeader := Some(row.asset) == streak.lastLeader;
    line := LeaderboardRow(rank, row.asset, row.score, row.ret15m, row.ret1h, row.ret4h,
                           edgeBps, costBps, netEdgeBps,
                           if isLeader then (streak.count, confirmN) else (0, 0), isLeader);
  }

  /** The score row a leaderboard line shows. */
  function ShownRow(b: LeaderboardRow): ScoreRow {
    ScoreRow(b.asset, b.score, b.ret15m, b.ret1h, b.ret4h)
  }

  /** `_build_leaderboard`: a line per score row, in the order of the rows
      ranked by `score or -999`, largest first, numbered from 1. */
  function Leaderboard(rows: seq<ScoreRow>, currentScore: Option<real>, costBps: real,
                       streak: Streak, confirmN: int): (board: seq<LeaderboardRow>)
    ensures |board| == |rows|
    ensures forall i :: 0 <= i < |board| ==>
              && board[i].rank == i + 1
              && ShownRow(board[i]) == SortDesc(rows, RankKey)[i]
              && (board[i].isLeader <==> Some(board[i].asset) == streak.lastLeader)
              && (board[i].edgeBps.Some? <==> board[i].score.Some?)
              && (board[i].netEdgeBps.Some? <==> board[i].score.Some?)
              && (board[i].netEdgeBps.Some? ==> board[i].netEdgeBps.value == board[i].edgeBps.value - costBps)
  {
    var ranked := SortDesc(rows, RankKey);
    seq(|ranked|, i requires 0 <= i < |ranked| =>
          LeaderboardRowOf(i + 1, ranked[i], currentScore, costBps, streak, confirmN))
  }

  /** The rows a leaderboard shows. */
  function ShownRows(board: seq<LeaderboardRow>): (r: seq<ScoreRow>)
    ensures |r| == |board| && forall i :: 0 <= i < |r| ==> r[i] == ShownRow(board[i])
  {
    seq(|board|, i requires 0 <= i < |board| => ShownRow(board[i]))
  }

  /** The leaderboard shows every score row exactly once, best first. */
  lemma LeaderboardIsRanking(rows: seq<ScoreRow>, currentScore: Option<real>, costBps: real,
                             streak: Streak, confirmN: int)
    ensures var shown := ShownRows(Leaderboard(rows, currentScore, costBps, streak, confirmN));
            multiset(shown) == multiset(rows) && SortedDesc(shown, RankKey)
  {
    var shown := ShownRows(Leaderboard(rows, currentScore, costBps, streak, confirmN));
    assert shown == SortDesc(rows, RankKey);
  }

  // ----------------------------------------------------------- one cycle

  /** Everything one cycle reads and writes besides the scoring engine and
      the configuration. */
  datatype EngineState = EngineState(
    lastUpdate: Option<real>, lastSwitchTime: Option<real>, streak: Streak,
    cooldownUntil: Option<real>, day: DayCount, blacklist: set<string>,
    holdings: Holdings, equityCurve: seq<EquityPoint>, switches: seq<SwitchRecord>)

  /** `_execute_switch` at wall-clock time `clock`. */
  function SwitchedState(st: EngineState, leader: string, prices: map<string, real>, c: AppConfig,
                         clock: real, edgePct: Option<real>, netEdgePct: Option<real>): (r: EngineState)
    ensures r.holdings == Switched(st.holdings, leader, prices, Cost.FromConfig(c).PerTradeBps())
    ensures r.lastSwitchTime == Some(clock) && r.cooldownUntil == Some(clock + c.cooldownSec as real)
    ensures r.day == st.day.(count := st.day.count + 1)
    ensures r.switches == st.switches + [SwitchRecord(clock, st.holdings.asset, leader, "SWITCH",
                                                      Equity(r.holdings, prices), edgePct, netEdgePct)]
    ensures r == st.(holdings := r.holdings, lastSwitchTime := r.lastSwitchTime,
                     cooldownUntil := r.cooldownUntil, day := r.day, switches := r.switches)
  {
    var holdings := Switched(st.holdings, leader, prices, Cost.FromConfig(c).PerTradeBps());
    st.(holdings := holdings,
        lastSwitchTime := Some(clock),
        cooldownUntil := Some(clock + c.cooldownSec as real),
        day := st.day.(count := st.day.count + 1),
        switches := st.switches + [SwitchRecord(clock, st.holdings.asset, leader, "SWITCH",
                                                Equity(holdings, prices), edgePct, netEdgePct)])
  }

  /** The gate inputs of a cycle, after the confirmation update and the
      daily reset. */
  function GateInputsOf(pre: EngineState, c: AppConfig, leaderRow: Option<ScoreRow>, streak: Streak,
                        day: DayCount, now: real, edgePct: Option<real>, netEdgePct: Option<real>): GateInputs
  {
    GateInputs(
      DataStaleAt(pre.lastUpdate, now, c.dataStaleSec), leaderRow.Some?,
      MinHoldActive(pre.lastSwitchTime, now, c.minHoldSec),
      CooldownActive(pre.cooldownUntil, now),
      day.count >= c.maxSwitchesPerDay,
      edgePct, netEdgePct, streak.count,
      LeaderAsset(leaderRow) == Some(pre.holdings.asset))
  }

  /** The values a cycle derives from the scores before acting. */
  datatype Assessment = Assessment(
    stale: bool, leaderRow: Option<ScoreRow>, streak: Streak, currentScore: Option<real>,
    edgePct: Option<real>, costBps: real, netEdgePct: Option<real>, day: DayCount, verdict: Verdict)

  function Assess(pre: EngineState, c: AppConfig, rows: seq<ScoreRow>, now: real, today: int): Assessment
  {
    var stale := DataStaleAt(pre.lastUpdate, now, c.dataStaleSec);
    var leaderRow := Leader(rows, pre.blacklist);
    var streak := NextStreak(pre.streak, LeaderAsset(leaderRow));
    var currentScore := CurrentScore(rows, pre.holdings.asset);
    var edgePct := EdgePct(leaderRow, currentScore);
    var costBps := Cost.FromConfig(c).SwitchCostBps();
    var netEdgePct := if edgePct.Some? then Some(edgePct.value - FromBps(costBps)) else None;
    var day := if !stale && leaderRow.Some? then ResetDaily(pre.day, today) else pre.day;
    var verdict := Gate(GateInputsOf(pre, c, leaderRow, streak, day, now, edgePct, netEdgePct), c);
    Assessment(stale, leaderRow, streak, currentScore, edgePct, costBps, netEdgePct, day, verdict)
  }

  /** Whether the cycle goes on to switch: a SWITCH verdict and a truthy leader. */
  predicate Switches(a: Assessment) {
    a.verdict.next == SwitchNext && Truthy(LeaderAsset(a.leaderRow))
  }

  /** The engine state after a cycle with assessment `a`: the update time,
      streak and day count, then any switch, then one equity point. */
  function CycleState(pre: EngineState, c: AppConfig, snapshot: PriceSnapshot, a: Assessment, clock: real): EngineState
  {
    var now := snapshot.fetchedAt;
    var mid := pre.(lastUpdate := Some(now), streak := a.streak, day := a.day);
    var post := if Switches(a)
                then SwitchedState(mid, LeaderAsset(a.leaderRow).value, snapshot.prices, c, clock, a.edgePct, a.netEdgePct)
                else mid;
    post.(equityCurve := post.equityCurve + [EquityPoint(now, post.holdings.asset, Equity(post.holdings, snapshot.prices))])
  }

  /** `process_prices` on the engine state, given the score rows the scoring
      engine produced for this snapshot, the calendar day of the snapshot
      and the wall-clock time a switch would be stamped with. */
  function Cycle(pre: EngineState, c: AppConfig, rows: seq<ScoreRow>, snapshot: PriceSnapshot,
                 today: int, clock: real): (EngineState, DecisionSnapshot)
  {
    var now := snapshot.fetchedAt;
    var a := Assess(pre, c, rows, now, today);
    var final := CycleState(pre, c, snapshot, a, clock);
    var equity := Equity(final.holdings, snapshot.prices);
    (final,
     DecisionSnapshot(
       "PAPER", a.verdict.connection, now, final.holdings.asset, equity,
       if Switches(a) then Switching else a.verdict.phase,
       LeaderAsset(a.leaderRow), a.edgePct, a.costBps, a.netEdgePct,
       (a.streak.count, c.confirmN), a.verdict.next,
       if Switches(a) then [Switch] else a.verdict.reasons,
       Leaderboard(rows, a.currentScore, a.costBps, a.streak, c.confirmN)))
  }

  /** A cycle switches only with fresh data, an eligible and unbeaten
      leader that is not already held, a confirmed streak, no active
      min-hold or cooldown, room under the daily limit and an edge above
      both thresholds; it then rotates the holdings to the leader. */
  lemma SwitchPassesEveryGate(pre: EngineState, c: AppConfig, rows: seq<ScoreRow>, snapshot: PriceSnapshot,
                              today: int, clock: real)
    ensures var (post, d) := Cycle(pre, c, rows, snapshot, today, clock);
            var now := snapshot.fetchedAt;
            var a := Assess(pre, c, rows, now, today);
            d.phase == Switching ==>
              && !DataStaleAt(pre.lastUpdate, now, c.dataStaleSec)
              && a.leaderRow.Some? && Eligible(a.leaderRow.value, pre.blacklist)
              && (forall x :: x in rows && Eligible(x, pre.blacklist) ==> RankKey(x) <= RankKey(a.leaderRow.value))
              && a.leaderRow.value.asset != pre.holdings.asset
              && a.streak.count >= c.confirmN
              && !MinHoldActive(pre.lastSwitchTime, now, c.minHoldSec)
              && !CooldownActive(pre.cooldownUntil, now)
              && a.day.count < c.maxSwitchesPerDay
              && a.edgePct.Some? && a.edgePct.value >= FromPercent(c.edgeThresholdPct)
              && (c.netEdgeGateEnabled ==> OrZero(a.netEdgePct) >= FromPercent(c.netEdgeMinPct))
              && post.holdings == Switched(pre.holdings, a.leaderRow.value.asset, snapshot.prices,
                                           Cost.FromConfig(c).PerTradeBps())
              && d.reasons == [Switch]
  {
  }

  /** A cycle that does not switch leaves the holdings, the switch table
      and the switch timers alone, and always gives a reason. */
  lemma HoldKeepsPosition(pre: EngineState, c: AppConfig, rows: seq<ScoreRow>, snapshot: PriceSnapshot,
                          today: int, clock: real)
    ensures var (post, d) := Cycle(pre, c, rows, snapshot, today, clock);
            d.phase != Switching ==>
              && post.holdings == pre.holdings && post.switches == pre.switches
              && post.lastSwitchTime == pre.lastSwitchTime && post.cooldownUntil == pre.cooldownUntil
              && (d.phase != Ready ==> |d.reasons| > 0)
  {
  }

  /** Stale data puts the engine in SAFE with the single reason DATA_STALE
      and a degraded connection, and nothing is traded. */
  lemma StaleCycleIsSafe(pre: EngineState, c: AppConfig, rows: seq<ScoreRow>, snapshot: PriceSnapshot,
                         today: int, clock: real)
    requires DataStaleAt(pre.lastUpdate, snapshot.fetchedAt, c.dataStaleSec)
    ensures var (post, d) := Cycle(pre, c, rows, snapshot, today, clock);
            && d.phase == Safe && d.reasons == [DataStale] && d.connection == Degraded
            && post.holdings == pre.holdings && post.day == pre.day
  {
  }

  /** Every cycle records the snapshot time and one equity point, the
      equity of the holdings after any switch. */
  lemma EquityRecordedEachCycle(pre: EngineState, c: AppConfig, rows: seq<ScoreRow>, snapshot: PriceSnapshot,
                                today: int, clock: real)
    ensures var (post, d) := Cycle(pre, c, rows, snapshot, today, clock);
            && post.lastUpdate == Some(snapshot.fetchedAt)
            && d.equityUsdt == Equity(post.holdings, snapshot.prices)
            && post.equityCurve == pre.equityCurve + [EquityPoint(snapshot.fetchedAt, d.currentAsset, d.equityUsdt)]
  {
  }

  /** The daily switch counter never passes a non-negative limit. */
  lemma DailyLimitKept(pre: EngineState, c: AppConfig, rows: seq<ScoreRow>, snapshot: PriceSnapshot,
                       today: int, clock: real)
    requires 0 <= c.maxSwitchesPerDay && pre.day.count <= c.maxSwitchesPerDay
    ensures Cycle(pre, c, rows, snapshot, today, clock).0.day.count <= c.maxSwitchesPerDay
  {
  }

  /** A cycle keeps the holdings exclusive (unless USDT itself is quoted). */
  lemma CycleKeepsExclusive(pre: EngineState, c: AppConfig, rows: seq<ScoreRow>, snapshot: PriceSnapshot,
                            today: int, clock: real)
    requires Exclusive(pre.holdings) && SymbolOf(Cash) !in snapshot.prices
    ensures Exclusive(Cycle(pre, c, rows, snapshot, today, clock).0.holdings)
  {
  }

  /** A cycle that switches starts the min-hold and cooldown timers at
      the switch time. */
  lemma SwitchStartsTimers(pre: EngineState, c: AppConfig, rows: seq<ScoreRow>, snapshot: PriceSnapshot,
                           today: int, clock: real)
    ensures var (post, d) := Cycle(pre, c, rows, snapshot, today, clock);
            d.phase == Switching ==>
              post.lastSwitchTime == Some(clock) && post.cooldownUntil == Some(clock + c.cooldownSec as real)
  {
    SwitchingPhaseSwitches(pre, c, rows, snapshot, today, clock);
    SwitchesStampTimers(pre, c, snapshot, Assess(pre, c, rows, snapshot.fetchedAt, today), clock);
  }

  /** A SWITCHING snapshot comes only from a cycle that switches. */
  lemma SwitchingPhaseSwitches(pre: EngineState, c: AppConfig, rows: seq<ScoreRow>, snapshot: PriceSnapshot,
                               today: int, clock: real)
    ensures Cycle(pre, c, rows, snapshot, today, clock).1.phase == Switching ==>
              Switches(Assess(pre, c, rows, snapshot.fetchedAt, today))
  {
    var a := Assess(pre, c, rows, snapshot.fetchedAt, today);
    assert a.verdict.phase != Switching;
  }

  /** A cycle that switches stamps both timers with the clock. */
  lemma SwitchesStampTimers(pre: EngineState, c: AppConfig, snapshot: PriceSnapshot, a: Assessment, clock: real)
    ensures var mid := CycleState(pre, c, snapshot, a, clock);
            Switches(a) ==> mid.lastSwitchTime == Some(clock) && mid.cooldownUntil == Some(clock + c.cooldownSec as real)
  {
  }

  /** While the min-hold or the cooldown is running, a cycle holds. */
  lemma TimersHold(pre: EngineState, c: AppConfig, rows: seq<ScoreRow>, snapshot: PriceSnapshot,
                   today: int, clock: real)
    requires MinHoldActive(pre.lastSwitchTime, snapshot.fetchedAt, c.minHoldSec)
             || CooldownActive(pre.cooldownUntil, snapshot.fetchedAt)
    ensures var (post, d) := Cycle(pre, c, rows, snapshot, today, clock);
            d.phase != Switching && post.holdings == pre.holdings
  {
    var a := Assess(pre, c, rows, snapshot.fetchedAt, today);
    assert a.verdict.next == HoldNext;
  }

  /** After a switch stamped `clock`, no cycle switches again before the
      cooldown has run out or the minimum hold has passed. */
  lemma {:induction false} NoSwitchDuringCooldownOrMinHold(
    pre: EngineState, c: AppConfig, rows: seq<ScoreRow>, snapshot: PriceSnapshot, today: int, clock: real,
    rows2: seq<ScoreRow>, snapshot2: PriceSnapshot, today2: int, clock2: real)
    requires Cycle(pre, c, rows, snapshot, today, clock).1.phase == Switching
    requires snapshot2.fetchedAt < clock + c.cooldownSec as real || snapshot2.fetchedAt - clock < c.minHoldSec as real
    ensures var mid := Cycle(pre, c, rows, snapshot, today, clock).0;
            var (post, d) := Cycle(mid, c, rows2, snapshot2, today2, clock2);
            d.phase != Switching && post.holdings == mid.holdings
  {
    var mid := Cycle(pre, c, rows, snapshot, today, clock).0;
    SwitchStartsTimers(pre, c, rows, snapshot, today, clock);
    TimersHold(mid, c, rows2, snapshot2, today2, clock2);
  }

  // ------------------------------------------------------------ the engine

  class DecisionEngine {
    var config: AppConfig
    var scoring: ScoringEngine
    var costModel: Cost.CostModel
    const broker: PaperBroker
    var lastUpdate: Option<real>
    var lastSwitchTime: Option<real>
    var lastLeader: Option<string>
    var confirmCount: int
    var cooldownUntil: Option<real>
    var switchCountDay: int
    var switchCountDate: Option<int>
    var blacklist: set<string>
    /** The rows this engine appends to the equity table. */
    var equityCurve: seq<EquityPoint>
    /** The rows this engine appends to the switch table. */
    var switches: seq<SwitchRecord>

    /** The scoring engine owns its own objects, apart from this engine and
        its broker. */
    ghost predicate Valid()
      reads this, scoring, scoring.Repr
    {
      && this !in scoring.Repr && broker !in scoring.Repr
      && scoring.Valid()
      && scoring.settings == SettingsOf(config)
      && costModel == Cost.FromConfig(config)
    }

    /** The engine's state apart from the scoring engine and the settings. */
    function State(): EngineState
      reads this, broker
    {
      EngineState(lastUpdate, lastSwitchTime, Streak(confirmCount, lastLeader), cooldownUntil,
                  DayCount(switchCountDay, switchCountDate), blacklist, broker.holdings, equityCurve, switches)
    }

    constructor (config: AppConfig)
      ensures Valid() && fresh(broker) && fresh(scoring.Repr)
      ensures this.config == config && costModel == Cost.FromConfig(config)
      ensures scoring.assets == config.universe && scoring.Histories == EmptyHistoriesOf(config.universe)
      ensures State() == EngineState(None, None, Streak(0, None), None, DayCount(0, None), {},
                                     Holdings(Cash, 0.0, config.startingBalance), [], [])
    {
      this.config := config;
      scoring := new ScoringEngine(config.universe, SettingsOf(config));
      costModel := Cost.FromConfig(config);
      broker := new PaperBroker(config.startingBalance);
      lastUpdate := None;
      lastSwitchTime := None;
      lastLeader := None;
      confirmCount := 0;
      cooldownUntil := None;
      switchCountDay := 0;
      switchCountDate := None;
      blacklist := {};
      equityCurve := [];
      switches := [];
    }

    /** `update_config`: new settings, a new cost model and a new, empty
        scoring engine; the holdings, timers, streak and blacklist stay. */
    method UpdateConfig(config: AppConfig)
      requires Valid()
      modifies this
      ensures Valid()
      ensures this.config == config && costModel == Cost.FromConfig(config)
      ensures fresh(scoring.Repr) && scoring.assets == config.universe
      ensures scoring.Histories == EmptyHistoriesOf(config.universe)
      ensures State() == old(State())
    {
      this.config := config;
      costModel := Cost.FromConfig(config);
      scoring := new ScoringEngine(config.universe, SettingsOf(config));
    }

    /** `blacklist_asset`: a truthy asset is never chosen as leader again. */
    method BlacklistAsset(asset: Option<string>)
      requires Valid()
      modifies this
      ensures Valid()
      ensures config == old(config) && scoring == old(scoring) && costModel == old(costModel)
      ensures State() == old(State()).(blacklist := if Truthy(asset) then old(blacklist) + {asset.value} else old(blacklist))
    {
      if Truthy(asset) {
        blacklist := blacklist + {asset.value};
      }
    }

    /** `park_to_usdt`: sell the position into USDT at one leg's cost. */
    method ParkToUsdt(prices: map<string, real>)
      requires Valid()
      modifies broker
      ensures Valid()
      ensures State() == old(State()).(holdings := Parked(old(broker.holdings), prices, costModel.PerTradeBps()))
    {
      broker.ParkUsdt(prices, costModel.PerTradeBps());
    }

    /** `current_equity`. */
    method CurrentEquity(prices: map<string, real>) returns (e: real)
      ensures e == Equity(broker.holdings, prices)
    {
      e := broker.EquityUsdt(prices);
    }

    /** `_update_confirmation`. */
    method UpdateConfirmation(leader: Option<string>)
      modifies this
      ensures config == old(config) && scoring == old(scoring) && costModel == old(costModel)
      ensures State() == old(State()).(streak := NextStreak(old(State()).streak, leader))
    {
      if Truthy(leader) && leader == lastLeader {
        confirmCount := confirmCount + 1;
      } else {
        confirmCount := if Truthy(leader) then 1 else 0;
        lastLeader := leader;
      }
    }

    /** `_reset_daily_switch_count`, with the calendar day of the snapshot
        given. */
    method ResetDailySwitchCount(today: int)
      modifies this
      ensures config == old(config) && scoring == old(scoring) && costModel == old(costModel)
      ensures State() == old(State()).(day := ResetDaily(old(State()).day, today))
    {
      if switchCountDate != Some(today) {
        switchCountDate := Some(today);
        switchCountDay := 0;
      }
    }

    /** `_execute_switch`, with `clock` the wall-clock time of the switch. */
    method ExecuteSwitch(leader: string, prices: map<string, real>, edgePct: Option<real>,
                         netEdgePct: Option<real>, clock: real)
      requires costModel == Cost.FromConfig(config)
      modifies this, broker
      ensures config == old(config) && scoring == old(scoring) && costModel == old(costModel)
      ensures State() == SwitchedState(old(State()), leader, prices, config, clock, edgePct, netEdgePct)
    {
      var previous := broker.holdings.asset;
      broker.SwitchAsset(leader, prices, costModel.PerTradeBps());
      lastSwitchTime := Some(clock);
      cooldownUntil := Some(clock + config.cooldownSec as real);
      switchCountDay := switchCountDay + 1;
      var equity := broker.EquityUsdt(prices);
      switches := switches + [SwitchRecord(clock, previous, leader, "SWITCH", equity, edgePct, netEdgePct)];
    }

    /** `_build_leaderboard`. */
    method BuildLeaderboard(scores: seq<ScoreRow>, currentScore: Option<real>) returns (board: seq<LeaderboardRow>)
      ensures board == Leaderboard(scores, currentScore, costModel.SwitchCostBps(),
                                   Streak(confirmCount, lastLeader), config.confirmN)
    {
      var costBps := costModel.SwitchCostBps();
      var sortedScores := SortDesc(scores, RankKey);
      board := [];
      for idx := 0 to |sortedScores|
        invariant |board| == idx
        invariant forall k :: 0 <= k < idx ==>
                    board[k] == LeaderboardRowOf(k + 1, sortedScores[k], currentScore, costBps,
                                                 Streak(confirmCount, lastLeader), config.confirmN)
      {
        var line := LeaderboardLine(idx + 1, sortedScores[idx], currentScore, costBps,
                                    Streak(confirmCount, lastLeader), config.confirmN);
        board := board + [line];
      }
    }

    /** `process_prices`: one cycle on a snapshot. `today` is the calendar
        day of the snapshot time and `clock` the wall-clock time a switch
        in this cycle is stamped with. */
    method ProcessPrices(snapshot: PriceSnapshot, today: int, clock: real) returns (d: DecisionSnapshot)
      requires Valid()
      modifies this, broker, scoring.Repr
      ensures Valid() && fresh(scoring.Repr - old(scoring.Repr))
      ensures config == old(config) && scoring == old(scoring) && costModel == old(costModel)
      ensures var same := AssetSet(config.universe) == AssetSet(old(scoring.assets));
              && scoring.assets == (if same then old(scoring.assets) else config.universe)
              && scoring.Histories
                 == UpdatedHistories(if same then old(scoring.Histories) else EmptyHistoriesOf(config.universe),
                                     scoring.assets, snapshot.prices, snapshot.fetchedAt, scoring.settings.MaxAge())
      ensures var rows := ScoreRows(scoring.assets, scoring.Histories, snapshot.fetchedAt, scoring.settings);
              (State(), d) == Cycle(old(State()), config, rows, snapshot, today, clock)
    {
      var scores := RefreshScores(snapshot);
      d := Decide(snapshot, scores, today, clock);
    }

    /** The scoring half of `process_prices`: follow the configured universe,
        record the snapshot's prices and score every asset. */
    method RefreshScores(snapshot: PriceSnapshot) returns (scores: seq<ScoreRow>)
      requires Valid()
      modifies scoring.Repr
      ensures Valid() && fresh(scoring.Repr - old(scoring.Repr))
      ensures State() == old(State())
      ensures var same := AssetSet(config.universe) == AssetSet(old(scoring.assets));
              && scoring.assets == (if same then old(scoring.assets) else config.universe)
              && scoring.Histories
                 == UpdatedHistories(if same then old(scoring.Histories) else EmptyHistoriesOf(config.universe),
                                     scoring.assets, snapshot.prices, snapshot.fetchedAt, scoring.settings.MaxAge())
      ensures scores == ScoreRows(scoring.assets, scoring.Histories, snapshot.fetchedAt, scoring.settings)
    {
      scoring.UpdateAssets(config.universe);
      assert Valid();
      scoring.UpdatePrices(snapshot.prices, snapshot.fetchedAt);
      scores := scoring.Scores(snapshot.fetchedAt);
    }

    /** The deciding half of `process_prices`: `ApplyCycle`, with the
        scoring engine and the invariant carried across it. */
    method Decide(snapshot: PriceSnapshot, scores: seq<ScoreRow>, today: int, clock: real) returns (d: DecisionSnapshot)
      requires Valid()
      modifies this, broker
      ensures Valid()
      ensures config == old(config) && scoring == old(scoring) && costModel == old(costModel)
      ensures scoring.assets == old(scoring.assets) && scoring.Histories == old(scoring.Histories)
      ensures (State(), d) == Cycle(old(State()), config, scores, snapshot, today, clock)
    {
      d := ApplyCycle(snapshot, scores, today, clock);
    }

    /** One cycle on the score rows of the snapshot: assess, then update the streak, reset the daily counter,
        switch if the gates allow it, record the equity and build the
        leaderboard. */
    method ApplyCycle(snapshot: PriceSnapshot, scores: seq<ScoreRow>, today: int, clock: real) returns (d: DecisionSnapshot)
      requires costModel == Cost.FromConfig(config)
      modifies this, broker
      ensures config == old(config) && scoring == old(scoring) && costModel == old(costModel)
      ensures (State(), d) == Cycle(old(State()), config, scores, snapshot, today, clock)
    {
      var now := snapshot.fetchedAt;
      var a := Assess(State(), config, scores, now, today);
      lastUpdate := Some(now);
      UpdateConfirmation(LeaderAsset(a.leaderRow));
      if !a.stale && a.leaderRow.Some? {
        ResetDailySwitchCount(today);
      }
      var phase := a.verdict.phase;
      var reasons := a.verdict.reasons;
      if a.verdict.next == SwitchNext && Truthy(LeaderAsset(a.leaderRow)) {
        ExecuteSwitch(a.leaderRow.value.asset, snapshot.prices, a.edgePct, a.netEdgePct, clock);
        reasons := [Switch];
        phase := Switching;
      }
      var equity := broker.EquityUsdt(snapshot.prices);
      equityCurve := equityCurve + [EquityPoint(now, broker.holdings.asset, equity)];
      var leaderboard := BuildLeaderboard(scores, a.currentScore);
      d := DecisionSnapshot(
        "PAPER", a.verdict.connection, now, broker.holdings.asset, equity, phase,
        LeaderAsset(a.leaderRow), a.edgePct, a.costBps, a.netEdgePct, (confirmCount, config.confirmN),
        a.verdict.next, reasons, leaderboard);
    }
  }
}
