/**
 * backend/main.py: the per-manager league overview built from what `fetch_all`
 * returns, and the time-to-live reuse of the last overview in `get_league`.
 * The clock (`time.monotonic()`, `date.today()`) and the result of `fetch_all`
 * are parameters.
 */
module MainApp {
  import opened PyBuiltins
  import opened Models
  import Config
  import Balance
  import Scraper

  /** The environment settings the overview reads (backend/config.py). */
  datatype Settings = Settings(
    startBudget: int,
    salariesEnabled: bool,
    seasonStart: Option<int>,
    payoutWithSalaries: int,
    payoutWithoutSalaries: int,
    cacheTtlSeconds: int)

  /** The settings of an environment that sets none of them. */
  const DefaultSettings: Settings := Settings(
    Config.DEFAULT_START_BUDGET, false, None,
    Config.DEFAULT_POINTS_PAYOUT_WITH_SALARIES, Config.DEFAULT_POINTS_PAYOUT_WITHOUT_SALARIES,
    Config.DEFAULT_CACHE_TTL_SECONDS)

  /** The part of the result of `fetch_all` the overview uses. */
  datatype Fetched = Fetched(
    managers: seq<ManagerLeagueRow>,
    transfers: seq<TransferEntry>,
    lastActionById: map<int, Instant>,
    balanceByUserId: map<int, int>,
    meta: LeagueMeta,
    playerCountByUserId: map<int, int>)

  /** The payout per league point: the with-salaries value iff the league has salaries. */
  function PointsPayout(meta: LeagueMeta, s: Settings): int
  {
    if meta.salariesEnabled then s.payoutWithSalaries else s.payoutWithoutSalaries
  }

  /** The balance before the points payout: the fetched balance for the user's id, else the derived one. */
  function BaseBalance(m: ManagerLeagueRow, f: Fetched, s: Settings, today: int): int
  {
    if m.userId.Some? && m.userId.value in f.balanceByUserId then f.balanceByUserId[m.userId.value]
    else Balance.DerivedBalance(m, f.transfers, s.startBudget, s.salariesEnabled, s.seasonStart, today)
  }

  /** Whether the manager is the logged-in user, whose balance is the statement and earns no payout. */
  predicate IsStatementUser(m: ManagerLeagueRow, meta: LeagueMeta)
  {
    meta.statementUserId.Some? && m.userId == Some(meta.statementUserId.value)
  }

  function ShownBalance(m: ManagerLeagueRow, f: Fetched, s: Settings, today: int): int
  {
    var b := BaseBalance(m, f, s, today);
    if IsStatementUser(m, f.meta) then b else b + m.points * PointsPayout(f.meta, s)
  }

  /** The credit line before debt: a quarter of the team value for "dynamic", else `int(creditfactor)`. */
  function BaseCredit(creditFactor: Json, teamValue: int): Option<int>
  {
    if creditFactor == JStr("dynamic") then Some(teamValue / 4)
    else if creditFactor == JNull then None
    else match PyInt(creditFactor) case Ok(v) => Some(v) case Raise(_) => None
  }

  /** `max_minus_allowed`: how far into the minus the manager may still go. */
  function MaxMinus(meta: LeagueMeta, teamValue: int, balance: int): Option<int>
  {
    if meta.creditFactorDisabled then Some(0)
    else match BaseCredit(meta.creditFactor, teamValue)
      case None => None
      case Some(base) => Some(base + (if balance < 0 then balance else 0))
  }

  /** `player_count * 500 + int(team_value * 0.001)` when a player count is known. */
  function SalaryToday(count: Option<int>, teamValue: int): Option<int>
  {
    if count.Some? then Some(count.value * 500 + TruncDiv(teamValue, 1000)) else None
  }

  /** The manager's last activity: the last login by id, else the last transfer day by name at midnight. */
  function LastActivity(m: ManagerLeagueRow, f: Fetched, lastDates: map<string, int>): Option<Instant>
  {
    if m.userId.Some? then (if m.userId.value in f.lastActionById then Some(f.lastActionById[m.userId.value]) else None)
    else if m.name in lastDates then Some(Instant(lastDates[m.name], 0))
    else None
  }

  /** One row of the overview. */
  function ManagerRow(m: ManagerLeagueRow, f: Fetched, lastDates: map<string, int>, s: Settings, today: int): (r: ManagerOverview)
    ensures r.name == m.name && r.userId == m.userId && r.points == m.points && r.teamValue == m.teamValue
    ensures r.inMinus <==> r.balance < 0
  {
    var balance := ShownBalance(m, f, s, today);
    var count := if m.userId.Some? && m.userId.value in f.playerCountByUserId then Some(f.playerCountByUserId[m.userId.value]) else None;
    ManagerOverview(
      m.name, m.userId, m.points, m.teamValue, balance,
      LastActivity(m, f, lastDates),
      Balance.IsInMinus(balance),
      MaxMinus(f.meta, m.teamValue, balance),
      SalaryToday(count, m.teamValue),
      count)
  }

  /** `_build_league_overview`: one row per manager, in the order of the standings. */
  method BuildLeagueOverview(f: Fetched, s: Settings, today: int) returns (result: seq<ManagerOverview>, meta: LeagueMeta)
    ensures meta == f.meta
    ensures |result| == |f.managers|
    ensures forall k :: 0 <= k < |result| ==>
      result[k] == ManagerRow(f.managers[k], f, Scraper.LastDates(f.transfers), s, today)
  {
    var lastDates := Scraper.LastTransferDates(f.transfers);
    result := [];
    var i := 0;
    while i < |f.managers|
      invariant 0 <= i <= |f.managers|
      invariant |result| == i
      invariant forall k :: 0 <= k < i ==> result[k] == ManagerRow(f.managers[k], f, lastDates, s, today)
    {
      result := result + [ManagerRow(f.managers[i], f, lastDates, s, today)];
      i := i + 1;
    }
    meta := f.meta;
  }

  /**
   * The balance precedence: a fetched balance for the manager's id wins over the derived one, and
   * every manager but the statement user gets points times the payout on top.
   */
  lemma ShownBalanceCases(m: ManagerLeagueRow, f: Fetched, s: Settings, today: int)
    ensures var payout := if IsStatementUser(m, f.meta) then 0 else m.points * PointsPayout(f.meta, s);
      && (m.userId.Some? && m.userId.value in f.balanceByUserId ==>
            ShownBalance(m, f, s, today) == f.balanceByUserId[m.userId.value] + payout)
      && (m.userId.None? || m.userId.value !in f.balanceByUserId ==>
            ShownBalance(m, f, s, today) ==
              Balance.DerivedBalance(m, f.transfers, s.startBudget, s.salariesEnabled, s.seasonStart, today) + payout)
    ensures f.meta.salariesEnabled && !IsStatementUser(m, f.meta) ==>
      ShownBalance(m, f, s, today) == BaseBalance(m, f, s, today) + m.points * s.payoutWithSalaries
  {
  }

  /**
   * The logged-in user's row shows the budget read from the API, unchanged: `fetch_all` stores it
   * under the user's id and marks the user as the statement user, so no payout is added.
   */
  lemma StatementUserShowsBudget(
    f: Fetched, balance: map<int, int>, meta: LeagueMeta, uid: int, budget: int,
    m: ManagerLeagueRow, s: Settings, today: int)
    requires (f.balanceByUserId, f.meta) == Scraper.ApplyLoggedInBudget(balance, meta, Some((uid, budget)))
    requires m.userId == Some(uid)
    ensures ShownBalance(m, f, s, today) == budget
  {
  }

  /** Disabled credit allows nothing; otherwise the credit line shrinks by exactly the debt. */
  lemma MaxMinusCases(meta: LeagueMeta, teamValue: int, balance: int)
    ensures meta.creditFactorDisabled ==> MaxMinus(meta, teamValue, balance) == Some(0)
    ensures !meta.creditFactorDisabled && BaseCredit(meta.creditFactor, teamValue).None? ==> MaxMinus(meta, teamValue, balance) == None
    ensures !meta.creditFactorDisabled && BaseCredit(meta.creditFactor, teamValue).Some? ==>
      var base := BaseCredit(meta.creditFactor, teamValue).value;
      MaxMinus(meta, teamValue, balance) == Some(if balance < 0 then base + balance else base)
  {
  }

  /** "dynamic" is the floor of a quarter of the team value, as `//` rounds toward minus infinity. */
  lemma DynamicCreditIsFloorQuarter(teamValue: int)
    ensures var q := BaseCredit(JStr("dynamic"), teamValue).value;
      4 * q <= teamValue < 4 * q + 4
  {
  }

  /** A numeric credit factor is used as it is; a text is read by `int()`, and unreadable text gives no limit. */
  lemma CreditFactorValues(f: int, text: string, teamValue: int)
    requires text != "dynamic"
    ensures BaseCredit(JInt(f), teamValue) == Some(f)
    ensures BaseCredit(JStr(text), teamValue) == IntFromText(text)
    ensures BaseCredit(JList([]), teamValue) == None
  {
  }

  /** With a known player count, the salary of today is 500 per player plus 0.1% of the team value. */
  lemma SalaryTodayFormula(count: int, teamValue: int)
    requires teamValue >= 0
    ensures SalaryToday(Some(count), teamValue) == Some(500 * count + teamValue / 1000)
    ensures SalaryToday(None, teamValue) == None
  {
  }

  /** A manager with an id is looked up by id only, in the members' last logins; one without an id by the transfer name. */
  lemma LastActivitySources(m: ManagerLeagueRow, f: Fetched, lastDates: map<string, int>)
    ensures m.userId.Some? ==>
      (LastActivity(m, f, lastDates).Some? <==> m.userId.value in f.lastActionById)
    ensures m.userId.Some? && m.userId.value in f.lastActionById ==>
      LastActivity(m, f, lastDates) == Some(f.lastActionById[m.userId.value])
    ensures m.userId.None? && m.name in lastDates ==>
      LastActivity(m, f, lastDates) == Some(Instant(lastDates[m.name], 0))
    ensures m.userId.None? && m.name !in lastDates ==> LastActivity(m, f, lastDates) == None
  {
  }

  // ---------------------------------------------------------------------------
  // get_league

  /** What `GET /api/league` answers. */
  datatype Response = Served(managers: seq<ManagerOverview>, meta: LeagueMeta) | HttpError(status: int)

  /** The status an exception of `_build_league_overview` is answered with. */
  function StatusFor(e: Exception): (status: int)
    ensures e == ValueError <==> status == 400
    ensures e == RuntimeError <==> status == 502
    ensures status in {400, 500, 502}
  {
    match e
    case ValueError => 400
    case RuntimeError => 502
    case _ => 500
  }

  /** The module state `_cached`, `_cached_meta` and `_cache_time` of backend/main.py. */
  class LeagueCache {
    var cached: Option<seq<ManagerOverview>>
    var cachedMeta: Option<LeagueMeta>
    var cacheTime: real

    constructor ()
      ensures cached == None && cachedMeta == None && cacheTime == 0.0
    {
      cached := None;
      cachedMeta := None;
      cacheTime := 0.0;
    }

    /** Whether the last overview may be served at clock reading `now`. */
    predicate Reusable(now: real, ttl: int)
      reads this
    {
      cached.Some? && cachedMeta.Some? && now - cacheTime < ttl as real
    }

    /**
     * `get_league()` at clock reading `now`. `fetched` is what `fetch_all` would return, or the
     * exception it raises; it is only used when the last overview is too old.
     */
    method GetLeague(now: real, fetched: Result<Fetched>, s: Settings, today: int) returns (resp: Response)
      modifies this
      ensures old(Reusable(now, s.cacheTtlSeconds)) ==>
        resp == Served(old(cached).value, old(cachedMeta).value) && unchanged(this)
      ensures !old(Reusable(now, s.cacheTtlSeconds)) && fetched.Raise? ==>
        resp == HttpError(StatusFor(fetched.error)) && unchanged(this)
      ensures !old(Reusable(now, s.cacheTtlSeconds)) && fetched.Ok? ==>
        && cached.Some? && cachedMeta == Some(fetched.value.meta) && cacheTime == now
        && |cached.value| == |fetched.value.managers|
        && (forall k :: 0 <= k < |cached.value| ==>
              cached.value[k] == ManagerRow(fetched.value.managers[k], fetched.value, Scraper.LastDates(fetched.value.transfers), s, today))
        && resp == Served(cached.value, cachedMeta.value)
      ensures s.cacheTtlSeconds > 0 && resp.Served? ==> Reusable(now, s.cacheTtlSeconds)
    {
      if Reusable(now, s.cacheTtlSeconds) {
        return Served(cached.value, cachedMeta.value);
      }
      if fetched.Raise? {
        return HttpError(StatusFor(fetched.error));
      }
      var managers, meta := BuildLeagueOverview(fetched.value, s, today);
      cached := Some(managers);
      cachedMeta := Some(meta);
      cacheTime := now;
      resp := Served(managers, meta);
    }
  }
}
