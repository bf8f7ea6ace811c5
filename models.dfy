/**
 * Records shared by the engine: timestamps, the pydantic rows of
 * backend/models.py, transfer events and the per-league settings.
 */
module Models {
  import opened PyBuiltins

  /** Seconds since midnight of a naive local (Berlin) timestamp. */
  type SecondOfDay = s: int | 0 <= s < 86400

  /** A naive local timestamp: the day number of its date and the second within that day. */
  datatype Instant = Instant(day: int, sec: SecondOfDay)

  /** Position of an instant on one time line: `Rank(a) < Rank(b)` iff `a` is earlier than `b`. */
  function Rank(t: Instant): int
  {
    t.day * 86400 + t.sec
  }

  /** `dt.hour` */
  function Hour(t: Instant): int
  {
    t.sec / 3600
  }

  /** Earlier day means earlier instant, whatever the time of day. */
  lemma RankOrdersDays(a: Instant, b: Instant)
    ensures a.day < b.day ==> Rank(a) < Rank(b)
    ensures Rank(a) <= Rank(b) ==> a.day <= b.day
    ensures a.day == b.day ==> (Rank(a) <= Rank(b) <==> a.sec <= b.sec)
  {
  }

  /** The account of the computer opponent: it neither pays salary nor counts as a manager. */
  const COMPUTER_USER_ID: int := 1

  /** `(transfer_datetime, from_user_id, to_user_id, tradable_id)` */
  datatype TransferEvent = TransferEvent(time: Instant, fromUser: int, toUser: int, tradable: int)

  /** A roster per user: `squads[user_id] = set(tradable_id)`. */
  type Squads = map<int, set<int>>

  /** One side of a transfer from the offers history (TransferEntry). */
  datatype TransferEntry = TransferEntry(managerName: string, transferDate: int, amount: int, isPurchase: bool)

  /** One manager as parsed from the standings (ManagerLeagueRow). */
  datatype ManagerLeagueRow = ManagerLeagueRow(
    name: string,
    points: int,
    teamValue: int,
    balanceFromApi: Option<int>,
    userId: Option<int>)

  /** The `league_meta` dictionary: community rules plus the logged-in user whose balance is a statement. */
  datatype LeagueMeta = LeagueMeta(
    salariesEnabled: bool,
    creditFactor: Json,
    creditFactorDisabled: bool,
    statementUserId: Option<int>)

  /** One manager as shown by the API (ManagerOverview), without the transfer-market listing. */
  datatype ManagerOverview = ManagerOverview(
    name: string,
    userId: Option<int>,
    points: int,
    teamValue: int,
    balance: int,
    lastActivity: Option<Instant>,
    inMinus: bool,
    maxMinusAllowed: Option<int>,
    salaryToday: Option<int>,
    playerCount: Option<int>)

  /** Python's `int(x)` for a float `x` that is an exact product: truncation toward zero. */
  function TruncDiv(a: int, b: int): (q: int)
    requires b > 0
    ensures a >= 0 ==> q == a / b
    ensures a < 0 ==> q == -((-a) / b)
  {
    if a >= 0 then a / b else -((-a) / b)
  }
}
