/**
 * backend/balance.py: a manager's balance derived from the start budget, the
 * transfers of the offers history and, optionally, a per-day salary charge.
 */
module Balance {
  import opened PyBuiltins
  import opened Models

  /** What one transfer entry adds to the net spending of the manager called `name` (already stripped). */
  function EntryDelta(t: TransferEntry, name: string): int
  {
    if Strip(t.managerName) != name then 0
    else if t.isPurchase then t.amount
    else -t.amount
  }

  /** Purchases minus sales of the manager called `name` (already stripped) over `ts`. */
  function Spending(ts: seq<TransferEntry>, name: string): int
  {
    if ts == [] then 0 else Spending(ts[..|ts| - 1], name) + EntryDelta(ts[|ts| - 1], name)
  }

  /** `net_transfer_spending(transfers, manager_name)` */
  method NetTransferSpending(transfers: seq<TransferEntry>, managerName: string) returns (total: int)
    ensures total == Spending(transfers, Strip(managerName))
  {
    total := 0;
    var name := Strip(managerName);
    var i := 0;
    while i < |transfers|
      invariant 0 <= i <= |transfers|
      invariant total == Spending(transfers[..i], name)
    {
      var t := transfers[i];
      assert transfers[..i + 1][..i] == transfers[..i];
      if Strip(t.managerName) != name {
        i := i + 1;
        continue;
      }
      if t.isPurchase {
        total := total + t.amount;
      } else {
        total := total - t.amount;
      }
      i := i + 1;
    }
    assert transfers[..i] == transfers;
  }

  /** Net spending over two lists is the sum of the net spendings. */
  lemma {:induction false} SpendingAppend(a: seq<TransferEntry>, b: seq<TransferEntry>, name: string)
    ensures Spending(a + b, name) == Spending(a, name) + Spending(b, name)
  {
    if b != [] {
      var ab := a + b;
      assert ab[..|ab| - 1] == a + b[..|b| - 1];
      assert ab[|ab| - 1] == b[|b| - 1];
      SpendingAppend(a, b[..|b| - 1], name);
    } else {
      assert a + b == a;
    }
  }

  /** The entries of the manager called `name`, in their order. */
  function EntriesOf(ts: seq<TransferEntry>, name: string): (r: seq<TransferEntry>)
    ensures |r| <= |ts|
    ensures forall k :: 0 <= k < |r| ==> Strip(r[k].managerName) == name
  {
    if ts == [] then []
    else EntriesOf(ts[..|ts| - 1], name) + (if Strip(ts[|ts| - 1].managerName) == name then [ts[|ts| - 1]] else [])
  }

  /** Entries of other managers do not change the net spending. */
  lemma {:induction false} SpendingOnlyOwnEntries(ts: seq<TransferEntry>, name: string)
    ensures Spending(ts, name) == Spending(EntriesOf(ts, name), name)
  {
    if ts != [] {
      var init := ts[..|ts| - 1];
      var last := ts[|ts| - 1];
      SpendingOnlyOwnEntries(init, name);
      var tail := if Strip(last.managerName) == name then [last] else [];
      SpendingAppend(EntriesOf(init, name), tail, name);
      if tail != [] {
        assert tail[..0] == [];
      }
    }
  }

  /** The order of the transfers does not matter. */
  lemma {:induction false} SpendingPermutation(a: seq<TransferEntry>, b: seq<TransferEntry>, name: string)
    requires multiset(a) == multiset(b)
    ensures Spending(a, name) == Spending(b, name)
    decreases |a|
  {
    if a == [] {
      assert |b| == |multiset(b)| == 0;
    } else {
      var x := a[|a| - 1];
      assert a == a[..|a| - 1] + [x];
      assert x in multiset(b);
      var j :| 0 <= j < |b| && b[j] == x;
      MultisetRemoveLast(a, b, j);
      SpendingPermutation(a[..|a| - 1], b[..j] + b[j + 1..], name);
      SpendingRemove(b, j, name);
    }
  }

  lemma SpendingRemove(b: seq<TransferEntry>, j: nat, name: string)
    requires j < |b|
    ensures Spending(b, name) == Spending(b[..j] + b[j + 1..], name) + EntryDelta(b[j], name)
  {
    assert b == b[..j] + [b[j]] + b[j + 1..];
    SpendingAppend(b[..j] + [b[j]], b[j + 1..], name);
    SpendingAppend(b[..j], [b[j]], name);
    SpendingAppend(b[..j], b[j + 1..], name);
    assert [b[j]][..0] == [];
  }

  /**
   * `cumulative_salaries(manager_name, team_value_at_day, from_date, to_date)`:
   * the placeholder rule of 0.01% of the team value per day (never negative), over the days from
   * `fromDate` to `toDate` inclusive. `int(team_value * 0.0001)` truncates toward zero.
   */
  function CumulativeSalaries(teamValue: int, fromDate: int, toDate: int): (r: int)
    ensures r >= 0
    ensures toDate < fromDate ==> r == 0
    ensures teamValue < 10000 ==> r == 0
  {
    var days := toDate - fromDate + 1;
    if days <= 0 then 0
    else
      var perDay := if TruncDiv(teamValue, 10000) > 0 then TruncDiv(teamValue, 10000) else 0;
      perDay * days
  }

  /** The charge over two adjacent day ranges adds up to the charge over their union. */
  lemma SalariesSplit(teamValue: int, a: int, b: int, c: int)
    requires a <= b < c
    ensures CumulativeSalaries(teamValue, a, b) + CumulativeSalaries(teamValue, b + 1, c)
         == CumulativeSalaries(teamValue, a, c)
  {
    var perDay := if TruncDiv(teamValue, 10000) > 0 then TruncDiv(teamValue, 10000) else 0;
    assert perDay * (b - a + 1) + perDay * (c - b) == perDay * (c - a + 1);
  }

  /** One more day never lowers the accumulated charge. */
  lemma SalariesGrow(teamValue: int, fromDate: int, toDate: int)
    ensures CumulativeSalaries(teamValue, fromDate, toDate) <= CumulativeSalaries(teamValue, fromDate, toDate + 1)
  {
    if fromDate <= toDate {
      SalariesSplit(teamValue, fromDate, toDate, toDate + 1);
    }
  }

  /**
   * `derived_balance(manager, transfer_data, start_budget, salaries_enabled, season_start)`
   * with `date.today()` passed in as `today`.
   */
  function DerivedBalance(
    m: ManagerLeagueRow, transfers: seq<TransferEntry>, startBudget: int,
    salariesEnabled: bool, seasonStart: Option<int>, today: int): (r: int)
    ensures m.balanceFromApi.Some? ==> r == m.balanceFromApi.value
    ensures m.balanceFromApi.None? && (!salariesEnabled || seasonStart.None? || today <= seasonStart.value)
      ==> r == startBudget - Spending(transfers, Strip(m.name))
    ensures m.balanceFromApi.None? ==> r <= startBudget - Spending(transfers, Strip(m.name))
  {
    if m.balanceFromApi.Some? then m.balanceFromApi.value
    else
      var balance := startBudget - Spending(transfers, Strip(m.name));
      if salariesEnabled && seasonStart.Some? && today > seasonStart.value then
        balance - CumulativeSalaries(m.teamValue, seasonStart.value, today)
      else balance
  }

  /** With salaries on, every elapsed day of the season charges the per-day salary. */
  lemma DerivedBalanceCharges(
    m: ManagerLeagueRow, transfers: seq<TransferEntry>, startBudget: int, seasonStart: int, today: int)
    requires m.balanceFromApi.None? && today > seasonStart
    ensures DerivedBalance(m, transfers, startBudget, true, Some(seasonStart), today)
         == startBudget - Spending(transfers, Strip(m.name))
            - (today - seasonStart + 1) * (if m.teamValue >= 10000 then m.teamValue / 10000 else 0)
  {
  }

  /** `available_purchasing_power(balance, team_value)`: the highest bid a manager can place. */
  function AvailablePurchasingPower(balance: int, teamValue: int): (r: int)
    ensures r - teamValue == balance
  {
    balance + teamValue
  }

  /** `is_in_minus(balance)` */
  predicate IsInMinus(balance: int)
  {
    balance < 0
  }

  /** A manager in the minus can still bid as long as the team value covers the debt. */
  lemma PurchasingPowerInMinus(balance: int, teamValue: int)
    ensures AvailablePurchasingPower(balance, teamValue) >= 0 <==> !IsInMinus(balance + teamValue)
    ensures !IsInMinus(balance) && teamValue >= 0 ==> AvailablePurchasingPower(balance, teamValue) >= teamValue
  {
  }
}
