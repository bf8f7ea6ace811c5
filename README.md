# Comunio intelligence tool: roster replay, salary ledger and balance rules

The backend of this tool looks at a Comunio fantasy-football league. It works out, for every
manager:

- the squad the manager held on any day;
- the salaries the league has charged for those squads;
- the balance the manager has left;
- the credit the manager may still draw.

The backend reads the league's news feed, its offers history and its rules from the Comunio API.
It then folds those records into one overview row per manager.

This project models the deterministic core of that backend in Dafny and proves what the code
promises about it. Time, the file system, the network and the quote-history service become
parameters. The modules follow the source files:

| module | file | flavour |
|---|---|---|
| `PyBuiltins` | the Python built-ins the core leans on: `int()`, `str.strip`, `str.lower`, truthiness, `or` on values, decoded JSON | functions and lemmas |
| `Models` | `backend/models.py`: transfer events, transfer entries, league rows, overview rows; timestamps as `Instant(day, second)` | datatypes |
| `Config` | `backend/config.py`: settlement day, effective today, `_env`, `_bool_env`, `DEFAULT_LANGUAGE`, the default constants | functions and lemmas |
| `HistoricalSquads` | `backend/historical_squads.py`: seed loading, replay forward and backward, the date range | methods with loops, proved against functions |
| `SalaryFromSquads` | `backend/salary_from_squads.py`: the quote cache (a class), the salary ledger, today's salary and player count | a class, methods with loops, lemmas |
| `Balance` | `backend/balance.py`: net spending, the salary stub, the derived balance | a loop method plus functions |
| `ComunioApi` | `backend/comunio_api.py`: budget and rule parsing, the salary amount in a news title, the per-item balance deltas, the per-item transfer events | functions, and loop methods over the items |
| `Scraper` | `backend/scraper.py`: `_parse_int`, the news-cache check, offers-history entries, last transfer dates, the balance fold, the logged-in user's budget | functions, and loop methods over maps |
| `MainApp` | `backend/main.py`: the per-manager overview row, and the time-to-live cache of `get_league` (a class) | functions, a loop method, a class |

Representation choices:

- Users, tradables and day numbers are `int`.
- A squad map is `map<int, set<int>>`.
- The quote cache is `map<int, map<int, int>>`: tradable, then day, then price.
- A Python exception that the code lets escape is the `Raise` case of a `Result`.
- Python's stable `sort` is an insertion sort. Its result is proved sorted, a permutation of its input, and stable: events with equal timestamps keep their input order.
- Python's maps iterate in insertion order. Where the result does not depend on that order (the salary ledger, the balance fold), the loops pick keys in any order and the model proves the result is the same.

## Model

| member | source | states |
|---|---|---|
| PyBuiltins.PyInt | backend/historical_squads.py:68 | `int(p)` on a decoded value: an int (or bool) is itself, a float truncates, text goes through `int(str)`, a value of any other type raises TypeError |
| PyBuiltins.IntTextRoundTrip | backend/historical_squads.py:62 | `int()` reads back the decimal text of every integer |
| PyBuiltins.IntFromSignedDigits | backend/historical_squads.py:62 | `int()` of a run of digits with an optional leading minus is that signed decimal value |
| PyBuiltins.IntFromDigitsAndMinus | backend/scraper.py:157-163 | on text made only of digits and `-`, `int()` succeeds exactly when the text is one optional `-` followed by digits |
| PyBuiltins.StripEnds | backend/balance.py:17-19 | the result of `strip()` neither starts nor ends with white space |
| PyBuiltins.StripNoSpace | backend/balance.py:17-19 | `strip()` leaves unchanged text with no white space at either end |
| PyBuiltins.StripRemovesOnlySpace | backend/balance.py:17-19 | `strip()` is a slice of its input, and everything it removes is white space |
| PyBuiltins.Or | backend/comunio_api.py:208 | `a or b` is truthy iff either operand is, and is `a` when `a` is truthy |
| PyBuiltins.Lower | backend/config.py:27 | `lower()` keeps the length and lowers each character in place |
| PyBuiltins.KeepDigitsAndMinus | backend/scraper.py:157 | the filter keeps only digits and `-`, and never lengthens its input |
| PyBuiltins.DecimalRoundTrip | backend/historical_squads.py:62 | the decimal spelling of a natural number reads back as that number |
| Models.TruncDiv | backend/salary_from_squads.py:185 | `int(x * f)` with `f = 1/b` truncates toward zero: floor division for non-negative `x`, the negated floor of `-x` otherwise |
| Models.RankOrdersDays | backend/historical_squads.py:102 | ordering timestamps orders their days, and within one day it orders their seconds |
| Config.TransferSettlementDate | backend/config.py:80-84 | the settlement day is the timestamp's day or the day before, and it is the day before exactly when the hour is below the cut-off |
| Config.SettlementMonotone | backend/config.py:82-84 | a later timestamp never settles on an earlier day |
| Config.EffectiveTodayIsSettlementDate | backend/config.py:87-92 | `effective_today` at `now` equals the settlement day of `now` |
| Config.UnquotePair | backend/config.py:14-15 | one enclosing pair of double quotes is removed |
| Config.StripQuoted | backend/config.py:13-14 | a value that starts and ends with a quote has no white space to strip |
| Config.EnvUnquotes | backend/config.py:12-16 | a set variable written in double quotes reads as its content |
| Config.EnvWithoutQuotes | backend/config.py:12-16 | a stripped value without an enclosing pair of quotes is returned stripped and otherwise unchanged |
| Config.EnvPlain | backend/config.py:12-16 | a value with no outer white space and no enclosing quotes is returned as it is |
| Config.EnvRemovesOnePair | backend/config.py:14-15 | only one pair of quotes is removed, so inner quotes stay |
| Config.EnvKeepsLoneQuote | backend/config.py:14 | a single `"` is shorter than two characters and stays |
| Config.EnvUsesDefault | backend/config.py:13 | an unset variable reads as its default would |
| Config.BoolEnv | backend/config.py:26-27 | a true flag is set and is one, three or four characters long |
| Config.BoolEnvIgnoresDefault | backend/config.py:26-27 | the default argument changes nothing, and an unset variable is false |
| Config.BoolEnvSpellings | backend/config.py:27 | `TRUE`, `Yes` and `1` are true; ` true`, `"1"` and `on` are false |
| Config.DefaultLanguage | backend/config.py:71-73 | the language is `de` or `en`, and it is `en` exactly when the lowered, unquoted value starts with `en` |
| Config.DefaultLanguageUnset | backend/config.py:71 | an unset variable gives `de` |
| Config.DefaultLanguageQuotedEnglish | backend/config.py:71-73 | `"EN_gb"` in quotes gives `en` |
| Config.DefaultLanguageOther | backend/config.py:72-73 | any other language, such as `fr`, falls back to `de` |
| HistoricalSquads.ApplyForward | backend/historical_squads.py:103-105 | after a forward event both users are keys, the tradable is in the buyer's set, not in the seller's (when they differ), and nothing else changes |
| HistoricalSquads.ApplyBackward | backend/historical_squads.py:110-112 | undoing an event puts the tradable back with the seller, takes it from the buyer, and changes nothing else |
| HistoricalSquads.MoveIsApplyForward | backend/historical_squads.py:104-105 | the `setdefault(...).discard` then `setdefault(...).add` updates compute the forward step |
| HistoricalSquads.MoveIsApplyBackward | backend/historical_squads.py:111-112 | the reversed updates compute the backward step |
| HistoricalSquads.ReplayKeys | backend/historical_squads.py:103-112 | a replay's keys are the seed's users plus every user named in a replayed event |
| HistoricalSquads.ForwardKeepsExclusive | backend/historical_squads.py:103-105 | when no two users share a tradable, and only the event's two users held this one, they still share none afterwards |
| HistoricalSquads.ForwardMovesSoleOwnership | backend/historical_squads.py:103-105 | a tradable the seller alone held is afterwards held by the buyer alone |
| HistoricalSquads.BackwardMovesSoleOwnership | backend/historical_squads.py:110-112 | undoing moves sole ownership from the buyer back to the seller |
| HistoricalSquads.BackwardUndoesForward | backend/historical_squads.py:103-112 | undoing a forward event restores the squads, when the seller held the tradable and the buyer did not |
| HistoricalSquads.SelectedSpec | backend/historical_squads.py:95-108 | an event is replayed iff it lies in the window for the target day, which depends on direction and cut-off |
| HistoricalSquads.SelectedAppend | backend/historical_squads.py:97-101 | the window filter distributes over concatenated event lists |
| HistoricalSquads.InsertSpec | backend/historical_squads.py:102 | inserting into a sorted list keeps it sorted and adds exactly that event |
| HistoricalSquads.SortByTimeSpec | backend/historical_squads.py:102 | the sort yields a permutation of its input, ascending (or descending for `reverse=True`) by timestamp |
| HistoricalSquads.InsertKeepsTies | backend/historical_squads.py:102 | inserting into a sorted list puts the new event behind every event with its timestamp |
| HistoricalSquads.SortByTimeStable | backend/historical_squads.py:102-109 | for every timestamp, the events that carry it appear in the sorted list in their input order, ascending and with `reverse=True` alike |
| HistoricalSquads.ReconstructSquadsAt | backend/historical_squads.py:93-113 | the loops compute the reconstruction: select the window, sort, replay forward from the seed, or backward before the seed date |
| HistoricalSquads.ReplayForwardLoop | backend/historical_squads.py:103-105 | the forward loop computes the replay of its events in order |
| HistoricalSquads.ReplayBackwardLoop | backend/historical_squads.py:110-112 | the backward loop undoes its events in order |
| HistoricalSquads.ReconstructKeys | backend/historical_squads.py:104-112 | every seed user stays a key, and every user of a replayed event becomes one |
| HistoricalSquads.ReconstructAtSeedDate | backend/historical_squads.py:94-105 | reconstructing at the seed date returns the seed, with or without a cut-off |
| HistoricalSquads.ReconstructIgnoresOutsideWindow | backend/historical_squads.py:95-108 | adding events outside the window changes nothing |
| HistoricalSquads.BackwardIgnoresCutoff | backend/historical_squads.py:106-112 | before the seed date the cut-off makes no difference |
| HistoricalSquads.SelectedIgnoresCutoff | backend/historical_squads.py:106-108 | the backward window does not read the cut-off |
| HistoricalSquads.BackwardKeepsExclusive | backend/historical_squads.py:110-112 | when only the event's two users hold its tradable, undoing the event leaves no tradable shared by two users |
| HistoricalSquads.ReplayCons | backend/historical_squads.py:103-112 | a replay in either direction is its first event followed by the replay of the rest |
| HistoricalSquads.ReplayKeepsExclusive | backend/historical_squads.py:103-112 | a whole replay, forward or backward, keeps squads that share no tradable sharing none, when each event finds its tradable with its own two users only |
| HistoricalSquads.ReconstructKeepsExclusive | backend/historical_squads.py:93-113 | the reconstruction at any date, in either direction, keeps ownership exclusive on such a log |
| HistoricalSquads.ReversedSorted | backend/historical_squads.py:102-109 | an event list sorted one way and read backwards is sorted the other way |
| HistoricalSquads.SortedUnique | backend/historical_squads.py:102-109 | when no two events share a timestamp, two sorted lists of the same events are equal |
| HistoricalSquads.ReplayRoundTrip | backend/historical_squads.py:103-112 | replaying a consistent log forward and then its reverse backward restores the squads, where consistent means each seller holds the tradable and each buyer is another known user who does not |
| HistoricalSquads.SelectedSwap | backend/historical_squads.py:97-108 | without a cut-off, the backward window from `b` to `a` selects the same events as the forward window from `a` to `b` |
| HistoricalSquads.ReconstructRoundTrip | backend/historical_squads.py:93-113 | reconstructing forward from the seed date and then back to it returns the seed, when no two events of the window share a timestamp and the log is consistent with the seed |
| HistoricalSquads.ForwardUndoesBackward | backend/historical_squads.py:103-112 | re-applying an undone event restores the squads, when the buyer held the tradable and the seller did not |
| HistoricalSquads.ReplayBackRoundTrip | backend/historical_squads.py:103-112 | replaying a log backward and then its reverse forward restores the squads, when each event's buyer holds the tradable and its seller is another known user who does not |
| HistoricalSquads.ReconstructBackRoundTrip | backend/historical_squads.py:93-113 | reconstructing back from the seed date to an earlier target and then forward to the seed date returns the seed, when no two events of the window share a timestamp and the log is consistent with the seed |
| HistoricalSquads.TiedEventsBreakRoundTrip | backend/historical_squads.py:102-112 | with two consistent events in the same second, the round trip does not return the seed: the reversed sort is stable, so the tied events are undone in the order they were applied |
| HistoricalSquads.ReconstructForDateRange | backend/historical_squads.py:124-129 | exactly one key per day from `date_from` to `date_to` inclusive, none when `date_from > date_to`, each the end-of-day reconstruction |
| HistoricalSquads.PlayersOf | backend/historical_squads.py:66-70 | a falsy player list gives no players; iterating a truthy bool, int or float raises TypeError |
| HistoricalSquads.SeedAdd | backend/historical_squads.py:58-70 | one item adds its user id as a key when the key is accepted, and nothing otherwise |
| HistoricalSquads.SeedEntries | backend/historical_squads.py:58-70 | the loaded users are exactly the accepted keys |
| HistoricalSquads.SeedUserHasKey | backend/historical_squads.py:59-65 | every loaded user comes from a key that is not `seed_date`, does not start with `_`, and reads as that int |
| HistoricalSquads.KeyGivesSeedUser | backend/historical_squads.py:59-65 | every accepted key gives a loaded user |
| HistoricalSquads.LoadSeedSquads | backend/historical_squads.py:55-71 | the loader returns no squads when the file names `users` or `squads`, and otherwise the squads of its items |
| HistoricalSquads.LoadSeedEntries | backend/historical_squads.py:58-70 | the loop over the items computes their squads, or raises with the first list that cannot be iterated |
| HistoricalSquads.LoadSeedItem | backend/historical_squads.py:59-70 | one turn of the loop skips `seed_date`, `_` keys and non-integer keys, and otherwise reads the player list |
| HistoricalSquads.SeedEntriesStaysRaised | backend/historical_squads.py:66 | once an entry raises, the whole load raises with it |
| HistoricalSquads.SeedEntryForLastKey | backend/historical_squads.py:65-70 | an accepted key sets its user's squad to the ints its list converts to, overwriting an earlier key for the same id |
| HistoricalSquads.SeedSkipsKey | backend/historical_squads.py:59-64 | a skipped key changes nothing |
| SalaryFromSquads.DailySalary | backend/salary_from_squads.py:185 | a player with a non-negative market value costs `500 + mv / 1000`, and so at least 500 |
| SalaryFromSquads.MergeSpec | backend/salary_from_squads.py:97-100 | storing a history adds its days, each with the price of its last pair for that day, and keeps the other days |
| SalaryFromSquads.LastPriceOfLastPair | backend/salary_from_squads.py:99-100 | a later pair for the same day overwrites an earlier one |
| SalaryFromSquads.MergeIdempotent | backend/salary_from_squads.py:99-100 | storing the same history twice changes nothing more |
| SalaryFromSquads.DatesAreFetched | backend/salary_from_squads.py:99-100 | every stored day comes from a fetched pair |
| SalaryFromSquads.Latest | backend/salary_from_squads.py:84-93 | `best_date` is a cached day on or before `d`, and no cached day on or before `d` is later |
| SalaryFromSquads.LatestOnOrBefore | backend/salary_from_squads.py:84-91 | the scan finds a day iff one on or before `d` is cached, and then finds the latest |
| SalaryFromSquads.CachedValue | backend/salary_from_squads.py:80-93 | the cache answers iff it has `d` or an earlier day, with the exact price when `d` is cached, else the price of the latest earlier day |
| SalaryFromSquads.ExactHit | backend/salary_from_squads.py:80-82 | an exact hit returns the cached price and leaves the cache as it was |
| SalaryFromSquads.NearestPastHit | backend/salary_from_squads.py:84-93 | without an exact hit, the latest cached day before `d` answers, with no fetch and no change |
| SalaryFromSquads.FetchStores | backend/salary_from_squads.py:96-100 | after a fetch the tradable is a key even for an empty history, every fetched day is stored, and other tradables keep their entries |
| SalaryFromSquads.ZeroWhenNoPastDay | backend/salary_from_squads.py:101-114 | with nothing cached or fetched on or before `d`, the value is 0 |
| SalaryFromSquads.QueryStable | backend/salary_from_squads.py:72-114 | asking again for the same tradable and day gives the same answer and changes nothing |
| SalaryFromSquads.QuoteCache.constructor | backend/salary_from_squads.py:144-147 | the cache starts from the entries it is given |
| SalaryFromSquads.QuoteCache.ValueForDate | backend/salary_from_squads.py:72-114 | the lookup returns the answer on the old cache and leaves the cache resolved for that tradable |
| SalaryFromSquads.QuoteCache.StoreHistory | backend/salary_from_squads.py:97-100 | the fetched pairs are merged into the tradable's entry, which is created when missing |
| SalaryFromSquads.DayStep | backend/salary_from_squads.py:179-186 | within one day, each lookup answers as it would on the day's first cache, and resolves one more entry |
| SalaryFromSquads.SquadSalaryRemove | backend/salary_from_squads.py:182-185 | a squad's salary is any one player's salary plus the rest's, so the order of the players does not matter |
| SalaryFromSquads.SquadSalaryAtLeastBase | backend/salary_from_squads.py:182-185 | with non-negative market values a squad costs at least 500 per player |
| SalaryFromSquads.SquadSalaryMonotone | backend/salary_from_squads.py:182-185 | with non-negative market values, a squad containing another costs at least as much, plus 500 for each extra player |
| SalaryFromSquads.ChargePlayer | backend/salary_from_squads.py:184-185 | one player costs the daily salary of the day's answer, and the cache gains that lookup |
| SalaryFromSquads.ChargeSquad | backend/salary_from_squads.py:182-185 | the loop over one squad sums its players' salaries |
| SalaryFromSquads.ChargeSquads | backend/salary_from_squads.py:179-186 | one day charges every user but the computer their squad's salary, and resolves every tradable of those squads |
| SalaryFromSquads.MinDay | backend/salary_from_squads.py:174 | the next debit day is the earliest one left |
| SalaryFromSquads.ComputeSalaries | backend/salary_from_squads.py:139-186 | the method computes the ledger: nothing without a seed or debit days; otherwise, per debit day in ascending order, the squad at the cut-off on that day is valued on the day before |
| SalaryFromSquads.LedgerSkipsComputer | backend/salary_from_squads.py:180-181 | the computer account never has a salary |
| SalaryFromSquads.LedgerFromOneDay | backend/salary_from_squads.py:174-186 | one debit day adds that day's salaries, valued on the day before |
| SalaryFromSquads.LedgerOneDay | backend/salary_from_squads.py:174-186 | for a single debit day `d`, a user is charged iff they hold a squad at the cut-off on `d`, and pays that squad's salary at `d - 1` |
| SalaryFromSquads.LedgerFromKeys | backend/salary_from_squads.py:179-186 | a user is in the ledger iff they were before, or held a squad on some debit day and are not the computer |
| SalaryFromSquads.DaySalariesKeys | backend/salary_from_squads.py:186 | adding a day's salaries adds exactly that day's users other than the computer |
| SalaryFromSquads.LedgerKeys | backend/salary_from_squads.py:174-186 | a user other than the computer is in the ledger iff they appear in the squads of some debit day |
| SalaryFromSquads.PlayerCountToday | backend/salary_from_squads.py:226-231 | the computer is never a key |
| SalaryFromSquads.PlayerCountTodayCounts | backend/salary_from_squads.py:226-231 | every other user of the end-of-day squads is a key, counting the size of their squad |
| SalaryFromSquads.ComputeSalaryToday | backend/salary_from_squads.py:259-284 | nothing without a seed; otherwise one day's salary per user of today's end-of-day squads, valued on today itself, with the same keys as the player counts |
| Balance.NetTransferSpending | backend/balance.py:11-25 | the loop sums purchases minus sales over the entries whose stripped name is the manager's stripped name |
| Balance.SpendingAppend | backend/balance.py:16-25 | the spending of concatenated lists is the sum of their spendings |
| Balance.EntriesOf | backend/balance.py:19-20 | the kept entries are the manager's own |
| Balance.SpendingOnlyOwnEntries | backend/balance.py:17-20 | entries of other managers change nothing |
| Balance.SpendingPermutation | backend/balance.py:16-25 | spending does not depend on the order of the entries |
| Balance.CumulativeSalaries | backend/balance.py:42-46 | never negative, 0 when `to_date < from_date`, 0 below a team value of 10000 |
| Balance.SalariesSplit | backend/balance.py:42-46 | the charge over a span is the sum of the charges over two adjacent parts |
| Balance.SalariesGrow | backend/balance.py:42-46 | one more day never lowers the charge |
| Balance.DerivedBalance | backend/balance.py:59-73 | a balance from the API wins; when salaries are off, there is no season start, or today is not after it, the balance is `start - spending`; salaries only ever lower it |
| Balance.DerivedBalanceCharges | backend/balance.py:63-72 | with salaries on and today past the season start, the stub's charge per day times the days is deducted |
| Balance.AvailablePurchasingPower | backend/balance.py:76-78 | the maximal bid is balance plus team value |
| Balance.PurchasingPowerInMinus | backend/balance.py:76-82 | the bid is non-negative iff balance plus team value is not in the minus |
| ComunioApi.BudgetOf | backend/comunio_api.py:165-170 | a missing budget is None, and an int is itself |
| ComunioApi.ParseBudget | backend/comunio_api.py:160-170 | a top-level budget wins; otherwise `user.budget` is read; a non-object `user` raises AttributeError; with neither, None |
| ComunioApi.BudgetFromText | backend/comunio_api.py:169-170 | other budgets keep only digits and `-`: nothing or a lone `-` gives None, a signed number gives its value, anything else raises ValueError |
| ComunioApi.BudgetIgnoresSeparators | backend/comunio_api.py:169-170 | a budget whose digits read `d` is worth `d`, whatever separators surround them |
| ComunioApi.ParseCommunityRules | backend/comunio_api.py:193-210 | falsy details, or rules that are not an object, give the defaults; details that are not an object raise AttributeError |
| ComunioApi.RulesReadFrom | backend/comunio_api.py:204-209 | the flags are read from `rules.items` when it is an object, else from `rules`, as the salaries flag, `creditfactor or creditFactor`, and `creditFactorDisabled` defaulting to true |
| ComunioApi.SalariesFlagValues | backend/comunio_api.py:207 | `True` and `1` enable salaries; `False`, `None` and `0` do not |
| ComunioApi.ParseSalaryAmount | backend/comunio_api.py:275-284 | a salary amount read from a title is never negative |
| ComunioApi.NoEuroNoAmount | backend/comunio_api.py:277-279 | a title without `€` yields None |
| ComunioApi.AmountMatchIsAmount | backend/comunio_api.py:277 | the matched group consists only of digits, points and commas |
| ComunioApi.NormaliseDigits | backend/comunio_api.py:280 | digits pass the replacements unchanged |
| ComunioApi.NormaliseGrouped | backend/comunio_api.py:280 | a thousands point is dropped |
| ComunioApi.TruncatedFloatDigits | backend/comunio_api.py:282 | `int(float(d))` of plain digits is their decimal value |
| ComunioApi.AmountWithThousandsPoint | backend/comunio_api.py:275-284 | a title opening `a.b €` yields the number the digits of `a` and `b` read together |
| ComunioApi.SalaryTitleExample | backend/comunio_api.py:276 | `61.830 € …` yields 61830 |
| ComunioApi.DeltaFor | backend/comunio_api.py:356-364 | a missing id or the computer gets no delta; another int id gets exactly one delta of the given amount |
| ComunioApi.ItemDeltasSigns | backend/comunio_api.py:349-364 | between two managers, the buyer gets `-price` and the seller `+price`, reversed for EXCHANGES; a bad price raises |
| ComunioApi.ItemDeltasConserve | backend/comunio_api.py:355-364 | the two deltas of one item between managers sum to zero |
| ComunioApi.ItemDeltasSkipComputer | backend/comunio_api.py:355-364 | an item with only the computer or missing ids on both sides gives no delta |
| ComunioApi.ItemsOf | backend/comunio_api.py:346 | a list is iterated as it is, and a falsy value as nothing |
| ComunioApi.CollectItemDeltas | backend/comunio_api.py:346-364 | the inner loop computes the deltas of one key's items in order |
| ComunioApi.CollectTransferDeltas | backend/comunio_api.py:344-364 | the nested loops compute the deltas of a transfer message over the four keys in order |
| ComunioApi.ItemsDeltasConserve | backend/comunio_api.py:346-364 | items all between managers give deltas summing to zero |
| ComunioApi.KeysDeltasConserve | backend/comunio_api.py:345-364 | so do the items under any of the four keys |
| ComunioApi.MessageDeltasConserve | backend/comunio_api.py:343-364 | a whole transfer message between managers moves no money in or out |
| ComunioApi.SalaryEntryDeltas | backend/comunio_api.py:366-374 | a salary entry gives at most one delta, and it is negative |
| ComunioApi.TidsOf | backend/comunio_api.py:565-578 | the tradable ids come at most one per list element |
| ComunioApi.Directed | backend/comunio_api.py:594-597 | one event per tradable, all at the entry's time and in the given direction |
| ComunioApi.ItemEventsNeedBothSides | backend/comunio_api.py:559-562 | an item lacking a `from` or `to` id gives no events |
| ComunioApi.ItemEventsDirections | backend/comunio_api.py:580-614 | list A gives `from → to` events and list B `to → from`; the single-tradable fallback is used only when both lists are empty; every event is between the two ids at the entry's time |
| ComunioApi.CollectItemEvents | backend/comunio_api.py:554-614 | the inner loop computes the events of one key's items in order |
| ComunioApi.CollectTransferEvents | backend/comunio_api.py:552-614 | the nested loops compute the events of a transfer message over the four keys in order |
| Scraper.ParseInt | backend/scraper.py:153-164 | an int is returned unchanged, and any type other than int or str gives 0 |
| Scraper.ParseIntText | backend/scraper.py:156-163 | text keeps only digits and `-`, then gives their signed value, or 0 when they do not form one |
| Scraper.ParseIntEdgeCases | backend/scraper.py:157-163 | `-`, `1-2` and `€` all give 0 |
| Scraper.NewsCacheValid | backend/scraper.py:66-71 | a non-object file raises; a different URL or since-date, or no `ts`, rejects the cache |
| Scraper.NewsCacheFreshness | backend/scraper.py:66-71 | with matching URL and since-date, the cache is accepted iff `now - ts <= ttl` |
| Scraper.NewsCacheExpiresOnce | backend/scraper.py:69 | a cache accepted now was accepted at every earlier time |
| Scraper.UserName | backend/scraper.py:234-239 | text is stripped, a non-text non-object is the empty name, and every name is already stripped |
| Scraper.OffersEntryShape | backend/scraper.py:217-262 | no entries for an amount ≤ 0 or a missing date; otherwise at most a buyer entry then a seller entry, both with the amount and the date |
| Scraper.OffersEntrySpending | backend/scraper.py:241-262 | a sale between two named managers costs the buyer the amount and pays it to the seller |
| Scraper.CollectHistoryTransfers | backend/scraper.py:561-568 | the loop extends the list entry by entry, and stops at the first entry that raises |
| Scraper.CollectUntilError | backend/scraper.py:563-568 | appending results until the first raise computes `UntilError` |
| Scraper.UntilErrorAllParsed | backend/scraper.py:565-566 | when every entry parses, the list is the concatenation of their results |
| Scraper.UntilErrorStops | backend/scraper.py:563-568 | nothing after a raising entry is read |
| Scraper.ParseHistoryItem | backend/scraper.py:217 | an offers-history item that is not a dict raises AttributeError at its first `get`; a dict is parsed as an entry |
| Scraper.HistoryAllParsed | backend/scraper.py:565-566 | the offers history is the concatenation of the parsed entries |
| Scraper.HistoryStopsAtError | backend/scraper.py:563-568 | an entry that raises cuts the history off |
| Scraper.LastTransferDates | backend/scraper.py:584-591 | the loop computes the last transfer date of every manager |
| Scraper.LastDatesStep | backend/scraper.py:588-590 | each entry replaces its manager's date only when the name is not blank and the date is later or new |
| Scraper.LastDatesKeys | backend/scraper.py:588-590 | the keys are exactly the non-blank stripped names of the entries |
| Scraper.LastDatesUpper | backend/scraper.py:589-590 | no entry of a manager is later than the manager's date |
| Scraper.LastDatesAttained | backend/scraper.py:589-590 | every manager's date is the date of one of their entries |
| Scraper.AddDeltas | backend/scraper.py:442-444 | the fold gives each user the start budget plus their deltas |
| Scraper.ChargeSalaries | backend/scraper.py:435-436 | each salary total is taken off its user's balance, starting a user without deltas from the start budget |
| Scraper.BalancesWithSquads | backend/scraper.py:433-436 | with squad salaries, a user's balance is the start budget plus their transfer deltas minus their salary total |
| Scraper.BalancesFromNews | backend/scraper.py:441-444 | without squad salaries, the start budget plus the balance deltas, and nothing when there are none |
| Scraper.ClosedBalancesChar | backend/scraper.py:433-436 | the fold's result is characterised by its keys and its value for each user |
| Scraper.SumForAppend | backend/scraper.py:433-434 | a user's deltas over concatenated lists add up |
| Scraper.SumForPermutation | backend/scraper.py:433-434 | a user's sum does not depend on the order of the deltas |
| Scraper.BalancesOrderFree | backend/scraper.py:433-436 | the final balances do not depend on the order of the deltas |
| Scraper.BalanceOfUser | backend/scraper.py:433-436 | a user has a balance iff they have a delta or a salary, and it is the start budget plus their deltas minus their salary |
| Scraper.LoggedInBudget | backend/scraper.py:544-559 | the only exception that escapes is AttributeError from a non-object `user`; ValueError and TypeError are swallowed |
| Scraper.ApplyLoggedInBudget | backend/scraper.py:551-553 | a parsed budget replaces that user's balance, marks them as the statement user, and leaves every other balance alone |
| Scraper.LoggedInBudgetWins | backend/scraper.py:546-553 | an int id with a budget gives the override |
| Scraper.LoggedInBudgetSkipped | backend/scraper.py:546-559 | no id, an id of another type, a non-numeric text id, a budget that raises ValueError, or no budget gives no override |
| MainApp.ManagerRow | backend/main.py:108-121 | the row keeps the manager's name, id, points and team value, and is in the minus iff its balance is negative |
| MainApp.BuildLeagueOverview | backend/main.py:57-133 | the loop builds one row per manager, in order, and returns the league's meta unchanged |
| MainApp.ShownBalanceCases | backend/main.py:59-76 | the fetched balance for the user's id wins over the derived one; the points payout is added unless the manager is the statement user, at the with-salaries rate when salaries are on |
| MainApp.StatementUserShowsBudget | backend/main.py:74-76 | the logged-in user's row shows exactly the budget from the API |
| MainApp.MaxMinusCases | backend/main.py:77-91 | disabled credit gives 0; an unreadable factor gives None; otherwise the base credit plus the balance when that is negative |
| MainApp.DynamicCreditIsFloorQuarter | backend/main.py:81-82 | `dynamic` credit is the floor of a quarter of the team value |
| MainApp.CreditFactorValues | backend/main.py:83-87 | a numeric factor is taken as an int, a text factor through `int()`, and a list gives None |
| MainApp.SalaryTodayFormula | backend/main.py:99-103 | with a player count, `500 * count + team value / 1000`; without one, None |
| MainApp.LastActivitySources | backend/main.py:92-98 | a manager with an id takes the last login of the community member with that id, and exactly that value; one without takes the last transfer date for the name, at midnight |
| MainApp.StatusFor | backend/main.py:160-169 | ValueError gives 400, RuntimeError 502, anything else 500 |
| MainApp.LeagueCache.constructor | backend/main.py:37-39 | nothing is cached and the timestamp is 0 |
| MainApp.LeagueCache.GetLeague | backend/main.py:145-169 | the cached overview is served iff both parts exist and less than the time to live has passed; otherwise it is rebuilt, stored and timestamped, or the error maps to its status with the cache untouched |

## Left out

- HTTP login, requests, pagination, the `hasMore`/`start += limit` loops and every `get_*` network function of `backend/comunio_api.py` are not modelled. The transfer-delta and event rules are modelled per decoded news message; which entries the paging reaches is not.
- The news-entry date filter (`_parse_news_entry_date`, and skipping entries that settle before `since_date`) and `get_news_salary_active_dates_since` are not modelled. The set of debit days is a parameter of the ledger.
- The quote-history service is the function parameter `fetch`. Being a function, it returns the same history for a tradable on every call. SalaryFromSquads.QueryStable, SalaryFromSquads.DayStep and the order-independence of the ledger rely on that, and the real service need not behave that way. The decoded offers-history date is the function parameter `parseDate`, and `float(ts)` in the news-cache check is the function parameter `parseFloat`. `str()` of a list or dict in budget and rule parsing is the function parameter `repr`.
- Reading and writing the JSON caches and the seed file is not modelled: `_load_quote_cache`, `_save_quote_cache`, `_save_news_cache` and the file read in `_load_news_cache`. The seed loader starts from the items of the decoded object, in order.
- The seed date is a parameter: reading `seed_date` from the file or from the file name is not modelled.
- Timezones (`_to_naive_berlin`, `ZoneInfo`, `_last_action_by_id_from_members`) are not modelled. Timestamps are naive `Instant(day, second)` values, and microseconds are dropped.
- The wall clock (`datetime.now`, `date.today`, `time.time`, `time.monotonic`) is a parameter.
- FastAPI routing, static files, `/api/check-env`, logging, the debug player-count log and the debug squad comparison (which calls the network) are not modelled.
- `_parse_standings_entry`, `_parse_offers_by_user`, `get_community_members`, the transfer-market listing and `scripts/*.py` are not modelled. They are provider-format fallbacks or command-line wrappers around the network.
- `_int_env` and the environment-read constants are not modelled. The overview takes them as `Settings`, and the defaults are the `Config.DEFAULT_*` constants.
- `_squads_copy` needs no model: Dafny maps and sets are values, so the seed cannot be changed by a reconstruction. The "seed is never mutated" property therefore holds by construction rather than by a lemma.
- Unicode is not handled in full. `\d` and the digits `int()` accepts are ASCII only, `lower()` covers ASCII letters only, and white space is the set `str.isspace` accepts.
- Models.TruncDiv: `int(x * 0.001)` and `int(x * 0.0001)` are modelled as exact division truncated toward zero. Floating-point rounding can differ from this for very large products.
- SalaryFromSquads.DailySalary: the same exact-division caveat applies to `int(mv * SALARY_PCT)`.
- Balance.CumulativeSalaries: the same exact-division caveat applies to `int(team_value * 0.0001)`.
- MainApp.SalaryTodayFormula: the same exact-division caveat applies to `int(m.team_value * 0.001)`.
- ComunioApi.ParseSalaryAmount: `int(float(s))` is read as exact decimal arithmetic. Python rounds to the nearest binary float first, so the two differ for any text with more significant digits than a float holds. Two cases are integers beyond 2^53, and fractions with about 17 or more significant digits (`0.99999999999999999` is 1 in Python and 0 here). The OverflowError Python raises for a literal too large for a float is not modelled either. The contract states non-negativity and the worked cases, not the full regex semantics on arbitrary text.
- ComunioApi.BudgetOf: a float budget is read through its Python text. `1500000.0` therefore keeps the digits `15000000`, as the code does. The decoder supplies that text with the value.
- ComunioApi.DeltaFor: an id compares to the computer's id by Python equality. A text id `"1"` is therefore not the computer, and `int("1")` gives user 1 a delta, as the code does.
- MainApp.LastActivitySources: the last transfer dates are keyed by stripped names but looked up by the manager's unstripped name, as the code does.
- NaN and infinities have no `real` counterpart, so no decoded float in the model (`JFloat`) is NaN or infinite. Python's `json` accepts `NaN`, `Infinity` and `-Infinity`, and `int()` of them raises ValueError or OverflowError. The model misses these paths for every float it reads: a float `ts`; the price at `backend/comunio_api.py:350`; the ids at `backend/comunio_api.py:356-364` and `backend/comunio_api.py:563` and in `_tids_from_list`; the seed's player ids at `backend/historical_squads.py:68`; and `int(credit_factor)` at `backend/main.py:85`. That handler catches ValueError but not OverflowError, so an infinite credit factor makes the request answer 500.
- Config.EffectiveToday: reads one instant `now`, while `effective_today` (`backend/config.py:89-92`) reads the clock twice: `datetime.now()` for the hour and `date.today()` for the day. Across midnight the Python can pair the old hour with the new day; the model always uses the day of the same instant.
- HistoricalSquads.ReconstructRoundTrip: the round trip is proved in both directions (ReconstructRoundTrip forward first, ReconstructBackRoundTrip backward first) for windows in which no two events share a timestamp. With ties it can fail, as HistoricalSquads.TiedEventsBreakRoundTrip shows: the reversed sort at `backend/historical_squads.py:109` is stable, so events in the same second are undone in the order they were applied. Tied events that touch different users and tradables still round-trip, but the lemmas do not cover them. Both lemmas also need a consistent log: every event's users already in the seed, and each event's tradable held by the side it leaves and not by the side it joins.
- HistoricalSquads.ReconstructKeepsExclusive: ownership stays exclusive only on a log where each event's tradable is held by its own seller or buyer alone when the event is applied. The code does not check this, and on other logs a tradable can end up in two squads.
