/**
 * backend/salary_from_squads.py: the market-value cache and the salary
 * ledger built on the reconstructed squads.
 *
 * The quote-history service is the function `fetch`: `fetch(tid)` is the list
 * of `(day, price)` pairs it returns for a tradable, in its order. Cache keys
 * are day numbers (their ISO spelling in the source).
 */
module SalaryFromSquads {
  import opened PyBuiltins
  import opened Models
  import opened HistoricalSquads

  /** SALARY_BASE: the fixed part of a player's daily salary. */
  const SALARY_BASE: int := 500

  /** `cache[tradable_id][day] = price` */
  type Entries = map<int, map<int, int>>

  /** `SALARY_BASE + int(mv * SALARY_PCT)`: 500 plus 0.1% of the market value, truncated toward zero. */
  function DailySalary(mv: int): (s: int)
    ensures mv >= 0 ==> s == SALARY_BASE + mv / 1000
    ensures mv >= 0 ==> s >= SALARY_BASE
  {
    SALARY_BASE + TruncDiv(mv, 1000)
  }

  // ---------------------------------------------------------------------------
  // Price histories

  /** The days a history names. */
  function Dates(hist: seq<(int, int)>): set<int>
  {
    if hist == [] then {} else Dates(hist[..|hist| - 1]) + {hist[|hist| - 1].0}
  }

  /** The price the last pair for `day` in `hist` gives. */
  function LastPrice(hist: seq<(int, int)>, day: int): int
    requires day in Dates(hist)
  {
    if hist[|hist| - 1].0 == day then hist[|hist| - 1].1 else LastPrice(hist[..|hist| - 1], day)
  }

  /** `for h_date, price in hist: cache[tid][h_date] = price` */
  function Merge(m: map<int, int>, hist: seq<(int, int)>): map<int, int>
  {
    if hist == [] then m else Merge(m, hist[..|hist| - 1])[hist[|hist| - 1].0 := hist[|hist| - 1].1]
  }

  /** Merging stores every fetched day, with the price of its last pair, and keeps every other day. */
  lemma {:induction false} MergeSpec(m: map<int, int>, hist: seq<(int, int)>)
    ensures Merge(m, hist).Keys == m.Keys + Dates(hist)
    ensures forall k :: k in Merge(m, hist) ==> Merge(m, hist)[k] == if k in Dates(hist) then LastPrice(hist, k) else m[k]
  {
    if hist != [] {
      MergeSpec(m, hist[..|hist| - 1]);
    }
  }

  /** Every day of the history is one of its dates. */
  lemma {:induction false} DatesHas(hist: seq<(int, int)>, i: int)
    requires 0 <= i < |hist|
    ensures hist[i].0 in Dates(hist)
  {
    if i < |hist| - 1 {
      DatesHas(hist[..|hist| - 1], i);
    }
  }

  /** A pair that no later pair overrides keeps its price. */
  lemma {:induction false} LastPriceOfLastPair(hist: seq<(int, int)>, i: int)
    requires 0 <= i < |hist|
    requires forall j :: i < j < |hist| ==> hist[j].0 != hist[i].0
    ensures hist[i].0 in Dates(hist) && LastPrice(hist, hist[i].0) == hist[i].1
  {
    DatesHas(hist, i);
    if i < |hist| - 1 {
      var init := hist[..|hist| - 1];
      assert forall j :: i < j < |init| ==> init[j] == hist[j];
      LastPriceOfLastPair(init, i);
    }
  }

  /** Merging the same history twice is merging it once. */
  lemma MergeIdempotent(m: map<int, int>, hist: seq<(int, int)>)
    ensures Merge(Merge(m, hist), hist) == Merge(m, hist)
  {
    var once := Merge(m, hist);
    MergeSpec(m, hist);
    MergeSpec(once, hist);
    assert Merge(once, hist).Keys == once.Keys;
    forall k | k in once
      ensures Merge(once, hist)[k] == once[k]
    {
    }
  }

  // ---------------------------------------------------------------------------
  // Nearest past value

  predicate HasOnOrBefore(m: map<int, int>, d: int)
  {
    exists k :: k in m && k <= d
  }

  /** The largest element of a set that is not empty. */
  lemma MaxOf(s: set<int>) returns (k: int)
    requires s != {}
    ensures k in s && forall j :: j in s ==> j <= k
    decreases s
  {
    var x := NonEmptyHas(s);
    if s - {x} == {} {
      k := x;
      forall j | j in s
        ensures j <= k
      {
        assert j !in s - {x};
      }
    } else {
      var y := MaxOf(s - {x});
      k := if x > y then x else y;
      forall j | j in s
        ensures j <= k
      {
        if j != x {
          assert j in s - {x};
        }
      }
    }
  }

  lemma MaxExists(s: set<int>)
    requires s != {}
    ensures exists k :: k in s && forall j :: j in s ==> j <= k
  {
    var k := MaxOf(s);
  }

  /** The latest cached day on or before `d`. */
  ghost function Latest(m: map<int, int>, d: int): (k: int)
    requires HasOnOrBefore(m, d)
    ensures k in m && k <= d
    ensures forall j :: j in m && j <= d ==> j <= k
  {
    var s := set j | j in m && j <= d;
    var w :| w in m && w <= d;
    assert w in s;
    MaxExists(s);
    var k :| k in s && forall j :: j in s ==> j <= k;
    assert forall j :: j in m && j <= d ==> j in s;
    k
  }

  /** The price at the latest day on or before `d`, or 0 when there is none. */
  ghost function ValueOn(m: map<int, int>, d: int): int
  {
    if HasOnOrBefore(m, d) then m[Latest(m, d)] else 0
  }

  /** An exact day is its own latest day. */
  lemma ValueOnExact(m: map<int, int>, d: int)
    requires d in m
    ensures ValueOn(m, d) == m[d]
  {
    assert HasOnOrBefore(m, d);
  }

  /** The running `best_date` scan over the cached days of one tradable. */
  method LatestOnOrBefore(m: map<int, int>, d: int) returns (best: Option<int>)
    ensures best.None? <==> !HasOnOrBefore(m, d)
    ensures best.Some? ==> best.value in m && best.value <= d && best.value == Latest(m, d)
  {
    best := None;
    var rest := m.Keys;
    while rest != {}
      invariant rest <= m.Keys
      invariant best.None? ==> forall k :: k in m && k !in rest ==> k > d
      invariant best.Some? ==> best.value in m && best.value !in rest && best.value <= d
      invariant best.Some? ==> forall k :: k in m && k !in rest && k <= d ==> k <= best.value
      decreases rest
    {
      var _ := NonEmptyHas(rest);
      var k :| k in rest;
      if k <= d && (best.None? || k > best.value) {
        best := Some(k);
      }
      rest := rest - {k};
    }
  }

  // ---------------------------------------------------------------------------
  // One lookup, as a function of the cache

  /** The cache entry of one tradable, None when it has none. */
  function Slot(c: Entries, tid: int): Option<map<int, int>>
  {
    if tid in c then Some(c[tid]) else None
  }

  /** Whether the cache already answers for day `d` (an exact hit or an earlier day). */
  predicate Answers(slot: Option<map<int, int>>, d: int)
  {
    slot.Some? && HasOnOrBefore(slot.value, d)
  }

  /** The entry of the tradable after a lookup: left alone when the cache answers, else merged with the fetched history. */
  function Resolve(slot: Option<map<int, int>>, tid: int, d: int, fetch: int -> seq<(int, int)>): map<int, int>
  {
    if Answers(slot, d) then slot.value
    else Merge(if slot.Some? then slot.value else map[], fetch(tid))
  }

  /** The value `_get_value_for_date` returns, given the tradable's entry. */
  ghost function AnswerOf(slot: Option<map<int, int>>, tid: int, d: int, fetch: int -> seq<(int, int)>): int
  {
    ValueOn(Resolve(slot, tid, d, fetch), d)
  }

  ghost function Answer(c: Entries, tid: int, d: int, fetch: int -> seq<(int, int)>): int
  {
    AnswerOf(Slot(c, tid), tid, d, fetch)
  }

  /** The cache after `_get_value_for_date(…, tid, d, cache, …)`. */
  function AfterQuery(c: Entries, tid: int, d: int, fetch: int -> seq<(int, int)>): Entries
  {
    c[tid := Resolve(Slot(c, tid), tid, d, fetch)]
  }

  /** An exact hit is returned and the cache stays as it was. */
  lemma ExactHit(c: Entries, tid: int, d: int, fetch: int -> seq<(int, int)>)
    requires tid in c && d in c[tid]
    ensures Answer(c, tid, d, fetch) == c[tid][d]
    ensures AfterQuery(c, tid, d, fetch) == c
  {
    ValueOnExact(c[tid], d);
  }

  /** A cached day on or before `d` answers with the latest such day, without a fetch. */
  lemma NearestPastHit(c: Entries, tid: int, d: int, fetch: int -> seq<(int, int)>)
    requires tid in c && HasOnOrBefore(c[tid], d)
    ensures Answer(c, tid, d, fetch) == c[tid][Latest(c[tid], d)]
    ensures AfterQuery(c, tid, d, fetch) == c
  {
  }

  /** After a fetch the tradable is a key, every fetched day is stored, and other tradables are untouched. */
  lemma FetchStores(c: Entries, tid: int, d: int, fetch: int -> seq<(int, int)>)
    requires !Answers(Slot(c, tid), d)
    ensures var r := AfterQuery(c, tid, d, fetch);
      && tid in r
      && r[tid].Keys == (if tid in c then c[tid].Keys else {}) + Dates(fetch(tid))
      && (forall i :: 0 <= i < |fetch(tid)| ==> fetch(tid)[i].0 in r[tid])
      && (forall t :: t in c && t != tid ==> t in r && r[t] == c[t])
  {
    var base := if tid in c then c[tid] else map[];
    MergeSpec(base, fetch(tid));
    forall i | 0 <= i < |fetch(tid)| ensures fetch(tid)[i].0 in Dates(fetch(tid)) {
      DatesHas(fetch(tid), i);
    }
  }

  /** With no day on or before `d`, cached or fetched, the value is 0. */
  lemma ZeroWhenNoPastDay(c: Entries, tid: int, d: int, fetch: int -> seq<(int, int)>)
    requires !Answers(Slot(c, tid), d)
    requires forall i :: 0 <= i < |fetch(tid)| ==> fetch(tid)[i].0 > d
    ensures Answer(c, tid, d, fetch) == 0
  {
    var base := if tid in c then c[tid] else map[];
    var m := Merge(base, fetch(tid));
    MergeSpec(base, fetch(tid));
    if HasOnOrBefore(m, d) {
      var k :| k in m && k <= d;
      assert k in Dates(fetch(tid));
      DatesAreFetched(fetch(tid), k);
    }
  }

  lemma {:induction false} DatesAreFetched(hist: seq<(int, int)>, k: int)
    requires k in Dates(hist)
    ensures exists i :: 0 <= i < |hist| && hist[i].0 == k
  {
    var init := hist[..|hist| - 1];
    if k in Dates(init) {
      DatesAreFetched(init, k);
      var i :| 0 <= i < |init| && init[i].0 == k;
      assert hist[i] == init[i];
    } else {
      assert hist[|hist| - 1].0 == k;
    }
  }

  /** Asking again for the same day gives the same value and leaves the cache as the first lookup left it. */
  lemma QueryStable(slot: Option<map<int, int>>, tid: int, d: int, fetch: int -> seq<(int, int)>)
    ensures AnswerOf(Some(Resolve(slot, tid, d, fetch)), tid, d, fetch) == AnswerOf(slot, tid, d, fetch)
    ensures Resolve(Some(Resolve(slot, tid, d, fetch)), tid, d, fetch) == Resolve(slot, tid, d, fetch)
  {
    if !Answers(slot, d) {
      var m := Resolve(slot, tid, d, fetch);
      if !HasOnOrBefore(m, d) {
        MergeIdempotent(if slot.Some? then slot.value else map[], fetch(tid));
      }
    }
  }

  /** The valuation cache shared by the salary computations of one request. */
  class QuoteCache {
    var entries: Entries

    constructor (initial: Entries)
      ensures entries == initial
    {
      entries := initial;
    }

    /** `_get_value_for_date(access_token, tradable_id, d, cache, cache_path)` */
    method ValueForDate(tid: int, d: int, fetch: int -> seq<(int, int)>) returns (v: int)
      modifies this
      ensures v == Answer(old(entries), tid, d, fetch)
      ensures entries == AfterQuery(old(entries), tid, d, fetch)
    {
      if tid in entries {
        var hit := CachedValue(entries[tid], d);
        if hit.Some? {
          return hit.value;
        }
      }
      var hist := fetch(tid);
      StoreHistory(tid, hist);
      var hit := CachedValue(entries[tid], d);
      v := if hit.Some? then hit.value else 0;
    }

    /** `cache[tradable_id][h_date.isoformat()] = price` for every fetched pair, in order. */
    method StoreHistory(tid: int, hist: seq<(int, int)>)
      modifies this
      ensures entries == old(entries)[tid := Merge(if tid in old(entries) then old(entries)[tid] else map[], hist)]
    {
      ghost var base := if tid in entries then entries[tid] else map[];
      if tid !in entries {
        entries := entries[tid := map[]];
      }
      var i := 0;
      while i < |hist|
        invariant 0 <= i <= |hist|
        invariant entries == old(entries)[tid := Merge(base, hist[..i])]
      {
        assert hist[..i + 1][..i] == hist[..i];
        entries := entries[tid := entries[tid][hist[i].0 := hist[i].1]];
        i := i + 1;
      }
      assert hist[..i] == hist;
    }
  }

  /** The exact day when it is cached, else the latest cached day before it; None when there is neither. */
  method CachedValue(m: map<int, int>, d: int) returns (v: Option<int>)
    ensures v.Some? <==> HasOnOrBefore(m, d)
    ensures v.Some? ==> v.value == ValueOn(m, d)
  {
    if d in m {
      ValueOnExact(m, d);
      return Some(m[d]);
    }
    var best := LatestOnOrBefore(m, d);
    if best.Some? {
      return Some(m[best.value]);
    }
    return None;
  }

  // ---------------------------------------------------------------------------
  // A day of lookups

  /**
   * The cache after looking up every tradable of `tids` for day `d`, in any order: each entry is
   * resolved once, and looking a tradable up again changes nothing.
   */
  function DayEntries(c: Entries, tids: set<int>, d: int, fetch: int -> seq<(int, int)>): Entries
  {
    map t | t in c.Keys + tids :: if t in tids then Resolve(Slot(c, t), t, d, fetch) else c[t]
  }

  /** A tradable's entry within the day: resolved once it was looked up, else as the day began. */
  lemma DaySlot(c: Entries, done: set<int>, tid: int, d: int, fetch: int -> seq<(int, int)>)
    ensures Slot(DayEntries(c, done, d, fetch), tid) == if tid in done then Some(Resolve(Slot(c, tid), tid, d, fetch)) else Slot(c, tid)
  {
  }

  /** Within one day, every lookup answers as it would on the day's first cache, and resolves one more entry. */
  lemma DayStep(c: Entries, done: set<int>, tid: int, d: int, fetch: int -> seq<(int, int)>)
    ensures Answer(DayEntries(c, done, d, fetch), tid, d, fetch) == Answer(c, tid, d, fetch)
    ensures AfterQuery(DayEntries(c, done, d, fetch), tid, d, fetch) == DayEntries(c, done + {tid}, d, fetch)
  {
    var e := DayEntries(c, done, d, fetch);
    DaySlot(c, done, tid, d, fetch);
    var res := Resolve(Slot(c, tid), tid, d, fetch);
    if tid in done {
      QueryStable(Slot(c, tid), tid, d, fetch);
      assert done + {tid} == done;
    }
    assert Resolve(Slot(e, tid), tid, d, fetch) == res;
    var r := AfterQuery(e, tid, d, fetch);
    var n := DayEntries(c, done + {tid}, d, fetch);
    assert r == e[tid := res];
    assert r.Keys == n.Keys;
    forall t | t in r
      ensures r[t] == n[t]
    {
      if t != tid {
        assert r[t] == e[t];
      }
    }
  }

  /** The salary the players of `squad` draw for day `d`, each valued on the day's first cache. */
  ghost function SquadSalary(c: Entries, squad: set<int>, d: int, fetch: int -> seq<(int, int)>): int
    decreases squad
  {
    if squad == {} then 0
    else
      assert (forall x :: x !in squad) ==> squad == {};
      var t :| t in squad;
      DailySalary(Answer(c, t, d, fetch)) + SquadSalary(c, squad - {t}, d, fetch)
  }

  /** The sum does not depend on which player is taken first. */
  lemma SquadSalaryRemove(c: Entries, squad: set<int>, t: int, d: int, fetch: int -> seq<(int, int)>)
    requires t in squad
    ensures SquadSalary(c, squad, d, fetch) == DailySalary(Answer(c, t, d, fetch)) + SquadSalary(c, squad - {t}, d, fetch)
    decreases squad
  {
    var x :| x in squad && SquadSalary(c, squad, d, fetch) == DailySalary(Answer(c, x, d, fetch)) + SquadSalary(c, squad - {x}, d, fetch);
    if x != t {
      SquadSalaryRemove(c, squad - {x}, t, d, fetch);
      SquadSalaryRemove(c, squad - {t}, x, d, fetch);
      assert squad - {x} - {t} == squad - {t} - {x};
    }
  }

  /** With non-negative market values every player costs at least the base salary. */
  lemma {:induction false} SquadSalaryAtLeastBase(c: Entries, squad: set<int>, d: int, fetch: int -> seq<(int, int)>)
    requires forall t :: t in squad ==> Answer(c, t, d, fetch) >= 0
    ensures SquadSalary(c, squad, d, fetch) >= SALARY_BASE * |squad|
    decreases squad
  {
    if squad != {} {
      var _ := NonEmptyHas(squad);
      var t :| t in squad;
      SquadSalaryRemove(c, squad, t, d, fetch);
      SquadSalaryAtLeastBase(c, squad - {t}, d, fetch);
    }
  }

  /** With non-negative market values, every player added to a squad raises its salary by at least the base. */
  lemma {:induction false} SquadSalaryMonotone(c: Entries, a: set<int>, b: set<int>, d: int, fetch: int -> seq<(int, int)>)
    requires b <= a
    requires forall t :: t in a ==> Answer(c, t, d, fetch) >= 0
    ensures SquadSalary(c, a, d, fetch) >= SquadSalary(c, b, d, fetch) + SALARY_BASE * |a - b|
    decreases a
  {
    if a != b {
      assert a - b != {} by {
        assert a == b + (a - b);
      }
      var t := NonEmptyHas(a - b);
      SquadSalaryRemove(c, a, t, d, fetch);
      SquadSalaryMonotone(c, a - {t}, b, d, fetch);
      assert a - {t} - b == (a - b) - {t};
    }
  }

  /** The tradables of every user but the computer. */
  function DayTids(sq: Squads): set<int>
  {
    set u, t | u in sq && u != COMPUTER_USER_ID && t in sq[u] :: t
  }

  /** The tradables of the users in `users`, the computer left out. */
  function TidsOf(sq: Squads, users: set<int>): set<int>
  {
    set u, t | u in users && u in sq && u != COMPUTER_USER_ID && t in sq[u] :: t
  }

  /** The day's salary of every user of `sq` but the computer, a user without players drawing 0. */
  ghost function DaySalaries(c: Entries, sq: Squads, d: int, fetch: int -> seq<(int, int)>): map<int, int>
  {
    map u | u in sq && u != COMPUTER_USER_ID :: SquadSalary(c, sq[u], d, fetch)
  }

  lemma TidsOfAdd(sq: Squads, users: set<int>, u: int)
    requires u in sq
    ensures u != COMPUTER_USER_ID ==> TidsOf(sq, users + {u}) == TidsOf(sq, users) + sq[u]
    ensures u == COMPUTER_USER_ID ==> TidsOf(sq, users + {u}) == TidsOf(sq, users)
  {
    if u != COMPUTER_USER_ID {
      forall t | t in sq[u]
        ensures t in TidsOf(sq, users + {u})
      {
        assert u in users + {u};
      }
    }
  }

  /** The inner loop over one squad: every player valued at day `d` on the day's first cache `c`. */
  method ChargeSquad(cache: QuoteCache, squad: set<int>, d: int, fetch: int -> seq<(int, int)>, ghost c: Entries, ghost before: set<int>)
    returns (total: int)
    modifies cache
    requires cache.entries == DayEntries(c, before, d, fetch)
    ensures total == SquadSalary(c, squad, d, fetch)
    ensures cache.entries == DayEntries(c, before + squad, d, fetch)
  {
    total := 0;
    var rest := squad;
    ghost var done := before;
    assert squad - rest == {};
    while rest != {}
      invariant rest <= squad && done == before + (squad - rest)
      invariant total + SquadSalary(c, rest, d, fetch) == SquadSalary(c, squad, d, fetch)
      invariant cache.entries == DayEntries(c, done, d, fetch)
      decreases rest
    {
      var _ := NonEmptyHas(rest);
      var tid :| tid in rest;
      SquadSalaryRemove(c, rest, tid, d, fetch);
      var cost := ChargePlayer(cache, tid, d, fetch, c, done);
      total := total + cost;
      done := done + {tid};
      rest := rest - {tid};
    }
    assert squad - rest == squad;
  }

  /** One player's salary for day `d`, later in the day than the lookups of `done`. */
  method ChargePlayer(cache: QuoteCache, tid: int, d: int, fetch: int -> seq<(int, int)>, ghost c: Entries, ghost done: set<int>)
    returns (cost: int)
    modifies cache
    requires cache.entries == DayEntries(c, done, d, fetch)
    ensures cost == DailySalary(Answer(c, tid, d, fetch))
    ensures cache.entries == DayEntries(c, done + {tid}, d, fetch)
  {
    DayStep(c, done, tid, d, fetch);
    var mv := cache.ValueForDate(tid, d, fetch);
    cost := SALARY_BASE + TruncDiv(mv, 1000);
  }

  /** The per-user loop shared by both salary computations: every player valued at day `d`. */
  method ChargeSquads(cache: QuoteCache, sq: Squads, d: int, fetch: int -> seq<(int, int)>) returns (daySalary: map<int, int>)
    modifies cache
    ensures daySalary == DaySalaries(old(cache.entries), sq, d, fetch)
    ensures cache.entries == DayEntries(old(cache.entries), DayTids(sq), d, fetch)
  {
    ghost var c := cache.entries;
    daySalary := map[];
    var users := sq.Keys;
    ghost var doneUsers: set<int> := {};
    ghost var tids := TidsOf(sq, {});
    assert DayEntries(c, tids, d, fetch) == c;
    while users != {}
      invariant users <= sq.Keys && doneUsers <= sq.Keys
      invariant forall u :: u in sq ==> (u in users <==> u !in doneUsers)
      invariant SalariesSoFar(daySalary, c, sq, doneUsers, d, fetch)
      invariant tids == TidsOf(sq, doneUsers)
      invariant cache.entries == DayEntries(c, tids, d, fetch)
      decreases users
    {
      var _ := NonEmptyHas(users);
      var uid :| uid in users;
      TidsOfAdd(sq, doneUsers, uid);
      users := users - {uid};
      if uid == COMPUTER_USER_ID {
        SalariesSoFarSkip(daySalary, c, sq, doneUsers, uid, d, fetch);
        doneUsers := doneUsers + {uid};
        continue;
      }
      var total := ChargeSquad(cache, sq[uid], d, fetch, c, tids);
      SalariesSoFarAdd(daySalary, c, sq, doneUsers, uid, total, d, fetch);
      daySalary := daySalary[uid := total];
      doneUsers := doneUsers + {uid};
      tids := tids + sq[uid];
    }
    assert forall u :: u in sq ==> u in doneUsers;
    assert doneUsers == sq.Keys;
    assert TidsOf(sq, sq.Keys) == DayTids(sq);
    SalariesSoFarAll(daySalary, c, sq, d, fetch);
  }

  /** The salaries charged so far: one for every user of `done` but the computer. */
  ghost predicate SalariesSoFar(m: map<int, int>, c: Entries, sq: Squads, done: set<int>, d: int, fetch: int -> seq<(int, int)>)
  {
    (forall u :: u in m <==> u in done && u in sq && u != COMPUTER_USER_ID) &&
    (forall u :: u in m ==> u in sq && m[u] == SquadSalary(c, sq[u], d, fetch))
  }

  lemma SalariesSoFarAdd(m: map<int, int>, c: Entries, sq: Squads, done: set<int>, u: int, total: int, d: int, fetch: int -> seq<(int, int)>)
    requires SalariesSoFar(m, c, sq, done, d, fetch)
    requires u in sq && u != COMPUTER_USER_ID && total == SquadSalary(c, sq[u], d, fetch)
    ensures SalariesSoFar(m[u := total], c, sq, done + {u}, d, fetch)
  {
  }

  lemma SalariesSoFarSkip(m: map<int, int>, c: Entries, sq: Squads, done: set<int>, u: int, d: int, fetch: int -> seq<(int, int)>)
    requires SalariesSoFar(m, c, sq, done, d, fetch) && u == COMPUTER_USER_ID
    ensures SalariesSoFar(m, c, sq, done + {u}, d, fetch)
  {
  }

  lemma SalariesSoFarAll(m: map<int, int>, c: Entries, sq: Squads, d: int, fetch: int -> seq<(int, int)>)
    requires SalariesSoFar(m, c, sq, sq.Keys, d, fetch)
    ensures m == DaySalaries(c, sq, d, fetch)
  {
    var r := DaySalaries(c, sq, d, fetch);
    forall u
      ensures u in m <==> u in r
    {
      assert u in m <==> u in sq && u != COMPUTER_USER_ID;
    }
    forall u | u in m
      ensures m[u] == r[u]
    {
    }
  }

  // ---------------------------------------------------------------------------
  // The ledger

  /** `{**total}` with `day` added user by user. */
  function AddSalaries(total: map<int, int>, day: map<int, int>): map<int, int>
  {
    map u | u in total.Keys + day.Keys :: (if u in total then total[u] else 0) + (if u in day then day[u] else 0)
  }

  /** The smallest element of a set that is not empty. */
  lemma MinOf(s: set<int>) returns (k: int)
    requires s != {}
    ensures k in s && forall j :: j in s ==> k <= j
    decreases s
  {
    var x := NonEmptyHas(s);
    if s - {x} == {} {
      k := x;
      forall j | j in s
        ensures k <= j
      {
        assert j !in s - {x};
      }
    } else {
      var y := MinOf(s - {x});
      k := if x < y then x else y;
      forall j | j in s
        ensures k <= j
      {
        if j != x {
          assert j in s - {x};
        }
      }
    }
  }

  lemma MinExists(s: set<int>)
    requires s != {}
    ensures exists k :: k in s && forall j :: j in s ==> k <= j
  {
    var k := MinOf(s);
  }

  /** The earliest remaining debit day: `sorted(salary_dates)` taken one day at a time. */
  ghost function MinDay(days: set<int>): (d: int)
    requires days != {}
    ensures d in days && forall e :: e in days ==> d <= e
  {
    MinExists(days);
    var d :| d in days && forall e :: e in days ==> d <= e;
    d
  }

  /** The squads at the cut-off time of each day. */
  function SquadsAtCutoff(seedDate: int, seed: Squads, events: seq<TransferEvent>, cutoff: SecondOfDay): int -> Squads
  {
    d => Reconstruct(seedDate, seed, events, d, Some(cutoff))
  }

  /**
   * The ledger over the remaining debit days, earliest first: on debit day `d` the squads
   * `squadsOn(d)` draw the salary for day `d - 1`, priced at `d - 1`.
   */
  ghost function LedgerFrom(
    c: Entries, total: map<int, int>, days: set<int>, squadsOn: int -> Squads, fetch: int -> seq<(int, int)>)
    : (map<int, int>, Entries)
    decreases days
  {
    if days == {} then (total, c)
    else
      var d := MinDay(days);
      LedgerFrom(
        DayEntries(c, DayTids(squadsOn(d)), d - 1, fetch),
        AddSalaries(total, DaySalaries(c, squadsOn(d), d - 1, fetch)),
        days - {d}, squadsOn, fetch)
  }

  /**
   * What `compute_salaries_from_historical_squads` returns, with the cache it leaves: nothing when
   * the seed file is missing or no salary was debited. `seed` is None when the seed file is missing.
   */
  ghost function Ledger(
    c: Entries, seedDate: int, seed: Option<Squads>, events: seq<TransferEvent>,
    salaryDates: set<int>, cutoff: SecondOfDay, fetch: int -> seq<(int, int)>): (map<int, int>, Entries)
  {
    if seed.None? || salaryDates == {} then (map[], c)
    else LedgerFrom(c, map[], salaryDates, SquadsAtCutoff(seedDate, seed.value, events, cutoff), fetch)
  }

  /** `compute_salaries_from_historical_squads`, with the squads, events and debit days passed in. */
  method ComputeSalaries(
    cache: QuoteCache, seedDate: int, seed: Option<Squads>, events: seq<TransferEvent>,
    salaryDates: set<int>, cutoff: SecondOfDay, fetch: int -> seq<(int, int)>) returns (salaries: map<int, int>)
    modifies cache
    ensures (salaries, cache.entries) == Ledger(old(cache.entries), seedDate, seed, events, salaryDates, cutoff, fetch)
  {
    if seed.None? || salaryDates == {} {
      return map[];
    }
    ghost var squadsOn := SquadsAtCutoff(seedDate, seed.value, events, cutoff);
    salaries := map[];
    var remaining := salaryDates;
    while remaining != {}
      invariant LedgerFrom(cache.entries, salaries, remaining, squadsOn, fetch)
             == Ledger(old(cache.entries), seedDate, seed, events, salaryDates, cutoff, fetch)
      decreases remaining
    {
      MinExists(remaining);
      var d :| d in remaining && forall e :: e in remaining ==> d <= e;
      assert d == MinDay(remaining);
      var squadsAtD := ReconstructSquadsAt(seedDate, seed.value, events, d, Some(cutoff));
      assert squadsAtD == squadsOn(d);
      var day := ChargeSquads(cache, squadsAtD, d - 1, fetch);
      salaries := AddSalaries(salaries, day);
      remaining := remaining - {d};
    }
  }

  /** The computer never draws a salary. */
  lemma LedgerSkipsComputer(
    c: Entries, seedDate: int, seed: Option<Squads>, events: seq<TransferEvent>,
    salaryDates: set<int>, cutoff: SecondOfDay, fetch: int -> seq<(int, int)>)
    ensures COMPUTER_USER_ID !in Ledger(c, seedDate, seed, events, salaryDates, cutoff, fetch).0
  {
    if seed.Some? && salaryDates != {} {
      LedgerFromKeys(c, map[], salaryDates, SquadsAtCutoff(seedDate, seed.value, events, cutoff), fetch, COMPUTER_USER_ID);
    }
  }

  /** A single debit day adds the salaries of the squads of that day, valued the day before. */
  lemma LedgerFromOneDay(c: Entries, total: map<int, int>, d: int, squadsOn: int -> Squads, fetch: int -> seq<(int, int)>)
    ensures LedgerFrom(c, total, {d}, squadsOn, fetch)
         == (AddSalaries(total, DaySalaries(c, squadsOn(d), d - 1, fetch)), DayEntries(c, DayTids(squadsOn(d)), d - 1, fetch))
  {
    assert MinDay({d}) == d;
    assert {d} - {d} == {};
  }

  /** With one debit day, every manager's salary is that of the squad at the cut-off time, valued the day before. */
  lemma LedgerOneDay(
    c: Entries, seedDate: int, seed: Squads, events: seq<TransferEvent>, d: int, cutoff: SecondOfDay,
    fetch: int -> seq<(int, int)>, u: int)
    requires u != COMPUTER_USER_ID
    ensures var sq := Reconstruct(seedDate, seed, events, d, Some(cutoff));
      var r := Ledger(c, seedDate, Some(seed), events, {d}, cutoff, fetch).0;
      (u in r <==> u in sq) && (u in r ==> r[u] == SquadSalary(c, sq[u], d - 1, fetch))
  {
    var squadsOn := SquadsAtCutoff(seedDate, seed, events, cutoff);
    LedgerFromOneDay(c, map[], d, squadsOn, fetch);
  }

  /** A user draws salary on some debit day exactly when the user is a key of the ledger. */
  lemma {:induction false} LedgerFromKeys(
    c: Entries, total: map<int, int>, days: set<int>, squadsOn: int -> Squads, fetch: int -> seq<(int, int)>, u: int)
    ensures u in LedgerFrom(c, total, days, squadsOn, fetch).0 <==>
      u in total || (u != COMPUTER_USER_ID && HeldOn(u, days, squadsOn))
    decreases days
  {
    if days != {} {
      var d := MinDay(days);
      var sq := squadsOn(d);
      var c' := DayEntries(c, DayTids(sq), d - 1, fetch);
      var total' := AddSalaries(total, DaySalaries(c, sq, d - 1, fetch));
      assert LedgerFrom(c, total, days, squadsOn, fetch) == LedgerFrom(c', total', days - {d}, squadsOn, fetch);
      LedgerFromKeys(c', total', days - {d}, squadsOn, fetch, u);
      DaySalariesKeys(c, sq, d - 1, fetch, total, u);
      HeldOnSplit(u, days, d, squadsOn);
    }
  }

  lemma DaySalariesKeys(c: Entries, sq: Squads, d: int, fetch: int -> seq<(int, int)>, total: map<int, int>, u: int)
    ensures u in AddSalaries(total, DaySalaries(c, sq, d, fetch)) <==> u in total || (u != COMPUTER_USER_ID && u in sq)
  {
  }

  /** Whether `u` holds a squad on one of `days`. */
  predicate HeldOn(u: int, days: set<int>, squadsOn: int -> Squads)
  {
    exists d :: d in days && u in squadsOn(d)
  }

  lemma HeldOnSplit(u: int, days: set<int>, d: int, squadsOn: int -> Squads)
    requires d in days
    ensures HeldOn(u, days, squadsOn) <==> u in squadsOn(d) || HeldOn(u, days - {d}, squadsOn)
  {
    if HeldOn(u, days, squadsOn) {
      var e :| e in days && u in squadsOn(e);
      if e != d {
        assert e in days - {d};
      }
    }
  }

  /** A user is owed salary exactly when the user held a squad at the cut-off time of some debit day. */
  lemma LedgerKeys(
    c: Entries, seedDate: int, seed: Squads, events: seq<TransferEvent>,
    salaryDates: set<int>, cutoff: SecondOfDay, fetch: int -> seq<(int, int)>, u: int)
    requires u != COMPUTER_USER_ID
    ensures u in Ledger(c, seedDate, Some(seed), events, salaryDates, cutoff, fetch).0 <==>
      exists d :: d in salaryDates && u in Reconstruct(seedDate, seed, events, d, Some(cutoff))
  {
    var squadsOn := SquadsAtCutoff(seedDate, seed, events, cutoff);
    if salaryDates != {} {
      LedgerFromKeys(c, map[], salaryDates, squadsOn, fetch, u);
    }
    assert forall d :: squadsOn(d) == Reconstruct(seedDate, seed, events, d, Some(cutoff));
    assert HeldOn(u, salaryDates, squadsOn) <==> exists d :: d in salaryDates && u in Reconstruct(seedDate, seed, events, d, Some(cutoff));
  }

  // ---------------------------------------------------------------------------
  // Today

  /** `{uid: len(squad) for uid, squad in squads.items() if uid != COMPUTER_USER_ID}` */
  function PlayerCounts(sq: Squads): map<int, int>
  {
    map u | u in sq && u != COMPUTER_USER_ID :: |sq[u]|
  }

  /** `get_player_count_today`: the end-of-day squad sizes; `seed` is None when the seed file is missing. */
  function PlayerCountToday(seedDate: int, seed: Option<Squads>, events: seq<TransferEvent>, target: int): (r: map<int, int>)
    ensures COMPUTER_USER_ID !in r
  {
    if seed.None? then map[] else PlayerCounts(Reconstruct(seedDate, seed.value, events, target, None))
  }

  /** Every user of the end-of-day squads but the computer is counted, with the size of the squad. */
  lemma PlayerCountTodayCounts(seedDate: int, seed: Squads, events: seq<TransferEvent>, target: int, u: int)
    requires u != COMPUTER_USER_ID
    ensures var sq := Reconstruct(seedDate, seed, events, target, None);
      var r := PlayerCountToday(seedDate, Some(seed), events, target);
      (u in r <==> u in sq) && (u in r ==> r[u] == |sq[u]|)
  {
  }

  /**
   * `compute_salary_today`: squads at the end of `target`, every player valued at `target` itself.
   * Both maps have the same users, and the counts are those of `get_player_count_today`.
   */
  method ComputeSalaryToday(
    cache: QuoteCache, seedDate: int, seed: Option<Squads>, events: seq<TransferEvent>, target: int,
    fetch: int -> seq<(int, int)>) returns (salaries: map<int, int>, counts: map<int, int>)
    modifies cache
    ensures seed.None? ==> salaries == map[] && counts == map[] && cache.entries == old(cache.entries)
    ensures seed.Some? ==>
      var sq := Reconstruct(seedDate, seed.value, events, target, None);
      && salaries == DaySalaries(old(cache.entries), sq, target, fetch)
      && cache.entries == DayEntries(old(cache.entries), DayTids(sq), target, fetch)
    ensures counts == PlayerCountToday(seedDate, seed, events, target)
    ensures salaries.Keys == counts.Keys
  {
    if seed.None? {
      return map[], map[];
    }
    var squadsToday := ReconstructSquadsAt(seedDate, seed.value, events, target, None);
    counts := PlayerCounts(squadsToday);
    salaries := ChargeSquads(cache, squadsToday, target, fetch);
  }
}
