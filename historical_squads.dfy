/**
 * backend/historical_squads.py: every user's squad at a past or future date,
 * reconstructed from a seed squad and the transfer events of the news feed.
 * Maps and sets are values here, so the copy the source takes of the seed
 * before it replays events is implicit: the seed is never changed.
 */
module HistoricalSquads {
  import opened PyBuiltins
  import opened Models

  /** `squads.get(uid, set())`: the set `setdefault` would hand out. */
  function SquadOf(sq: Squads, u: int): set<int>
  {
    if u in sq then sq[u] else {}
  }

  /** Applying an event forward: `setdefault(from).discard(tid)`, then `setdefault(to).add(tid)`. */
  function ApplyForward(sq: Squads, e: TransferEvent): (r: Squads)
    ensures r.Keys == sq.Keys + {e.fromUser, e.toUser}
    ensures e.tradable in r[e.toUser]
    ensures e.fromUser != e.toUser ==> e.tradable !in r[e.fromUser]
    ensures forall u :: u in sq && u != e.fromUser && u != e.toUser ==> r[u] == sq[u]
    ensures forall u, t :: u in r && t != e.tradable ==> (t in r[u] <==> t in SquadOf(sq, u))
  {
    var discarded := sq[e.fromUser := SquadOf(sq, e.fromUser) - {e.tradable}];
    discarded[e.toUser := SquadOf(discarded, e.toUser) + {e.tradable}]
  }

  /** Undoing an event: `setdefault(to).discard(tid)`, then `setdefault(from).add(tid)`. */
  function ApplyBackward(sq: Squads, e: TransferEvent): (r: Squads)
    ensures r.Keys == sq.Keys + {e.fromUser, e.toUser}
    ensures e.tradable in r[e.fromUser]
    ensures e.fromUser != e.toUser ==> e.tradable !in r[e.toUser]
    ensures forall u :: u in sq && u != e.fromUser && u != e.toUser ==> r[u] == sq[u]
    ensures forall u, t :: u in r && t != e.tradable ==> (t in r[u] <==> t in SquadOf(sq, u))
  {
    var discarded := sq[e.toUser := SquadOf(sq, e.toUser) - {e.tradable}];
    discarded[e.fromUser := SquadOf(discarded, e.fromUser) + {e.tradable}]
  }

  /** The users an event list names, as seller or as buyer. */
  function Users(es: seq<TransferEvent>): set<int>
  {
    (set e | e in es :: e.fromUser) + (set e | e in es :: e.toUser)
  }

  lemma UsersSnoc(es: seq<TransferEvent>, e: TransferEvent)
    ensures Users(es + [e]) == Users(es) + {e.fromUser, e.toUser}
  {
    var s := es + [e];
    assert forall x :: x in s <==> x in es || x == e;
  }

  /** The events of `es`, applied forward one after the other. */
  function ReplayForward(sq: Squads, es: seq<TransferEvent>): Squads
  {
    if es == [] then sq else ApplyForward(ReplayForward(sq, es[..|es| - 1]), es[|es| - 1])
  }

  /** The events of `es`, undone one after the other. */
  function ReplayBackward(sq: Squads, es: seq<TransferEvent>): Squads
  {
    if es == [] then sq else ApplyBackward(ReplayBackward(sq, es[..|es| - 1]), es[|es| - 1])
  }

  /** Replaying keeps every user and adds every user an event names, in either direction. */
  lemma {:induction false} ReplayKeys(sq: Squads, es: seq<TransferEvent>)
    ensures ReplayForward(sq, es).Keys == sq.Keys + Users(es)
    ensures ReplayBackward(sq, es).Keys == sq.Keys + Users(es)
  {
    if es != [] {
      var init := es[..|es| - 1];
      assert es == init + [es[|es| - 1]];
      UsersSnoc(init, es[|es| - 1]);
      ReplayKeys(sq, init);
    }
  }

  lemma MoveIsApplyForward(sq: Squads, e: TransferEvent)
    ensures var d := sq[e.fromUser := SquadOf(sq, e.fromUser) - {e.tradable}];
      d[e.toUser := SquadOf(d, e.toUser) + {e.tradable}] == ApplyForward(sq, e)
  {
  }

  lemma MoveIsApplyBackward(sq: Squads, e: TransferEvent)
    ensures var d := sq[e.toUser := SquadOf(sq, e.toUser) - {e.tradable}];
      d[e.fromUser := SquadOf(d, e.fromUser) + {e.tradable}] == ApplyBackward(sq, e)
  {
  }

  lemma ReplayForwardSnoc(sq: Squads, es: seq<TransferEvent>, e: TransferEvent)
    ensures ReplayForward(sq, es + [e]) == ApplyForward(ReplayForward(sq, es), e)
  {
    assert (es + [e])[..|es|] == es;
  }

  lemma ReplayBackwardSnoc(sq: Squads, es: seq<TransferEvent>, e: TransferEvent)
    ensures ReplayBackward(sq, es + [e]) == ApplyBackward(ReplayBackward(sq, es), e)
  {
    assert (es + [e])[..|es|] == es;
  }

  // ---------------------------------------------------------------------------
  // Ownership

  /** No tradable is in two users' squads. */
  ghost predicate Exclusive(sq: Squads)
  {
    forall u, v, t :: u in sq && v in sq && t in sq[u] && t in sq[v] ==> u == v
  }

  /** When the tradable belongs to seller or buyer only, an event keeps ownership exclusive. */
  lemma ForwardKeepsExclusive(sq: Squads, e: TransferEvent)
    requires Exclusive(sq)
    requires forall u :: u in sq && e.tradable in sq[u] ==> u == e.fromUser || u == e.toUser
    ensures Exclusive(ApplyForward(sq, e))
  {
    var r := ApplyForward(sq, e);
    forall u | u in r && e.tradable in r[u]
      ensures u == e.toUser
    {
    }
    forall u, v, t | u in r && v in r && t in r[u] && t in r[v] && t != e.tradable
      ensures u == v
    {
      assert t in SquadOf(sq, u) && t in SquadOf(sq, v);
    }
  }

  /** A tradable owned only by the seller is owned only by the buyer once the event is applied. */
  lemma ForwardMovesSoleOwnership(sq: Squads, e: TransferEvent)
    requires forall u :: u in sq && e.tradable in sq[u] ==> u == e.fromUser
    ensures forall u :: u in ApplyForward(sq, e) ==> (e.tradable in ApplyForward(sq, e)[u] <==> u == e.toUser)
  {
  }

  /** Undoing an event puts the tradable back with a sole seller only. */
  lemma BackwardMovesSoleOwnership(sq: Squads, e: TransferEvent)
    requires forall u :: u in sq && e.tradable in sq[u] ==> u == e.toUser
    ensures forall u :: u in ApplyBackward(sq, e) ==> (e.tradable in ApplyBackward(sq, e)[u] <==> u == e.fromUser)
  {
  }

  /** Re-applying an event that was undone, with the buyer holding the tradable, restores the squads. */
  lemma ForwardUndoesBackward(sq: Squads, e: TransferEvent)
    requires e.fromUser in sq && e.toUser in sq && e.fromUser != e.toUser
    requires e.tradable in sq[e.toUser] && e.tradable !in sq[e.fromUser]
    ensures ApplyForward(ApplyBackward(sq, e), e) == sq
  {
    var r := ApplyForward(ApplyBackward(sq, e), e);
    assert r.Keys == sq.Keys;
    forall u | u in sq ensures r[u] == sq[u] {
      if u == e.fromUser || u == e.toUser {
        forall t ensures t in r[u] <==> t in sq[u] {
          if t != e.tradable {
            assert t in r[u] <==> t in SquadOf(ApplyBackward(sq, e), u);
          }
        }
      }
    }
  }

  /** Undoing an event that moved a tradable from its seller to a buyer restores the squads. */
  lemma BackwardUndoesForward(sq: Squads, e: TransferEvent)
    requires e.fromUser in sq && e.toUser in sq && e.fromUser != e.toUser
    requires e.tradable in sq[e.fromUser] && e.tradable !in sq[e.toUser]
    ensures ApplyBackward(ApplyForward(sq, e), e) == sq
  {
    var r := ApplyBackward(ApplyForward(sq, e), e);
    assert r.Keys == sq.Keys;
    forall u | u in sq ensures r[u] == sq[u] {
      if u == e.fromUser || u == e.toUser {
        forall t ensures t in r[u] <==> t in sq[u] {
          if t != e.tradable {
            assert t in r[u] <==> t in SquadOf(ApplyForward(sq, e), u);
          }
        }
      }
    }
  }

  // ---------------------------------------------------------------------------
  // Event windows and ordering

  /**
   * Whether `reconstruct_squads_at_date` applies an event: forward from the seed date up to the
   * target date (or, with a cut-off time, strictly before the cut-off on the target date), backward
   * from the target date up to the seed date. The backward window does not look at the cut-off.
   */
  predicate InWindow(seedDate: int, target: int, cutoff: Option<SecondOfDay>, e: TransferEvent)
  {
    if target >= seedDate then
      if cutoff.Some? then Rank(e.time) < Rank(Instant(target, cutoff.value)) && e.time.day > seedDate
      else seedDate < e.time.day <= target
    else target < e.time.day <= seedDate
  }

  /** The list comprehension that selects the events in the window, in their order. */
  function Selected(es: seq<TransferEvent>, seedDate: int, target: int, cutoff: Option<SecondOfDay>): seq<TransferEvent>
  {
    if es == [] then []
    else
      var last := es[|es| - 1];
      Selected(es[..|es| - 1], seedDate, target, cutoff) + (if InWindow(seedDate, target, cutoff, last) then [last] else [])
  }

  /** Exactly the events in the window are selected. */
  lemma {:induction false} SelectedSpec(es: seq<TransferEvent>, seedDate: int, target: int, cutoff: Option<SecondOfDay>)
    ensures |Selected(es, seedDate, target, cutoff)| <= |es|
    ensures forall e :: e in Selected(es, seedDate, target, cutoff) <==> e in es && InWindow(seedDate, target, cutoff, e)
  {
    if es != [] {
      var init := es[..|es| - 1];
      assert es == init + [es[|es| - 1]];
      SelectedSpec(init, seedDate, target, cutoff);
    }
  }

  lemma {:induction false} SelectedAppend(a: seq<TransferEvent>, b: seq<TransferEvent>, seedDate: int, target: int, cutoff: Option<SecondOfDay>)
    ensures Selected(a + b, seedDate, target, cutoff) == Selected(a, seedDate, target, cutoff) + Selected(b, seedDate, target, cutoff)
  {
    if b != [] {
      var ab := a + b;
      assert ab[..|ab| - 1] == a + b[..|b| - 1];
      assert ab[|ab| - 1] == b[|b| - 1];
      SelectedAppend(a, b[..|b| - 1], seedDate, target, cutoff);
    } else {
      assert a + b == a;
    }
  }

  /** No event in the window, nothing selected. */
  lemma {:induction false} SelectedEmpty(es: seq<TransferEvent>, seedDate: int, target: int, cutoff: Option<SecondOfDay>)
    requires forall k :: 0 <= k < |es| ==> !InWindow(seedDate, target, cutoff, es[k])
    ensures Selected(es, seedDate, target, cutoff) == []
  {
    if es != [] {
      var init := es[..|es| - 1];
      assert forall k :: 0 <= k < |init| ==> init[k] == es[k];
      SelectedEmpty(init, seedDate, target, cutoff);
    }
  }

  /** Whether `a` must be placed before `b` when sorting by timestamp (`reverse=True` when `desc`). */
  predicate Precedes(a: TransferEvent, b: TransferEvent, desc: bool)
  {
    if desc then Rank(a.time) > Rank(b.time) else Rank(a.time) < Rank(b.time)
  }

  predicate SortedBy(s: seq<TransferEvent>, desc: bool)
  {
    forall i, j :: 0 <= i < j < |s| ==> !Precedes(s[j], s[i], desc)
  }

  /** Inserts `e` behind every element it does not have to precede, so that equal timestamps keep their order. */
  function Insert(s: seq<TransferEvent>, e: TransferEvent, desc: bool): seq<TransferEvent>
  {
    if s == [] then [e]
    else if Precedes(e, s[0], desc) then [e] + s
    else [s[0]] + Insert(s[1..], e, desc)
  }

  /** Inserting adds exactly `e`. */
  lemma {:induction false} InsertAddsOne(s: seq<TransferEvent>, e: TransferEvent, desc: bool)
    ensures multiset(Insert(s, e, desc)) == multiset(s) + multiset{e}
    ensures forall x :: x in Insert(s, e, desc) <==> x == e || x in s
  {
    if s != [] && !Precedes(e, s[0], desc) {
      InsertAddsOne(s[1..], e, desc);
      assert s == [s[0]] + s[1..];
    }
  }

  /** Inserting into a sorted list adds exactly `e` and keeps the list sorted. */
  lemma {:induction false} InsertSpec(s: seq<TransferEvent>, e: TransferEvent, desc: bool)
    requires SortedBy(s, desc)
    ensures multiset(Insert(s, e, desc)) == multiset(s) + multiset{e}
    ensures SortedBy(Insert(s, e, desc), desc)
  {
    InsertAddsOne(s, e, desc);
    if s != [] && !Precedes(e, s[0], desc) {
      var tail := s[1..];
      assert SortedBy(tail, desc) by {
        forall i, j | 0 <= i < j < |tail|
          ensures !Precedes(tail[j], tail[i], desc)
        {
          assert tail[j] == s[j + 1] && tail[i] == s[i + 1];
        }
      }
      InsertSpec(tail, e, desc);
      InsertAddsOne(tail, e, desc);
      var rest := Insert(tail, e, desc);
      forall x | x in rest
        ensures !Precedes(x, s[0], desc)
      {
        if x != e {
          var m :| 0 <= m < |tail| && tail[m] == x;
          assert s[m + 1] == x;
        }
      }
      var r := [s[0]] + rest;
      assert r == Insert(s, e, desc);
      forall i, j | 0 <= i < j < |r|
        ensures !Precedes(r[j], r[i], desc)
      {
        if i > 0 {
          assert r[i] == rest[i - 1] && r[j] == rest[j - 1];
        } else {
          assert r[j] == rest[j - 1];
          assert r[j] in rest;
        }
      }
    }
  }

  /** Python's stable `list.sort(key=timestamp)`, descending when `desc` (`reverse=True`). */
  function SortByTime(s: seq<TransferEvent>, desc: bool): seq<TransferEvent>
  {
    if s == [] then [] else Insert(SortByTime(s[..|s| - 1], desc), s[|s| - 1], desc)
  }

  /** The sorted list is a permutation of the input, ordered by timestamp. */
  lemma {:induction false} SortByTimeSpec(s: seq<TransferEvent>, desc: bool)
    ensures multiset(SortByTime(s, desc)) == multiset(s)
    ensures SortedBy(SortByTime(s, desc), desc)
  {
    if s != [] {
      var init := s[..|s| - 1];
      assert s == init + [s[|s| - 1]];
      SortByTimeSpec(init, desc);
      InsertSpec(SortByTime(init, desc), s[|s| - 1], desc);
    }
  }

  /** The events of `s` whose timestamp has rank `r`, in list order. */
  function WithRank(s: seq<TransferEvent>, r: int): seq<TransferEvent>
  {
    if s == [] then [] else (if Rank(s[0].time) == r then [s[0]] else []) + WithRank(s[1..], r)
  }

  lemma {:induction false} WithRankAppend(a: seq<TransferEvent>, b: seq<TransferEvent>, r: int)
    ensures WithRank(a + b, r) == WithRank(a, r) + WithRank(b, r)
  {
    if a != [] {
      assert (a + b)[0] == a[0];
      assert (a + b)[1..] == a[1..] + b;
      WithRankAppend(a[1..], b, r);
    } else {
      assert a + b == b;
    }
  }

  lemma {:induction false} WithRankNone(s: seq<TransferEvent>, r: int)
    requires forall k :: 0 <= k < |s| ==> Rank(s[k].time) != r
    ensures WithRank(s, r) == []
  {
    if s != [] {
      assert forall k :: 0 <= k < |s| - 1 ==> s[1..][k] == s[k + 1];
      WithRankNone(s[1..], r);
    }
  }

  lemma SortedTail(s: seq<TransferEvent>, desc: bool)
    requires s != [] && SortedBy(s, desc)
    ensures SortedBy(s[1..], desc)
  {
    var tail := s[1..];
    forall i, j | 0 <= i < j < |tail|
      ensures !Precedes(tail[j], tail[i], desc)
    {
      assert tail[j] == s[j + 1] && tail[i] == s[i + 1];
    }
  }

  /** An event placed in front of a sorted list precedes every event of that list, so none shares its timestamp. */
  lemma FrontHasNoTie(t: seq<TransferEvent>, e: TransferEvent, desc: bool)
    requires SortedBy(t, desc) && t != [] && Precedes(e, t[0], desc)
    ensures WithRank(t, Rank(e.time)) == []
  {
    forall k | 0 <= k < |t|
      ensures Rank(t[k].time) != Rank(e.time)
    {
      if k > 0 {
        assert !Precedes(t[k], t[0], desc);
      }
    }
    WithRankNone(t, Rank(e.time));
  }

  /** Inserting into a sorted list puts `e` behind every event with its timestamp. */
  lemma {:induction false} InsertKeepsTies(t: seq<TransferEvent>, e: TransferEvent, desc: bool, r: int)
    requires SortedBy(t, desc)
    ensures WithRank(Insert(t, e, desc), r) == WithRank(t + [e], r)
  {
    if t == [] {
    } else if Precedes(e, t[0], desc) {
      assert Insert(t, e, desc) == [e] + t;
      WithRankAppend(t, [e], r);
      WithRankAppend([e], t, r);
      if Rank(e.time) == r {
        FrontHasNoTie(t, e, desc);
      }
    } else {
      var tail := t[1..];
      SortedTail(t, desc);
      InsertKeepsTies(tail, e, desc, r);
      assert t == [t[0]] + tail;
      InsertBehindHead(t[0], tail, e, desc, r);
    }
  }

  /** One step of `InsertKeepsTies`: `e` goes behind the head, and the tie order of the tail carries over. */
  lemma InsertBehindHead(h: TransferEvent, tail: seq<TransferEvent>, e: TransferEvent, desc: bool, r: int)
    requires !Precedes(e, h, desc)
    requires WithRank(Insert(tail, e, desc), r) == WithRank(tail + [e], r)
    ensures WithRank(Insert([h] + tail, e, desc), r) == WithRank([h] + tail + [e], r)
  {
    var t := [h] + tail;
    assert t[0] == h && t[1..] == tail;
    var inserted := Insert(tail, e, desc);
    assert Insert(t, e, desc) == [h] + inserted;
    var w := WithRank([h], r);
    WithRankAppend([h], inserted, r);
    WithRankAppend(tail, [e], r);
    WithRankAppend([h], tail + [e], r);
    assert [h] + tail + [e] == [h] + (tail + [e]);
    calc {
      WithRank([h] + inserted, r);
      w + WithRank(inserted, r);
      w + WithRank(tail + [e], r);
      WithRank([h] + (tail + [e]), r);
    }
  }

  /** The sort is stable: the events of each timestamp keep their list order, in both directions. */
  lemma {:induction false} SortByTimeStable(s: seq<TransferEvent>, desc: bool, r: int)
    ensures WithRank(SortByTime(s, desc), r) == WithRank(s, r)
  {
    if s != [] {
      var init := s[..|s| - 1];
      assert s == init + [s[|s| - 1]];
      SortByTimeSpec(init, desc);
      SortByTimeStable(init, desc, r);
      InsertKeepsTies(SortByTime(init, desc), s[|s| - 1], desc, r);
      WithRankAppend(SortByTime(init, desc), [s[|s| - 1]], r);
      WithRankAppend(init, [s[|s| - 1]], r);
    }
  }

  // ---------------------------------------------------------------------------
  // Reconstruction

  /** What `reconstruct_squads_at_date(seed_date, seed_squads, transfer_events, target_date, cutoff_time=…)` returns. */
  function Reconstruct(seedDate: int, seed: Squads, es: seq<TransferEvent>, target: int, cutoff: Option<SecondOfDay>): Squads
  {
    var selected := Selected(es, seedDate, target, cutoff);
    if target >= seedDate then ReplayForward(seed, SortByTime(selected, false))
    else ReplayBackward(seed, SortByTime(selected, true))
  }

  /** `reconstruct_squads_at_date`: select, sort, then replay event by event. */
  method ReconstructSquadsAt(seedDate: int, seed: Squads, es: seq<TransferEvent>, target: int, cutoff: Option<SecondOfDay>)
    returns (squads: Squads)
    ensures squads == Reconstruct(seedDate, seed, es, target, cutoff)
  {
    var selected := Selected(es, seedDate, target, cutoff);
    if target >= seedDate {
      squads := ReplayForwardLoop(seed, SortByTime(selected, false));
    } else {
      squads := ReplayBackwardLoop(seed, SortByTime(selected, true));
    }
  }

  /** The forward replay: each event moves its tradable from the seller to the buyer. */
  method ReplayForwardLoop(seed: Squads, events: seq<TransferEvent>) returns (squads: Squads)
    ensures squads == ReplayForward(seed, events)
  {
    squads := seed;
    var i := 0;
    while i < |events|
      invariant 0 <= i <= |events|
      invariant squads == ReplayForward(seed, events[..i])
    {
      var e := events[i];
      ReplayForwardSnoc(seed, events[..i], e);
      assert events[..i + 1] == events[..i] + [e];
      MoveIsApplyForward(squads, e);
      squads := squads[e.fromUser := SquadOf(squads, e.fromUser) - {e.tradable}];
      squads := squads[e.toUser := SquadOf(squads, e.toUser) + {e.tradable}];
      i := i + 1;
    }
    assert events[..i] == events;
  }

  /** The backward replay: each event is undone, the tradable going back from the buyer to the seller. */
  method ReplayBackwardLoop(seed: Squads, events: seq<TransferEvent>) returns (squads: Squads)
    ensures squads == ReplayBackward(seed, events)
  {
    squads := seed;
    var i := 0;
    while i < |events|
      invariant 0 <= i <= |events|
      invariant squads == ReplayBackward(seed, events[..i])
    {
      var e := events[i];
      ReplayBackwardSnoc(seed, events[..i], e);
      assert events[..i + 1] == events[..i] + [e];
      MoveIsApplyBackward(squads, e);
      squads := squads[e.toUser := SquadOf(squads, e.toUser) - {e.tradable}];
      squads := squads[e.fromUser := SquadOf(squads, e.fromUser) + {e.tradable}];
      i := i + 1;
    }
    assert events[..i] == events;
  }

  /** Every seed user stays a key, and every user of an applied event becomes one. */
  lemma ReconstructKeys(seedDate: int, seed: Squads, es: seq<TransferEvent>, target: int, cutoff: Option<SecondOfDay>)
    ensures Reconstruct(seedDate, seed, es, target, cutoff).Keys == seed.Keys + Users(Selected(es, seedDate, target, cutoff))
  {
    var selected := Selected(es, seedDate, target, cutoff);
    SortByTimeSpec(selected, target < seedDate);
    ReplayKeys(seed, SortByTime(selected, target < seedDate));
    UsersOfPermutation(SortByTime(selected, target < seedDate), selected);
  }

  lemma UsersOfPermutation(a: seq<TransferEvent>, b: seq<TransferEvent>)
    requires multiset(a) == multiset(b)
    ensures Users(a) == Users(b)
  {
    forall e ensures e in a <==> e in b {
      assert e in a <==> e in multiset(a);
      assert e in b <==> e in multiset(b);
    }
  }

  /** At the seed date nothing is replayed, with or without a cut-off. */
  lemma ReconstructAtSeedDate(seedDate: int, seed: Squads, es: seq<TransferEvent>, cutoff: Option<SecondOfDay>)
    ensures Reconstruct(seedDate, seed, es, seedDate, cutoff) == seed
  {
    forall k | 0 <= k < |es| ensures !InWindow(seedDate, seedDate, cutoff, es[k]) {
      RankOrdersDays(es[k].time, Instant(seedDate + 1, 0));
    }
    SelectedEmpty(es, seedDate, seedDate, cutoff);
  }

  /** Events outside the window of the target date change nothing. */
  lemma ReconstructIgnoresOutsideWindow(seedDate: int, seed: Squads, es: seq<TransferEvent>, extra: seq<TransferEvent>, target: int, cutoff: Option<SecondOfDay>)
    requires forall k :: 0 <= k < |extra| ==> !InWindow(seedDate, target, cutoff, extra[k])
    ensures Reconstruct(seedDate, seed, es + extra, target, cutoff) == Reconstruct(seedDate, seed, es, target, cutoff)
  {
    SelectedAppend(es, extra, seedDate, target, cutoff);
    SelectedEmpty(extra, seedDate, target, cutoff);
    assert Selected(es, seedDate, target, cutoff) + [] == Selected(es, seedDate, target, cutoff);
  }

  /** Before the seed date the cut-off time is never consulted. */
  lemma BackwardIgnoresCutoff(seedDate: int, seed: Squads, es: seq<TransferEvent>, target: int, cutoff: SecondOfDay)
    requires target < seedDate
    ensures Reconstruct(seedDate, seed, es, target, Some(cutoff)) == Reconstruct(seedDate, seed, es, target, None)
  {
    SelectedIgnoresCutoff(es, seedDate, target, cutoff);
  }

  lemma {:induction false} SelectedIgnoresCutoff(es: seq<TransferEvent>, seedDate: int, target: int, cutoff: SecondOfDay)
    requires target < seedDate
    ensures Selected(es, seedDate, target, Some(cutoff)) == Selected(es, seedDate, target, None)
  {
    if es != [] {
      SelectedIgnoresCutoff(es[..|es| - 1], seedDate, target, cutoff);
    }
  }

  /** `reconstruct_squads_for_date_range`: the end-of-day squads of every day from `dateFrom` to `dateTo`. */
  method ReconstructForDateRange(seedDate: int, seed: Squads, es: seq<TransferEvent>, dateFrom: int, dateTo: int)
    returns (out: map<int, Squads>)
    ensures forall d :: d in out <==> dateFrom <= d <= dateTo
    ensures forall d :: d in out ==> out[d] == Reconstruct(seedDate, seed, es, d, None)
  {
    out := map[];
    var d := dateFrom;
    while d <= dateTo
      invariant dateFrom <= d && (d <= dateTo + 1 || d == dateFrom)
      invariant forall x :: x in out <==> dateFrom <= x < d
      invariant forall x :: x in out ==> out[x] == Reconstruct(seedDate, seed, es, x, None)
    {
      var sq := ReconstructSquadsAt(seedDate, seed, es, d, None);
      ghost var prev := out;
      out := out[d := sq];
      forall x | x in out
        ensures out[x] == Reconstruct(seedDate, seed, es, x, None)
      {
        if x != d {
          assert out[x] == prev[x];
        }
      }
      d := d + 1;
    }
  }

  // ---------------------------------------------------------------------------
  // Whole replays: ownership and reversibility

  /** Nobody but the event's seller and buyer holds its tradable. */
  ghost predicate OnlyPartiesHold(sq: Squads, e: TransferEvent)
  {
    forall u :: u in sq && e.tradable in sq[u] ==> u == e.fromUser || u == e.toUser
  }

  /** When its turn comes in a replay from `sq`, each event finds its tradable with its seller or buyer only. */
  ghost predicate PartiesOnly(sq: Squads, es: seq<TransferEvent>, forward: bool)
    decreases |es|
  {
    es == [] ||
    (OnlyPartiesHold(sq, es[0]) &&
     PartiesOnly(if forward then ApplyForward(sq, es[0]) else ApplyBackward(sq, es[0]), es[1..], forward))
  }

  /** When the tradable belongs to seller or buyer only, undoing an event keeps ownership exclusive. */
  lemma BackwardKeepsExclusive(sq: Squads, e: TransferEvent)
    requires Exclusive(sq) && OnlyPartiesHold(sq, e)
    ensures Exclusive(ApplyBackward(sq, e))
  {
    var r := ApplyBackward(sq, e);
    forall u | u in r && e.tradable in r[u]
      ensures u == e.fromUser
    {
    }
    forall u, v, t | u in r && v in r && t in r[u] && t in r[v] && t != e.tradable
      ensures u == v
    {
      assert t in SquadOf(sq, u) && t in SquadOf(sq, v);
    }
  }

  /** A replay is its first event followed by the replay of the rest. */
  lemma {:induction false} ReplayCons(sq: Squads, e: TransferEvent, rest: seq<TransferEvent>)
    ensures ReplayForward(sq, [e] + rest) == ReplayForward(ApplyForward(sq, e), rest)
    ensures ReplayBackward(sq, [e] + rest) == ReplayBackward(ApplyBackward(sq, e), rest)
  {
    if rest == [] {
      assert [e] + rest == [] + [e];
      ReplayForwardSnoc(sq, [], e);
      ReplayBackwardSnoc(sq, [], e);
    } else {
      var init := rest[..|rest| - 1];
      var l := rest[|rest| - 1];
      assert rest == init + [l];
      assert [e] + rest == ([e] + init) + [l];
      ReplayCons(sq, e, init);
      ReplayForwardSnoc(sq, [e] + init, l);
      ReplayBackwardSnoc(sq, [e] + init, l);
      ReplayForwardSnoc(ApplyForward(sq, e), init, l);
      ReplayBackwardSnoc(ApplyBackward(sq, e), init, l);
    }
  }

  /** A whole replay keeps ownership exclusive when every event finds its tradable with its own parties only. */
  lemma {:induction false} ReplayKeepsExclusive(sq: Squads, es: seq<TransferEvent>, forward: bool)
    requires Exclusive(sq) && PartiesOnly(sq, es, forward)
    ensures forward ==> Exclusive(ReplayForward(sq, es))
    ensures !forward ==> Exclusive(ReplayBackward(sq, es))
    decreases |es|
  {
    if es != [] {
      var next := if forward then ApplyForward(sq, es[0]) else ApplyBackward(sq, es[0]);
      if forward {
        ForwardKeepsExclusive(sq, es[0]);
      } else {
        BackwardKeepsExclusive(sq, es[0]);
      }
      ReplayKeepsExclusive(next, es[1..], forward);
      assert es == [es[0]] + es[1..];
      ReplayCons(sq, es[0], es[1..]);
    }
  }

  /** A reconstruction of squads that share no tradable shares none, in either direction, on a consistent log. */
  lemma ReconstructKeepsExclusive(seedDate: int, seed: Squads, es: seq<TransferEvent>, target: int, cutoff: Option<SecondOfDay>)
    requires Exclusive(seed)
    requires PartiesOnly(seed, SortByTime(Selected(es, seedDate, target, cutoff), target < seedDate), target >= seedDate)
    ensures Exclusive(Reconstruct(seedDate, seed, es, target, cutoff))
  {
    ReplayKeepsExclusive(seed, SortByTime(Selected(es, seedDate, target, cutoff), target < seedDate), target >= seedDate);
  }

  /**
   * Every event, in its turn of a forward replay from `sq`, moves a tradable its seller holds to a
   * different buyer who does not hold it, both already being keys.
   */
  ghost predicate Consistent(sq: Squads, es: seq<TransferEvent>)
    decreases |es|
  {
    es == [] ||
    (var e := es[0];
     e.fromUser in sq && e.toUser in sq && e.fromUser != e.toUser &&
     e.tradable in sq[e.fromUser] && e.tradable !in sq[e.toUser] &&
     Consistent(ApplyForward(sq, e), es[1..]))
  }

  /** The events of `s`, last first. */
  function Reversed(s: seq<TransferEvent>): (r: seq<TransferEvent>)
    ensures |r| == |s|
    ensures forall i :: 0 <= i < |s| ==> r[i] == s[|s| - 1 - i]
  {
    if s == [] then [] else Reversed(s[1..]) + [s[0]]
  }

  lemma {:induction false} ReversedMultiset(s: seq<TransferEvent>)
    ensures multiset(Reversed(s)) == multiset(s)
  {
    if s != [] {
      ReversedMultiset(s[1..]);
      assert s == [s[0]] + s[1..];
    }
  }

  /** Reading a sorted list backwards gives one sorted the other way. */
  lemma ReversedSorted(s: seq<TransferEvent>, desc: bool)
    requires SortedBy(s, desc)
    ensures SortedBy(Reversed(s), !desc)
  {
    var r := Reversed(s);
    forall i, j | 0 <= i < j < |r|
      ensures !Precedes(r[j], r[i], !desc)
    {
      assert r[i] == s[|s| - 1 - i] && r[j] == s[|s| - 1 - j];
    }
  }

  /** Events that share a timestamp are the same event. */
  ghost predicate DistinctTimes(m: multiset<TransferEvent>)
  {
    forall x, y :: x in m && y in m && Rank(x.time) == Rank(y.time) ==> x == y
  }

  /** Two sorted lists with the same events and no ties start with the same event. */
  lemma SortedHeads(a: seq<TransferEvent>, b: seq<TransferEvent>, desc: bool)
    requires SortedBy(a, desc) && SortedBy(b, desc)
    requires multiset(a) == multiset(b) && DistinctTimes(multiset(a))
    requires a != []
    ensures b != [] && b[0] == a[0]
  {
    assert |b| == |multiset(b)| == |multiset(a)| == |a|;
    assert a[0] in multiset(b) && b[0] in multiset(a);
    var k :| 0 <= k < |b| && b[k] == a[0];
    var m :| 0 <= m < |a| && a[m] == b[0];
    if k > 0 && m > 0 {
      assert !Precedes(a[m], a[0], desc);
      assert !Precedes(b[k], b[0], desc);
    }
  }

  /** Without ties there is only one sorted order of a list. */
  lemma {:induction false} SortedUnique(a: seq<TransferEvent>, b: seq<TransferEvent>, desc: bool)
    requires SortedBy(a, desc) && SortedBy(b, desc)
    requires multiset(a) == multiset(b) && DistinctTimes(multiset(a))
    ensures a == b
    decreases |a|
  {
    if a == [] {
      assert |b| == |multiset(b)| == 0;
    } else {
      SortedHeads(a, b, desc);
      assert a == [a[0]] + a[1..] && b == [b[0]] + b[1..];
      assert multiset(a[1..]) == multiset(a) - multiset{a[0]};
      assert multiset(b[1..]) == multiset(b) - multiset{b[0]};
      assert multiset(a[1..]) <= multiset(a);
      SortedTail(a, desc);
      SortedTail(b, desc);
      SortedUnique(a[1..], b[1..], desc);
    }
  }

  /** A forward replay of a consistent log is undone by the backward replay of the reversed log. */
  lemma {:induction false} ReplayRoundTrip(sq: Squads, es: seq<TransferEvent>)
    requires Consistent(sq, es)
    ensures ReplayBackward(ReplayForward(sq, es), Reversed(es)) == sq
    decreases |es|
  {
    if es != [] {
      var e := es[0];
      var rest := es[1..];
      assert es == [e] + rest;
      ReplayCons(sq, e, rest);
      ReplayRoundTrip(ApplyForward(sq, e), rest);
      ReplayBackwardSnoc(ReplayForward(ApplyForward(sq, e), rest), Reversed(rest), e);
      BackwardUndoesForward(sq, e);
    }
  }

  /** Without a cut-off, the backward window from `b` to `a` is the forward window from `a` to `b`. */
  lemma {:induction false} SelectedSwap(es: seq<TransferEvent>, a: int, b: int)
    requires a < b
    ensures Selected(es, b, a, None) == Selected(es, a, b, None)
  {
    if es != [] {
      SelectedSwap(es[..|es| - 1], a, b);
    }
  }

  /**
   * Going forward from the seed to `target` and back to the seed date gives back the seed, when no
   * two events of the window share a timestamp and the log is consistent with the seed.
   */
  lemma ReconstructRoundTrip(seedDate: int, seed: Squads, es: seq<TransferEvent>, target: int)
    requires seedDate < target
    requires DistinctTimes(multiset(Selected(es, seedDate, target, None)))
    requires Consistent(seed, SortByTime(Selected(es, seedDate, target, None), false))
    ensures Reconstruct(target, Reconstruct(seedDate, seed, es, target, None), es, seedDate, None) == seed
  {
    var sel := Selected(es, seedDate, target, None);
    SelectedSwap(es, seedDate, target);
    var up := SortByTime(sel, false);
    SortByTimeSpec(sel, false);
    SortByTimeSpec(sel, true);
    ReversedSorted(up, false);
    ReversedMultiset(up);
    SortedUnique(SortByTime(sel, true), Reversed(up), true);
    ReplayRoundTrip(seed, up);
  }

  /**
   * Every event, in its turn of a backward replay from `sq`, is undone from a buyer who holds the
   * tradable to a different seller who does not, both already being keys.
   */
  ghost predicate ConsistentBack(sq: Squads, es: seq<TransferEvent>)
    decreases |es|
  {
    es == [] ||
    (var e := es[0];
     e.fromUser in sq && e.toUser in sq && e.fromUser != e.toUser &&
     e.tradable in sq[e.toUser] && e.tradable !in sq[e.fromUser] &&
     ConsistentBack(ApplyBackward(sq, e), es[1..]))
  }

  /** A backward replay of a consistent log is undone by the forward replay of the reversed log. */
  lemma {:induction false} ReplayBackRoundTrip(sq: Squads, es: seq<TransferEvent>)
    requires ConsistentBack(sq, es)
    ensures ReplayForward(ReplayBackward(sq, es), Reversed(es)) == sq
    decreases |es|
  {
    if es != [] {
      var e := es[0];
      var rest := es[1..];
      assert es == [e] + rest;
      ReplayCons(sq, e, rest);
      ReplayBackRoundTrip(ApplyBackward(sq, e), rest);
      ReplayForwardSnoc(ReplayBackward(ApplyBackward(sq, e), rest), Reversed(rest), e);
      ForwardUndoesBackward(sq, e);
    }
  }

  /**
   * Going back from the seed to an earlier `target` and forward to the seed date gives back the
   * seed, when no two events of the window share a timestamp and the log is consistent with the seed.
   */
  lemma ReconstructBackRoundTrip(seedDate: int, seed: Squads, es: seq<TransferEvent>, target: int)
    requires target < seedDate
    requires DistinctTimes(multiset(Selected(es, seedDate, target, None)))
    requires ConsistentBack(seed, SortByTime(Selected(es, seedDate, target, None), true))
    ensures Reconstruct(target, Reconstruct(seedDate, seed, es, target, None), es, seedDate, None) == seed
  {
    var sel := Selected(es, seedDate, target, None);
    SelectedSwap(es, target, seedDate);
    var down := SortByTime(sel, true);
    SortByTimeSpec(sel, false);
    SortByTimeSpec(sel, true);
    ReversedSorted(down, true);
    ReversedMultiset(down);
    SortedUnique(SortByTime(sel, false), Reversed(down), false);
    ReplayBackRoundTrip(seed, down);
  }

  /**
   * Two events in the same second are undone in the order they were applied, since the reversed sort
   * is stable: the log below is consistent, yet going forward and back does not restore the seed.
   */
  lemma TiedEventsBreakRoundTrip()
    ensures var e1 := TransferEvent(Instant(11, 0), 100, 200, 7);
      var e2 := TransferEvent(Instant(11, 0), 200, 300, 7);
      var seed := map[100 := {7}, 200 := {}, 300 := {}];
      && Consistent(seed, SortByTime(Selected([e1, e2], 10, 12, None), false))
      && Reconstruct(12, Reconstruct(10, seed, [e1, e2], 12, None), [e1, e2], 10, None) != seed
  {
    var e1 := TransferEvent(Instant(11, 0), 100, 200, 7);
    var e2 := TransferEvent(Instant(11, 0), 200, 300, 7);
    var seed: Squads := map[100 := {7}, 200 := {}, 300 := {}];
    var es := [e1, e2];
    assert es[..1] == [e1] && [e1][..0] == [] && [e1][1..] == [];
    assert Selected([e1], 10, 12, None) == [e1];
    assert Selected(es, 10, 12, None) == es;
    assert Selected([e1], 12, 10, None) == [e1];
    assert Selected(es, 12, 10, None) == es;
    assert SortByTime([e1], false) == Insert([], e1, false) == [e1];
    assert SortByTime([e1], true) == Insert([], e1, true) == [e1];
    assert !Precedes(e2, e1, false) && !Precedes(e2, e1, true);
    assert Insert([e1], e2, false) == [e1] + Insert([], e2, false) == es;
    assert Insert([e1], e2, true) == [e1] + Insert([], e2, true) == es;
    assert SortByTime(es, false) == es;
    assert SortByTime(es, true) == es;
    assert es == [e1] + [e2] && [e2] == [e2] + [];
    var fwd := Reconstruct(10, seed, es, 12, None);
    ReplayCons(fwd, e1, [e2]);
    ReplayCons(ApplyBackward(fwd, e1), e2, []);
    var back := ApplyBackward(ApplyBackward(fwd, e1), e2);
    assert Reconstruct(12, fwd, es, 10, None) == back;
    assert 7 in back[200] && 7 !in seed[200];
    var mid := ApplyForward(seed, e1);
    assert mid[300] == seed[300];
    assert es[1..] == [e2];
    assert Consistent(mid, [e2]);
  }

  // ---------------------------------------------------------------------------
  // Seed file

  /** Whether `load_seed_squads` reads a top-level key as a user id. */
  predicate UserKey(k: string)
  {
    k != "seed_date" && !(|k| > 0 && k[0] == '_') && IntFromText(k).Some?
  }

  /**
   * `int(p)` for each `p in player_list or []`, keeping the ones that convert. A list yields its
   * elements, an object its keys, a string its characters; a falsy value yields nothing; iterating
   * any other truthy value raises TypeError, which `load_seed_squads` does not catch.
   */
  function PlayersOf(v: Json): (r: Result<set<int>>)
    ensures !Truthy(v) ==> r == Ok({})
    ensures r.Raise? <==> Truthy(v) && (v.JBool? || v.JInt? || v.JFloat?)
  {
    if !Truthy(v) then Ok({})
    else
      match v
      case JList(xs) => Ok(set k | 0 <= k < |xs| && PyInt(xs[k]).Ok? :: PyInt(xs[k]).value)
      case JObject(f) => Ok(set k | k in f && IntFromText(k).Some? :: IntFromText(k).value)
      case JStr(s) => Ok(set k | 0 <= k < |s| && IsDigit(s[k]) :: DigitValue(s[k]) as int)
      case _ => Raise(TypeError)
  }

  predicate HasKey(items: seq<(string, Json)>, k: string)
  {
    exists i :: 0 <= i < |items| && items[i].0 == k
  }

  /** The user ids the accepted keys of `items` stand for. */
  function SeedUsers(items: seq<(string, Json)>): set<int>
  {
    if items == [] then {}
    else
      var k := items[|items| - 1].0;
      SeedUsers(items[..|items| - 1]) + (if UserKey(k) then {IntFromText(k).value} else {})
  }

  /** Whether key `k` is accepted and reads as user id `u`. */
  predicate StandsFor(k: string, u: int)
  {
    UserKey(k) && IntFromText(k) == Some(u)
  }

  /** Every seed user id comes from an accepted key of the file. */
  lemma {:induction false} SeedUserHasKey(items: seq<(string, Json)>, u: int)
    requires u in SeedUsers(items)
    ensures exists i :: 0 <= i < |items| && StandsFor(items[i].0, u)
  {
    var init := items[..|items| - 1];
    var k := items[|items| - 1].0;
    if u in SeedUsers(init) {
      SeedUserHasKey(init, u);
      var i :| 0 <= i < |init| && StandsFor(init[i].0, u);
      assert items[i] == init[i];
    } else {
      assert StandsFor(items[|items| - 1].0, u);
    }
  }

  /** Every accepted key of the file gives a seed user. */
  lemma {:induction false} KeyGivesSeedUser(items: seq<(string, Json)>, i: int, u: int)
    requires 0 <= i < |items| && StandsFor(items[i].0, u)
    ensures u in SeedUsers(items)
  {
    var init := items[..|items| - 1];
    if i < |init| {
      assert init[i] == items[i];
      KeyGivesSeedUser(init, i, u);
    }
  }

  /** One item of the seed file added to the squads read so far. */
  function SeedAdd(acc: Result<Squads>, item: (string, Json)): (r: Result<Squads>)
    ensures r.Ok? ==> acc.Ok? && r.value.Keys == acc.value.Keys + (if UserKey(item.0) then {IntFromText(item.0).value} else {})
  {
    match acc
    case Raise(err) => Raise(err)
    case Ok(sq) =>
      if !UserKey(item.0) then Ok(sq)
      else
        match PlayersOf(item.1)
        case Raise(err) => Raise(err)
        case Ok(ps) => Ok(sq[IntFromText(item.0).value := ps])
  }

  /** The squads built from the entries of `items`, in order; a later key with the same id wins. */
  function SeedEntries(items: seq<(string, Json)>): (r: Result<Squads>)
    ensures r.Ok? ==> r.value.Keys == SeedUsers(items)
  {
    if items == [] then Ok(map[])
    else SeedAdd(SeedEntries(items[..|items| - 1]), items[|items| - 1])
  }

  /** The prefix of `items` one longer adds item `i`. */
  lemma SeedStep(items: seq<(string, Json)>, i: int)
    requires 0 <= i < |items|
    ensures SeedEntries(items[..i + 1]) == SeedAdd(SeedEntries(items[..i]), items[i])
  {
    assert items[..i + 1][..i] == items[..i];
  }

  /**
   * The squads `load_seed_squads` reads from the decoded top-level object, given as its items in
   * order. A file that names `users` or `squads` yields no squads at all.
   */
  function SeedSquads(items: seq<(string, Json)>): Result<Squads>
  {
    if HasKey(items, "users") || HasKey(items, "squads") then Ok(map[]) else SeedEntries(items)
  }

  /** The loop of `load_seed_squads` over the items of the decoded object. */
  method LoadSeedSquads(items: seq<(string, Json)>) returns (r: Result<Squads>)
    ensures r == SeedSquads(items)
  {
    if HasKey(items, "users") || HasKey(items, "squads") {
      return Ok(map[]);
    }
    r := LoadSeedEntries(items);
  }

  /** The loop proper: each accepted key read in order, the first player list that cannot be iterated raising. */
  method LoadSeedEntries(items: seq<(string, Json)>) returns (r: Result<Squads>)
    ensures r == SeedEntries(items)
  {
    var squads: Squads := map[];
    var i := 0;
    while i < |items|
      invariant 0 <= i <= |items|
      invariant SeedEntries(items[..i]) == Ok(squads)
    {
      SeedStep(items, i);
      var next := LoadSeedItem(squads, items[i]);
      if next.Raise? {
        SeedEntriesStaysRaised(items, i + 1);
        assert items[..|items|] == items;
        return next;
      }
      squads := next.value;
      i := i + 1;
    }
    assert items[..i] == items;
    r := Ok(squads);
  }

  /** One turn of the loop: skipped keys, the `int(k)` guard, then the player list. */
  method LoadSeedItem(squads: Squads, item: (string, Json)) returns (r: Result<Squads>)
    ensures r == SeedAdd(Ok(squads), item)
  {
    var (k, v) := item;
    if k == "seed_date" || (|k| > 0 && k[0] == '_') {
      assert !UserKey(k);
      return Ok(squads);
    }
    var uid := IntFromText(k);
    if uid.None? {
      assert !UserKey(k);
      return Ok(squads);
    }
    assert UserKey(k);
    var players := PlayersOf(v);
    if players.Raise? {
      return Raise(players.error);
    }
    r := Ok(squads[uid.value := players.value]);
  }

  /** Once an entry raises, the whole load raises with it. */
  lemma {:induction false} SeedEntriesStaysRaised(items: seq<(string, Json)>, n: nat)
    requires n <= |items| && SeedEntries(items[..n]).Raise?
    ensures SeedEntries(items) == SeedEntries(items[..n])
    decreases |items| - n
  {
    if n < |items| {
      assert items[..n + 1][..n] == items[..n];
      SeedEntriesStaysRaised(items, n + 1);
    } else {
      assert items[..n] == items;
    }
  }

  /** Every user key of the seed carries exactly the ids its player list converts to, the last such key winning. */
  lemma SeedEntryForLastKey(items: seq<(string, Json)>, k: string, v: Json)
    requires UserKey(k) && PlayersOf(v).Ok? && SeedEntries(items).Ok?
    ensures SeedEntries(items + [(k, v)]) == Ok(SeedEntries(items).value[IntFromText(k).value := PlayersOf(v).value])
  {
    var s := items + [(k, v)];
    assert s[..|s| - 1] == items;
  }

  /** Keys the loader skips change nothing. */
  lemma SeedSkipsKey(items: seq<(string, Json)>, k: string, v: Json)
    requires !UserKey(k)
    ensures SeedEntries(items + [(k, v)]) == SeedEntries(items)
  {
    var s := items + [(k, v)];
    assert s[..|s| - 1] == items;
  }
}
