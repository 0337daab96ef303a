/** The daily counters: one number per UTC day, and only today's is kept. */
module DayCounter {
  type Day = nat
  type Store = map<Day, nat>

  function Today(store: Store, day: Day): nat {
    if day in store then store[day] else 0
  }

  /** Only today's number is kept. */
  function Prune(store: Store, day: Day): Store {
    map d | d in store && d == day :: store[d]
  }

  /** One call of `_count`: the store afterwards, and whether the attempt was granted. */
  function Count(store: Store, day: Day, cap: nat): (r: (Store, bool))
  {
    var kept := Prune(store, day);
    if Today(store, day) >= cap then (kept, false) else (kept[day := Today(store, day) + 1], true)
  }

  class Counter {
    var store: Store

    constructor ()
      ensures store == map[]
    {
      store := map[];
    }

    /** The source's loop deletes the other days first, whatever comes of the attempt. */
    method CountOnce(day: Day, cap: nat) returns (granted: bool)
      modifies this
      ensures (store, granted) == Count(old(store), day, cap)
    {
      var others := set d | d in store && d != day;
      while others != {}
        invariant others <= store.Keys && day !in others
        invariant forall d | d in store :: d in old(store) && store[d] == old(store)[d] && (d != day ==> d in others)
        invariant day in old(store) ==> day in store
        decreases others
      {
        var d :| d in others;
        others := others - {d};
        store := map k | k in store && k != d :: store[k];
      }
      var kept := store;
      assert kept == Prune(old(store), day);
      assert Today(store, day) == Today(old(store), day);
      if Today(store, day) >= cap {
        return false;
      }
      assert Count(old(store), day, cap) == (kept[day := Today(old(store), day) + 1], true);
      store := kept[day := Today(kept, day) + 1];
      return true;
    }
  }

  // ----- whole histories -------------------------------------------------------------------

  /** How often a day occurs in a list of grants. */
  function GrantsOn(log: seq<Day>, day: Day): nat {
    if log == [] then 0
    else GrantsOn(log[..|log| - 1], day) + if log[|log| - 1] == day then 1 else 0
  }

  /** The store and the grants after attempts on these days, one after the other. */
  function Replay(attempts: seq<Day>, cap: nat): (Store, seq<Day>) {
    if attempts == [] then (map[], [])
    else
      var (store, log) := Replay(attempts[..|attempts| - 1], cap);
      var day := attempts[|attempts| - 1];
      var (after, granted) := Count(store, day, cap);
      (after, if granted then log + [day] else log)
  }

  /** How often the clock arrives at a day. */
  function Visits(attempts: seq<Day>, day: Day): nat {
    if attempts == [] then 0
    else
      var n := |attempts| - 1;
      Visits(attempts[..n], day) + if Arrives(attempts, day) then 1 else 0
  }

  predicate NeverBack(attempts: seq<Day>) {
    forall i | 0 < i < |attempts| :: attempts[i - 1] <= attempts[i]
  }

  lemma GrantedAppend(log: seq<Day>, last: Day, day: Day)
    ensures GrantsOn(log + [last], day) == GrantsOn(log, day) + if last == day then 1 else 0
  {
    assert (log + [last])[..|log|] == log;
  }

  predicate Arrives(attempts: seq<Day>, day: Day)
    requires attempts != []
  {
    var n := |attempts| - 1;
    attempts[n] == day && (n == 0 || attempts[n - 1] != day)
  }

  function Min(a: nat, b: nat): nat {
    if a < b then a else b
  }

  /** How long the clock has stood at the day of the last attempt: the length of the present visit. */
  function Stay(attempts: seq<Day>): nat {
    if attempts == [] then 0
    else if Arrives(attempts, attempts[|attempts| - 1]) then 1
    else Stay(attempts[..|attempts| - 1]) + 1
  }

  /** How many attempts on a day are among the first `cap` of their visit. */
  function InVisits(attempts: seq<Day>, cap: nat, day: Day): nat {
    if attempts == [] then 0
    else
      var n := |attempts| - 1;
      InVisits(attempts[..n], cap, day) + if attempts[n] == day && Stay(attempts) <= cap then 1 else 0
  }

  /** While the clock stands, the number of the day is the length of the visit up to the cap, and no other day has one. */
  lemma {:induction false} VisitIsCounted(attempts: seq<Day>, cap: nat)
    requires attempts != []
    ensures var (store, day) := (Replay(attempts, cap).0, attempts[|attempts| - 1]);
            store.Keys <= {day} && Today(store, day) == Min(cap, Stay(attempts))
  {
    var n := |attempts| - 1;
    if n > 0 {
      VisitIsCounted(attempts[..n], cap);
      assert attempts[..n][n - 1] == attempts[n - 1];
    }
  }

  /** An attempt is granted if it is among the first `cap` of its visit. */
  lemma GrantedInVisit(attempts: seq<Day>, cap: nat)
    requires attempts != []
    ensures var n := |attempts| - 1;
            Count(Replay(attempts[..n], cap).0, attempts[n], cap).1 <==> Stay(attempts) <= cap
  {
    hide Replay;
    var n := |attempts| - 1;
    if n > 0 {
      VisitIsCounted(attempts[..n], cap);
      assert attempts[..n][n - 1] == attempts[n - 1];
    } else {
      assert Replay(attempts[..n], cap).0 == map[] by { NoAttempts(cap); }
    }
  }

  lemma NoAttempts(cap: nat)
    ensures Replay([], cap) == (map[], [])
  {
  }

  /** For every clock whatsoever: the attempts granted on a day are exactly those among the first `cap` of a visit. */
  lemma {:induction false} GrantsAreExact(attempts: seq<Day>, cap: nat, day: Day)
    ensures GrantsOn(Replay(attempts, cap).1, day) == InVisits(attempts, cap, day)
  {
    hide Count, Stay;
    if attempts != [] {
      var n := |attempts| - 1;
      var (store, log) := Replay(attempts[..n], cap);
      GrantsAreExact(attempts[..n], cap, day);
      GrantedAppend(log, attempts[n], day);
      GrantedInVisit(attempts, cap);
    }
  }

  /** The lengths of all visits to a day, in order. */
  function VisitLengths(attempts: seq<Day>, day: Day): (r: seq<nat>)
    ensures |r| == Visits(attempts, day)
    ensures attempts != [] && attempts[|attempts| - 1] == day ==> r != []
  {
    if attempts == [] then []
    else
      var n := |attempts| - 1;
      var before := VisitLengths(attempts[..n], day);
      if attempts[n] != day then before
      else if Arrives(attempts, day) then before + [1]
      else
        assert attempts[..n][n - 1] == attempts[n - 1];
        before[..|before| - 1] + [before[|before| - 1] + 1]
  }

  function Sum(lengths: seq<nat>): nat {
    if lengths == [] then 0 else Sum(lengths[..|lengths| - 1]) + lengths[|lengths| - 1]
  }

  function Capped(lengths: seq<nat>, cap: nat): nat {
    if lengths == [] then 0 else Capped(lengths[..|lengths| - 1], cap) + Min(cap, lengths[|lengths| - 1])
  }

  lemma SumAppend(lengths: seq<nat>, last: nat, cap: nat)
    ensures Sum(lengths + [last]) == Sum(lengths) + last
    ensures Capped(lengths + [last], cap) == Capped(lengths, cap) + Min(cap, last)
    ensures Sum([]) == 0 == Capped([], cap)
  {
    assert (lengths + [last])[..|lengths|] == lengths;
  }

  lemma SumGrow(lengths: seq<nat>, cap: nat)
    requires lengths != []
    ensures var (m, more) := (|lengths| - 1, lengths[..|lengths| - 1] + [lengths[|lengths| - 1] + 1]);
            && Sum(more) == Sum(lengths) + 1
            && Capped(more, cap) == Capped(lengths, cap) + if lengths[m] < cap then 1 else 0
  {
    var m := |lengths| - 1;
    assert lengths == lengths[..m] + [lengths[m]];
    SumAppend(lengths[..m], lengths[m], cap);
    SumAppend(lengths[..m], lengths[m] + 1, cap);
  }

  /** The visits as they stand: all brought together, and the last one is the present one. */
  predicate Accounts(attempts: seq<Day>, cap: nat, day: Day, lengths: seq<nat>) {
    && InVisits(attempts, cap, day) == Capped(lengths, cap) && GrantsOn(attempts, day) == Sum(lengths)
    && (forall i | 0 <= i < |lengths| :: lengths[i] >= 1)
    && (attempts != [] && attempts[|attempts| - 1] == day ==> lengths != [] && lengths[|lengths| - 1] == Stay(attempts))
  }

  lemma ArrivalAccounts(attempts: seq<Day>, cap: nat, day: Day, before: seq<nat>)
    requires attempts != [] && Arrives(attempts, day) && Accounts(attempts[..|attempts| - 1], cap, day, before)
    ensures Accounts(attempts, cap, day, before + [1])
  {
    hide Sum, Capped;
    SumAppend(before, 1, cap);
  }

  lemma StayAccounts(attempts: seq<Day>, cap: nat, day: Day, before: seq<nat>)
    requires attempts != [] && attempts[|attempts| - 1] == day && !Arrives(attempts, day)
    requires Accounts(attempts[..|attempts| - 1], cap, day, before)
    ensures before != [] && Accounts(attempts, cap, day, before[..|before| - 1] + [before[|before| - 1] + 1])
  {
    hide Sum, Capped;
    var n := |attempts| - 1;
    assert attempts[..n][n - 1] == attempts[n - 1];
    SumGrow(before, cap);
  }

  lemma ElsewhereAccounts(attempts: seq<Day>, cap: nat, day: Day, before: seq<nat>)
    requires attempts != [] && attempts[|attempts| - 1] != day && Accounts(attempts[..|attempts| - 1], cap, day, before)
    ensures Accounts(attempts, cap, day, before)
  {
    hide Sum, Capped, Stay;
  }

  lemma NothingAccounted(cap: nat, day: Day)
    ensures Accounts([], cap, day, [])
  {
  }

  /** Every visit brings what the clock stays, up to the cap. */
  lemma {:induction false} VisitsAddUp(attempts: seq<Day>, cap: nat, day: Day)
    ensures Accounts(attempts, cap, day, VisitLengths(attempts, day))
  {
    hide Accounts, Arrives;
    if attempts == [] {
      NothingAccounted(cap, day);
    } else {
      var n := |attempts| - 1;
      VisitsAddUp(attempts[..n], cap, day);
      var before := VisitLengths(attempts[..n], day);
      if Arrives(attempts, day) {
        ArrivesAt(attempts, day);
        ArrivalAccounts(attempts, cap, day, before);
      } else if attempts[n] == day {
        StayAccounts(attempts, cap, day, before);
      } else {
        ElsewhereAccounts(attempts, cap, day, before);
      }
    }
  }

  lemma ArrivesAt(attempts: seq<Day>, day: Day)
    requires attempts != [] && Arrives(attempts, day)
    ensures attempts[|attempts| - 1] == day
  {
  }

  /** A visit that is cut off leaves no room for the others. */
  lemma {:induction false} CutOrWhole(lengths: seq<nat>, cap: nat)
    requires cap >= 1 && forall i | 0 <= i < |lengths| :: lengths[i] >= 1
    ensures |lengths| <= Capped(lengths, cap) <= cap * |lengths|
    ensures Capped(lengths, cap) == Sum(lengths) || Capped(lengths, cap) >= cap + |lengths| - 1
  {
    if lengths != [] {
      CutOrWhole(lengths[..|lengths| - 1], cap);
      Distribute(cap, |lengths| - 1);
    }
  }

  lemma Distribute(cap: nat, v: nat)
    ensures cap * (v + 1) == cap * v + cap
  {
  }

  /** Exactly when a day keeps its cap, for every clock whatsoever: it was visited once at most, or there were no more
      attempts on it than the cap allows. */
  lemma CapHoldsExactly(attempts: seq<Day>, cap: nat, day: Day)
    requires cap >= 1
    ensures GrantsOn(Replay(attempts, cap).1, day) <= cap <==>
            Visits(attempts, day) <= 1 || GrantsOn(attempts, day) <= cap
  {
    var lengths := VisitLengths(attempts, day);
    GrantsAreExact(attempts, cap, day);
    VisitsAddUp(attempts, cap, day);
    CutOrWhole(lengths, cap);
    CappedIsLess(lengths, cap);
    if |lengths| == 1 {
      assert lengths[..0] == [];
    }
  }

  lemma {:induction false} CappedIsLess(lengths: seq<nat>, cap: nat)
    ensures Capped(lengths, cap) <= Sum(lengths)
  {
    if lengths != [] {
      CappedIsLess(lengths[..|lengths| - 1], cap);
    }
  }

  /** For every clock whatsoever: each time the clock arrives at a day, it brings what it stays up to the cap, and so
      `cap` at most. */
  lemma CapPerVisit(attempts: seq<Day>, cap: nat, day: Day)
    ensures GrantsOn(Replay(attempts, cap).1, day) == Capped(VisitLengths(attempts, day), cap)
    ensures GrantsOn(Replay(attempts, cap).1, day) <= cap * Visits(attempts, day)
  {
    GrantsAreExact(attempts, cap, day);
    VisitsAddUp(attempts, cap, day);
    if cap == 0 {
      NothingCapped(VisitLengths(attempts, day));
    } else {
      CutOrWhole(VisitLengths(attempts, day), cap);
    }
  }

  lemma {:induction false} NothingCapped(lengths: seq<nat>)
    ensures Capped(lengths, 0) == 0
  {
    if lengths != [] {
      NothingCapped(lengths[..|lengths| - 1]);
    }
  }

  lemma {:induction false} OneVisit(attempts: seq<Day>, day: Day)
    requires NeverBack(attempts)
    ensures Visits(attempts, day) <= 1
    ensures attempts != [] && attempts[|attempts| - 1] < day ==> Visits(attempts, day) == 0
  {
    if attempts != [] {
      var n := |attempts| - 1;
      OneVisit(attempts[..n], day);
      if n > 0 {
        assert attempts[..n][n - 1] == attempts[n - 1] && attempts[n - 1] <= attempts[n];
      }
    }
  }

  /** The daily cap, for a clock that never goes back. */
  lemma DailyCap(attempts: seq<Day>, cap: nat, day: Day)
    requires NeverBack(attempts)
    ensures GrantsOn(Replay(attempts, cap).1, day) <= cap
  {
    CapPerVisit(attempts, cap, day);
    OneVisit(attempts, day);
    assert cap * Visits(attempts, day) <= cap;
  }

  /** The cap is used up, the clock leaves the day and comes back. */
  function BackAgain(cap: nat, day: Day, other: Day): seq<Day> {
    seq(cap, _ => day) + [other, day]
  }

  /** A clock that goes back breaks every cap: the count of the day was deleted in between. */
  lemma BackwardsClockBreaksTheCap(cap: nat, day: Day, other: Day)
    requires cap >= 1 && day != other
    ensures GrantsOn(Replay(BackAgain(cap, day, other), cap).1, day) == cap + 1
  {
    var all := BackAgain(cap, day, other);
    GrantsAreExact(all, cap, day);
    var still := seq(cap, _ => day);
    StandingStill(cap, cap, day);
    assert all[..cap + 1] == still + [other] && (still + [other])[..cap] == still;
    assert all[|all| - 2] == other && Stay(all) == 1;
  }

  lemma {:induction false} StandingStill(n: nat, cap: nat, day: Day)
    requires n <= cap
    ensures InVisits(seq(n, _ => day), cap, day) == n == Stay(seq(n, _ => day))
  {
    if n > 0 {
      assert seq(n, _ => day)[..n - 1] == seq(n - 1, _ => day);
      StandingStill(n - 1, cap, day);
    }
  }

  /** The smallest cap of the write jobs: six actions are granted on day 1. */
  lemma SixOfFive()
    ensures GrantsOn(Replay([1, 1, 1, 1, 1, 0, 1], 5).1, 1) == 6
  {
    BackwardsClockBreaksTheCap(5, 1, 0);
    assert BackAgain(5, 1, 0) == [1, 1, 1, 1, 1, 0, 1];
  }

  // ----- a counter beside other steps ------------------------------------------------------

  /** A day's number is what the history says, and no day of the history has more than its cap. */
  ghost predicate BookInv(store: Store, log: seq<Day>, day: Day, cap: nat) {
    && (forall d | d in store :: d <= day)
    && (forall i | 0 <= i < |log| :: log[i] <= day)
    && (forall d :: GrantsOn(log, d) <= cap)
    && Today(store, day) == GrantsOn(log, day)
  }

  lemma {:induction false} FutureDay(log: seq<Day>, day: Day)
    requires forall i | 0 <= i < |log| :: log[i] < day
    ensures GrantsOn(log, day) == 0
  {
    if log != [] {
      FutureDay(log[..|log| - 1], day);
    }
  }

  lemma CountKeeps(store: Store, log: seq<Day>, day: Day, cap: nat)
    requires BookInv(store, log, day, cap)
    ensures var (after, granted) := Count(store, day, cap);
            BookInv(after, if granted then log + [day] else log, day, cap)
  {
    forall d ensures GrantsOn(log + [day], d) == GrantsOn(log, d) + if day == d then 1 else 0 {
      GrantedAppend(log, day, d);
    }
  }

  lemma NextDayKeeps(store: Store, log: seq<Day>, day: Day, next: Day, cap: nat)
    requires BookInv(store, log, day, cap) && day <= next
    ensures BookInv(store, log, next, cap)
  {
    if day < next {
      FutureDay(log, next);
    }
  }
}
