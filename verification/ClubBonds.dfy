/** Unstaking and its bonds: the immediate withdrawal drains matured bonds greedily, newest second
    first, and over every run no token leaves before it was bonded for the full duration. */
module ClubBonds {
  import opened Chain
  import opened ClubStaking

  // The sort.

  predicate NewestSecondsFirst(bonds: seq<Bond>) {
    forall i, j :: 0 <= i < j < |bonds| ==> bonds[i].Second() >= bonds[j].Second()
  }

  /** The bonds of one second, in order. */
  function AtSecond(bonds: seq<Bond>, second: nat): seq<Bond> {
    if bonds == [] then [] else
      var rest := AtSecond(bonds[..|bonds| - 1], second);
      if bonds[|bonds| - 1].Second() == second then rest + [bonds[|bonds| - 1]] else rest
  }

  lemma {:induction false} InsertKeepsAll(sorted: seq<Bond>, b: Bond)
    ensures multiset(Insert(sorted, b)) == multiset(sorted) + multiset{b}
  {
    if sorted != [] && sorted[|sorted| - 1].Second() < b.Second() {
      var n := |sorted| - 1;
      InsertKeepsAll(sorted[..n], b);
      assert sorted == sorted[..n] + [sorted[n]];
    }
  }

  lemma {:induction false} InsertSorted(sorted: seq<Bond>, b: Bond)
    requires NewestSecondsFirst(sorted)
    ensures NewestSecondsFirst(Insert(sorted, b))
  {
    if sorted != [] && sorted[|sorted| - 1].Second() < b.Second() {
      var n := |sorted| - 1;
      InsertSorted(sorted[..n], b);
      InsertKeepsAll(sorted[..n], b);
      var front := Insert(sorted[..n], b);
      forall i | 0 <= i < |front| ensures front[i].Second() >= sorted[n].Second() {
        assert front[i] in multiset(front);
        assert front[i] in multiset(sorted[..n]) + multiset{b};
      }
      OlderAtTheEnd(front, sorted[n]);
    }
  }

  lemma OlderAtTheEnd(front: seq<Bond>, last: Bond)
    requires NewestSecondsFirst(front) && forall i :: 0 <= i < |front| ==> front[i].Second() >= last.Second()
    ensures NewestSecondsFirst(front + [last])
  {
  }

  lemma {:induction false} InsertStable(sorted: seq<Bond>, b: Bond, second: nat)
    requires NewestSecondsFirst(sorted)
    ensures AtSecond(Insert(sorted, b), second) == AtSecond(sorted + [b], second)
  {
    assert (sorted + [b])[..|sorted|] == sorted;
    if sorted != [] && sorted[|sorted| - 1].Second() < b.Second() {
      var n := |sorted| - 1;
      var front := Insert(sorted[..n], b);
      InsertStable(sorted[..n], b, second);
      assert (front + [sorted[n]])[..|front|] == front;
      assert (sorted[..n] + [b])[..n] == sorted[..n];
    }
  }

  lemma {:induction false} SortKeepsAll(bonds: seq<Bond>)
    ensures multiset(NewestFirst(bonds)) == multiset(bonds)
  {
    if bonds != [] {
      var n := |bonds| - 1;
      SortKeepsAll(bonds[..n]);
      InsertKeepsAll(NewestFirst(bonds[..n]), bonds[n]);
      assert multiset(bonds) == multiset(bonds[..n]) + multiset{bonds[n]} by {
        assert bonds == bonds[..n] + [bonds[n]];
      }
    }
  }

  lemma {:induction false} SortSorts(bonds: seq<Bond>)
    ensures NewestSecondsFirst(NewestFirst(bonds))
  {
    if bonds != [] {
      SortSorts(bonds[..|bonds| - 1]);
      InsertSorted(NewestFirst(bonds[..|bonds| - 1]), bonds[|bonds| - 1]);
    }
  }

  /** The sort keeps the order within every second. */
  lemma {:induction false} SortIsStable(bonds: seq<Bond>, second: nat)
    ensures AtSecond(NewestFirst(bonds), second) == AtSecond(bonds, second)
  {
    if bonds != [] {
      var n := |bonds| - 1;
      var front := NewestFirst(bonds[..n]);
      SortIsStable(bonds[..n], second);
      SortSorts(bonds[..n]);
      InsertStable(front, bonds[n], second);
      assert (front + [bonds[n]])[..|front|] == front;
    }
  }

  lemma {:induction false} SomeAtSecond(bonds: seq<Bond>, second: nat) returns (i: nat)
    requires AtSecond(bonds, second) != []
    ensures i < |bonds| && bonds[i].Second() == second
  {
    if bonds[|bonds| - 1].Second() == second {
      i := |bonds| - 1;
    } else {
      i := SomeAtSecond(bonds[..|bonds| - 1], second);
    }
  }

  /** A list that has bonds of the last second of another goes at least as far back. */
  lemma GoesAsFarBack(a: seq<Bond>, b: seq<Bond>)
    requires a != [] && NewestSecondsFirst(b)
    requires AtSecond(a, a[|a| - 1].Second()) == AtSecond(b, a[|a| - 1].Second())
    ensures b != [] && a[|a| - 1].Second() >= b[|b| - 1].Second()
  {
    var i := SomeAtSecond(b, a[|a| - 1].Second());
  }

  ghost predicate SameEverySecond(a: seq<Bond>, b: seq<Bond>) {
    forall second: nat :: AtSecond(a, second) == AtSecond(b, second)
  }

  /** Newest second first and the bonds of every second in a given order: there is only one such
      list. */
  lemma {:induction false} OnlyOneSuchList(a: seq<Bond>, b: seq<Bond>)
    requires NewestSecondsFirst(a) && NewestSecondsFirst(b) && SameEverySecond(a, b)
    ensures a == b
  {
    if a != [] {
      GoesAsFarBack(a, b);
    }
    if b != [] {
      GoesAsFarBack(b, a);
    }
    if a != [] && b != [] {
      LastsAgree(a, b);
      OnlyOneSuchList(a[..|a| - 1], b[..|b| - 1]);
      assert a == a[..|a| - 1] + [a[|a| - 1]] && b == b[..|b| - 1] + [b[|b| - 1]];
    }
  }

  lemma LastsAgree(a: seq<Bond>, b: seq<Bond>)
    requires a != [] && b != [] && SameEverySecond(a, b) && a[|a| - 1].Second() == b[|b| - 1].Second()
    ensures a[|a| - 1] == b[|b| - 1] && SameEverySecond(a[..|a| - 1], b[..|b| - 1])
  {
    var m, n := |a| - 1, |b| - 1;
    var oldest := a[m].Second();
    assert AtSecond(a, oldest) == AtSecond(b, oldest);
    SameEnds(AtSecond(a[..m], oldest), a[m], AtSecond(b[..n], oldest), b[n]);
    forall second: nat ensures AtSecond(a[..m], second) == AtSecond(b[..n], second) {
      assert AtSecond(a, second) == AtSecond(b, second);
    }
  }

  lemma SameEnds(a: seq<Bond>, x: Bond, b: seq<Bond>, y: Bond)
    requires a + [x] == b + [y]
    ensures a == b && x == y
  {
    assert |a + [x]| == |b + [y]|;
    assert (a + [x])[|a|] == (b + [y])[|b|];
    assert (a + [x])[..|a|] == a && (b + [y])[..|b|] == b;
  }

  lemma SortKeepsEverySecond(bonds: seq<Bond>)
    ensures SameEverySecond(NewestFirst(bonds), bonds)
  {
    forall second: nat ensures AtSecond(NewestFirst(bonds), second) == AtSecond(bonds, second) {
      SortIsStable(bonds, second);
    }
  }

  /** So the sort is the only list of these bonds with newer seconds first and the order within
      every second kept. */
  lemma TheSortIsTheOnlyOne(bonds: seq<Bond>, other: seq<Bond>)
    ensures other == NewestFirst(bonds) <==> NewestSecondsFirst(other) && SameEverySecond(other, bonds)
  {
    SortSorts(bonds);
    SortKeepsEverySecond(bonds);
    if NewestSecondsFirst(other) && SameEverySecond(other, bonds) {
      forall second: nat ensures AtSecond(other, second) == AtSecond(NewestFirst(bonds), second) {
        assert AtSecond(other, second) == AtSecond(bonds, second);
      }
      OnlyOneSuchList(other, NewestFirst(bonds));
    }
  }

  // The drain.

  /** Bonded for its whole duration, and then some. */
  predicate MaturedBy(b: Bond, now: nat) { b.start + b.duration * NANOS < now }

  function Total(bonds: seq<Bond>): nat {
    if bonds == [] then 0 else Total(bonds[..|bonds| - 1]) + bonds[|bonds| - 1].amount
  }

  function Matured(bonds: seq<Bond>, now: nat): seq<Bond> {
    if bonds == [] then [] else
      var rest := Matured(bonds[..|bonds| - 1], now);
      if MaturedBy(bonds[|bonds| - 1], now) then rest + [bonds[|bonds| - 1]] else rest
  }

  function Immature(bonds: seq<Bond>, now: nat): seq<Bond> {
    if bonds == [] then [] else
      var rest := Immature(bonds[..|bonds| - 1], now);
      if MaturedBy(bonds[|bonds| - 1], now) then rest else rest + [bonds[|bonds| - 1]]
  }

  predicate AllOf(bonds: seq<Bond>, staker: Addr) {
    forall b :: b in bonds ==> b.bonder == staker
  }

  /** No duration reaches back beyond time zero. */
  predicate CutsExist(bonds: seq<Bond>, now: nat) {
    forall b :: b in bonds ==> b.duration * NANOS <= now
  }

  /** The loop gets through exactly when the cut of every bond exists. */
  lemma {:induction false} DrainGetsThrough(bonds: seq<Bond>, staker: Addr, now: nat, amount: nat)
    requires AllOf(bonds, staker)
    ensures Drain(bonds, staker, now, amount).Ok? <==> CutsExist(bonds, now)
  {
    if bonds != [] {
      var n := |bonds| - 1;
      DrainGetsThrough(bonds[..n], staker, now, amount);
      assert CutsExist(bonds, now) <==> CutsExist(bonds[..n], now) && bonds[n].duration * NANOS <= now;
    }
  }

  lemma {:induction false} TotalAppend(a: seq<Bond>, b: Bond)
    ensures Total(a + [b]) == Total(a) + b.amount
  {
    assert (a + [b])[..|a|] == a;
  }

  /** The first `k` bonds taken, the rest as it was. */
  predicate TakesWhole(before: seq<Bond>, after: seq<Bond>, taken: nat, k: nat) {
    k <= |before| && after == before[k..] && taken == Total(before[..k])
  }

  /** The first `k` bonds taken, a part of the next one, the rest as it was. */
  predicate TakesPart(before: seq<Bond>, after: seq<Bond>, taken: nat, k: nat) {
    && k < |before| && |after| == |before| - k
    && Total(before[..k]) < taken < Total(before[..k]) + before[k].amount
    && after[0] == before[k].(amount := Total(before[..k]) + before[k].amount - taken)
    && after[1..] == before[k + 1..]
  }

  /** Taking from the front of a list with at most one bond left partial. */
  ghost predicate TakenFromFront(before: seq<Bond>, after: seq<Bond>, taken: nat) {
    || (exists k: nat :: TakesWhole(before, after, taken, k))
    || (exists k: nat :: TakesPart(before, after, taken, k))
  }

  lemma KeepMatured(bonds: seq<Bond>, b: Bond, now: nat)
    ensures Matured(bonds + [b], now) == Matured(bonds, now) + (if MaturedBy(b, now) then [b] else [])
    ensures Immature(bonds + [b], now) == Immature(bonds, now) + (if MaturedBy(b, now) then [] else [b])
  {
    assert (bonds + [b])[..|bonds|] == bonds;
  }

  lemma FrontGrows(before: seq<Bond>, after: seq<Bond>, taken: nat, b: Bond)
    requires TakenFromFront(before, after, taken)
    ensures TakenFromFront(before + [b], after + [b], taken)
  {
    var longer := before + [b];
    if k: nat :| TakesWhole(before, after, taken, k) {
      assert longer[..k] == before[..k] && longer[k..] == before[k..] + [b];
      assert TakesWhole(longer, after + [b], taken, k);
    } else {
      var k: nat :| TakesPart(before, after, taken, k);
      assert longer[..k] == before[..k] && longer[k] == before[k] && longer[k + 1..] == before[k + 1..] + [b];
      assert (after + [b])[1..] == after[1..] + [b];
      assert TakesPart(longer, after + [b], taken, k);
    }
  }

  lemma FrontTakesWhole(before: seq<Bond>, b: Bond)
    ensures TakenFromFront(before + [b], [], Total(before) + b.amount)
  {
    var longer := before + [b];
    TotalAppend(before, b);
    assert longer[..|longer|] == longer;
    assert TakesWhole(longer, [], Total(before) + b.amount, |longer|);
  }

  lemma FrontTakesPart(before: seq<Bond>, b: Bond, part: nat)
    requires 0 < part < b.amount
    ensures TakenFromFront(before + [b], [Remainder(b, part)], Total(before) + part)
  {
    var longer, k := before + [b], |before|;
    assert longer[..k] == before && longer[k] == b && longer[k + 1..] == [];
    assert TakesPart(longer, [Remainder(b, part)], Total(before) + part, k);
  }

  /** The bond with only its unused part left. */
  function Remainder(b: Bond, used: nat): Bond
    requires used < b.amount
  {
    b.(amount := b.amount - used)
  }

  /** One turn of the loop, by whether the bond has matured. */
  lemma OneTurn(d: Drained, b: Bond, staker: Addr, now: nat)
    requires b.bonder == staker && DrainStep(d, b, staker, now).Ok?
    ensures DrainStep(d, b, staker, now).value ==
              if !MaturedBy(b, now) || d.remaining == 0 then Drained(d.kept + [b], d.remaining)
              else if d.remaining < b.amount then Drained(d.kept + [Remainder(b, d.remaining)], 0)
              else Drained(d.kept, d.remaining - b.amount)
  {
  }

  lemma DrainUnfold(bonds: seq<Bond>, staker: Addr, now: nat, amount: nat)
    requires bonds != [] && Drain(bonds, staker, now, amount).Ok?
    ensures var n := |bonds| - 1;
            && Drain(bonds[..n], staker, now, amount).Ok?
            && DrainStep(Drain(bonds[..n], staker, now, amount).value, bonds[n], staker, now).Ok?
            && Drain(bonds, staker, now, amount).value ==
               DrainStep(Drain(bonds[..n], staker, now, amount).value, bonds[n], staker, now).value
  {
  }

  /** Every token taken is one token less in the bonds. */
  lemma {:induction false} DrainIsAccounted(bonds: seq<Bond>, staker: Addr, now: nat, amount: nat)
    requires AllOf(bonds, staker) && Drain(bonds, staker, now, amount).Ok?
    ensures var d := Drain(bonds, staker, now, amount).value;
            d.remaining <= amount && Total(d.kept) + (amount - d.remaining) == Total(bonds)
  {
    if bonds != [] {
      var n := |bonds| - 1;
      DrainUnfold(bonds, staker, now, amount);
      DrainIsAccounted(bonds[..n], staker, now, amount);
      var d, b := Drain(bonds[..n], staker, now, amount).value, bonds[n];
      OneTurn(d, b, staker, now);
      TotalAppend(d.kept, b);
      if d.remaining < b.amount {
        TotalAppend(d.kept, Remainder(b, d.remaining));
      }
    }
  }

  /** Every bond that has not matured is kept as it is, in order. */
  lemma {:induction false} DrainKeepsImmature(bonds: seq<Bond>, staker: Addr, now: nat, amount: nat)
    requires AllOf(bonds, staker) && Drain(bonds, staker, now, amount).Ok?
    ensures Immature(Drain(bonds, staker, now, amount).value.kept, now) == Immature(bonds, now)
  {
    if bonds != [] {
      var n := |bonds| - 1;
      DrainUnfold(bonds, staker, now, amount);
      DrainKeepsImmature(bonds[..n], staker, now, amount);
      var d, b := Drain(bonds[..n], staker, now, amount).value, bonds[n];
      OneTurn(d, b, staker, now);
      KeepMatured(d.kept, b, now);
      if d.remaining < b.amount {
        KeepMatured(d.kept, Remainder(b, d.remaining), now);
      }
    }
  }

  /** The state of the matured bonds while the loop runs: taken from the front, and all of them
      used up while something is still missing. */
  ghost predicate GreedySoFar(before: seq<Bond>, after: seq<Bond>, amount: nat, remaining: nat) {
    && remaining <= amount
    && TakenFromFront(before, after, amount - remaining)
    && (remaining > 0 ==> after == [] && amount - remaining == Total(before))
  }

  lemma GreedyStep(before: seq<Bond>, after: seq<Bond>, b: Bond, amount: nat, remaining: nat)
    requires GreedySoFar(before, after, amount, remaining)
    ensures remaining == 0 ==> GreedySoFar(before + [b], after + [b], amount, 0)
    ensures 0 < remaining < b.amount ==>
              GreedySoFar(before + [b], after + [Remainder(b, remaining)], amount, 0)
    ensures b.amount <= remaining && remaining > 0 ==>
              GreedySoFar(before + [b], after, amount, remaining - b.amount)
  {
    TotalAppend(before, b);
    if remaining == 0 {
      FrontGrows(before, after, amount, b);
    } else if remaining < b.amount {
      FrontTakesPart(before, b, remaining);
      assert after + [Remainder(b, remaining)] == [Remainder(b, remaining)];
    } else {
      FrontTakesWhole(before, b);
    }
  }

  lemma {:induction false} DrainIsGreedy(bonds: seq<Bond>, staker: Addr, now: nat, amount: nat)
    requires AllOf(bonds, staker) && Drain(bonds, staker, now, amount).Ok?
    ensures var d := Drain(bonds, staker, now, amount).value;
            GreedySoFar(Matured(bonds, now), Matured(d.kept, now), amount, d.remaining)
  {
    if bonds == [] {
      assert TakesWhole([], [], 0, 0);
    } else {
      var n := |bonds| - 1;
      DrainUnfold(bonds, staker, now, amount);
      DrainIsGreedy(bonds[..n], staker, now, amount);
      var d, b := Drain(bonds[..n], staker, now, amount).value, bonds[n];
      OneTurn(d, b, staker, now);
      GreedyStep(Matured(bonds[..n], now), Matured(d.kept, now), b, amount, d.remaining);
      KeepMatured(d.kept, b, now);
      if d.remaining < b.amount {
        KeepMatured(d.kept, Remainder(b, d.remaining), now);
      }
    }
  }

  // The immediate withdrawal.

  lemma {:induction false} LoweringByNothing(list: seq<Stake>, staker: Addr, auto: bool)
    ensures UpdatedStakes(list, staker, 0, auto, false) == Ok(list)
  {
    if list != [] {
      var n := |list| - 1;
      LoweringByNothing(list[..n], staker, auto);
      assert list[..n] + [list[n]] == list;
    }
  }

  lemma SavingNothing(s: Storage, now: nat, staker: Addr, club: string)
    requires club in s.clubs && (club, staker) in s.stakes
    ensures SaveStaking(s, now, staker, club, 0, DONT_CHANGE_AUTO_STAKE, false).Ok?
    ensures SaveStaking(s, now, staker, club, 0, DONT_CHANGE_AUTO_STAKE, false).value == s
  {
    LoweringByNothing(s.StakesOf(club, staker), staker, DONT_CHANGE_AUTO_STAKE);
    assert s.stakes[(club, staker) := s.stakes[(club, staker)]] == s.stakes;
    assert s.clubs[club := s.clubs[club]] == s.clubs;
  }

  /** Amounts of the bonds that satisfy a predicate. */
  function SumIf(bonds: seq<Bond>, p: Bond -> bool): nat {
    if bonds == [] then 0 else
      SumIf(bonds[..|bonds| - 1], p) + (if p(bonds[|bonds| - 1]) then bonds[|bonds| - 1].amount else 0)
  }

  lemma SumIfAppend(bonds: seq<Bond>, b: Bond, p: Bond -> bool)
    ensures SumIf(bonds + [b], p) == SumIf(bonds, p) + (if p(b) then b.amount else 0)
  {
    assert (bonds + [b])[..|bonds|] == bonds;
  }

  lemma {:induction false} InsertSumIf(sorted: seq<Bond>, b: Bond, p: Bond -> bool)
    ensures SumIf(Insert(sorted, b), p) == SumIf(sorted, p) + (if p(b) then b.amount else 0)
  {
    if sorted != [] && sorted[|sorted| - 1].Second() < b.Second() {
      var n := |sorted| - 1;
      InsertSumIf(sorted[..n], b, p);
      SumIfAppend(Insert(sorted[..n], b), sorted[n], p);
    } else {
      SumIfAppend(sorted, b, p);
    }
  }

  lemma {:induction false} SortSumIf(bonds: seq<Bond>, p: Bond -> bool)
    ensures SumIf(NewestFirst(bonds), p) == SumIf(bonds, p)
  {
    if bonds != [] {
      SortSumIf(bonds[..|bonds| - 1], p);
      InsertSumIf(NewestFirst(bonds[..|bonds| - 1]), bonds[|bonds| - 1], p);
    }
  }

  lemma {:induction false} TotalIsSumIf(bonds: seq<Bond>, now: nat)
    ensures Total(bonds) == SumIf(bonds, b => true)
    ensures Total(Matured(bonds, now)) == SumIf(bonds, b => MaturedBy(b, now))
  {
    if bonds != [] {
      TotalIsSumIf(bonds[..|bonds| - 1], now);
      TotalAppend(Matured(bonds[..|bonds| - 1], now), bonds[|bonds| - 1]);
    }
  }

  lemma SortKeepsTotals(bonds: seq<Bond>, now: nat)
    ensures Total(NewestFirst(bonds)) == Total(bonds)
    ensures Total(Matured(NewestFirst(bonds), now)) == Total(Matured(bonds, now))
  {
    TotalIsSumIf(bonds, now);
    TotalIsSumIf(NewestFirst(bonds), now);
    SortSumIf(bonds, b => true);
    SortSumIf(bonds, b => MaturedBy(b, now));
  }

  lemma SortKeepsMembers(bonds: seq<Bond>)
    ensures forall b :: b in NewestFirst(bonds) <==> b in bonds
  {
    SortKeepsAll(bonds);
    forall b ensures b in NewestFirst(bonds) <==> b in bonds {
      assert b in NewestFirst(bonds) <==> b in multiset(NewestFirst(bonds));
      assert b in bonds <==> b in multiset(bonds);
    }
  }

  lemma {:induction false} PrefixTotal(bonds: seq<Bond>, k: nat)
    requires k <= |bonds|
    ensures Total(bonds[..k]) <= Total(bonds)
    ensures k < |bonds| ==> Total(bonds[..k]) + bonds[k].amount <= Total(bonds)
  {
    var n := |bonds| - 1;
    if k < n {
      PrefixTotal(bonds[..n], k);
      assert bonds[..n][..k] == bonds[..k];
    } else if k == |bonds| {
      assert bonds[..k] == bonds;
    }
  }

  lemma TakenAtMostAll(before: seq<Bond>, after: seq<Bond>, taken: nat)
    requires TakenFromFront(before, after, taken)
    ensures taken <= Total(before)
  {
    if k: nat :| TakesWhole(before, after, taken, k) {
      PrefixTotal(before, k);
    } else {
      var k: nat :| TakesPart(before, after, taken, k);
      PrefixTotal(before, k);
    }
  }

  /** Every bond is filed under its bonder with the configured duration, and within the limit. */
  predicate BondsFiled(cfg: Config, s: Storage) {
    forall k :: k in s.bonds ==>
      && |s.bonds[k]| <= cfg.maxBonds
      && forall b :: b in s.bonds[k] ==> b.bonder == k.1 && b.duration == cfg.bondingDuration
  }

  /** Whether the checks before the bonds are looked at are passed. */
  predicate MayEncash(s: Storage, c: Call)
    requires c.msg.Withdraw?
  {
    && c.msg.immediate && c.sender == c.msg.staker && c.feesPaid && c.delivered
    && (c.msg.club, c.msg.staker) in s.stakes
    && HasStake(s.StakesOf(c.msg.club, c.msg.staker), c.msg.staker)
    && c.msg.club in s.clubs
  }

  lemma DrainFinishes(bonds: seq<Bond>, staker: Addr, now: nat, amount: nat)
    requires AllOf(bonds, staker) && Drain(bonds, staker, now, amount).Ok?
    ensures var d := Drain(bonds, staker, now, amount).value;
            && (d.remaining == 0 <==> amount <= Total(Matured(bonds, now)))
            && (d.remaining == 0 ==>
                  && Total(d.kept) + amount == Total(bonds)
                  && Immature(d.kept, now) == Immature(bonds, now)
                  && TakenFromFront(Matured(bonds, now), Matured(d.kept, now), amount))
  {
    DrainIsAccounted(bonds, staker, now, amount);
    DrainKeepsImmature(bonds, staker, now, amount);
    DrainIsGreedy(bonds, staker, now, amount);
    var d := Drain(bonds, staker, now, amount).value;
    TakenAtMostAll(Matured(bonds, now), Matured(d.kept, now), amount - d.remaining);
  }

  /** What the loop makes of a list as it is filed, in any order. */
  lemma DrainOutcome(bonds: seq<Bond>, staker: Addr, now: nat, amount: nat)
    requires AllOf(bonds, staker)
    ensures var r := Drain(NewestFirst(bonds), staker, now, amount);
            && (r.Ok? <==> CutsExist(bonds, now))
            && (r.Ok? ==> (r.value.remaining == 0 <==> amount <= Total(Matured(bonds, now))))
            && (r.Ok? && r.value.remaining == 0 ==>
                  && Total(r.value.kept) + amount == Total(bonds)
                  && Immature(r.value.kept, now) == Immature(NewestFirst(bonds), now)
                  && TakenFromFront(Matured(NewestFirst(bonds), now), Matured(r.value.kept, now), amount))
  {
    SortKeepsMembers(bonds);
    SortKeepsTotals(bonds, now);
    DrainGetsThrough(NewestFirst(bonds), staker, now, amount);
    if Drain(NewestFirst(bonds), staker, now, amount).Ok? {
      DrainFinishes(NewestFirst(bonds), staker, now, amount);
    }
  }

  lemma EncashOutcome(cfg: Config, s: Storage, c: Call)
    requires c.msg.Withdraw? && MayEncash(s, c)
    ensures var r := Drain(NewestFirst(s.BondsOf(c.msg.club, c.msg.staker)), c.msg.staker, c.now, c.msg.amount);
            && (Exec(cfg, s, c).Ok? <==> r.Ok? && r.value.remaining == 0)
            && (Exec(cfg, s, c).Ok? ==>
                  Exec(cfg, s, c).value == s.(bonds := s.bonds[(c.msg.club, c.msg.staker) := r.value.kept]))
  {
    var m := c.msg;
    var r := Drain(NewestFirst(s.BondsOf(m.club, m.staker)), m.staker, c.now, m.amount);
    if r.Ok? {
      SavingNothing(s.(bonds := s.bonds[(m.club, m.staker) := r.value.kept]), c.now, m.staker, m.club);
    }
  }

  /** The immediate withdrawal as a whole: it succeeds exactly when the matured bonds add up to the
      amount; then the bonds are less by exactly the amount, unmatured bonds are untouched, matured
      ones are used newest second first with at most one left partial, and the stakes, the clubs
      and everybody else's bonds are as they were. */
  lemma ImmediateWithdrawal(cfg: Config, s: Storage, c: Call)
    requires BondsFiled(cfg, s) && c.msg.Withdraw? && MayEncash(s, c)
    ensures var bonds := s.BondsOf(c.msg.club, c.msg.staker);
            Exec(cfg, s, c).Ok? <==> CutsExist(bonds, c.now) && c.msg.amount <= Total(Matured(bonds, c.now))
    ensures Exec(cfg, s, c).Ok? ==>
              var t := Exec(cfg, s, c).value;
              var bonds := s.BondsOf(c.msg.club, c.msg.staker);
              var after := t.BondsOf(c.msg.club, c.msg.staker);
              && t == s.(bonds := s.bonds[(c.msg.club, c.msg.staker) := after])
              && Total(after) + c.msg.amount == Total(bonds)
              && Immature(after, c.now) == Immature(NewestFirst(bonds), c.now)
              && TakenFromFront(Matured(NewestFirst(bonds), c.now), Matured(after, c.now), c.msg.amount)
  {
    DrainOutcome(s.BondsOf(c.msg.club, c.msg.staker), c.msg.staker, c.now, c.msg.amount);
    EncashOutcome(cfg, s, c);
  }

  // Over every run.

  predicate Unstakes(c: Call, k: Key) {
    c.msg.Withdraw? && !c.msg.immediate && (c.msg.club, c.msg.staker) == k
  }

  predicate Encashes(c: Call, k: Key) {
    c.msg.Withdraw? && c.msg.immediate && (c.msg.club, c.msg.staker) == k
  }

  /** Everything a run unstaked before a point in time, and everything it paid out. */
  function UnstakedBefore(cfg: Config, s: Storage, calls: seq<Call>, k: Key, time: int): nat {
    if calls == [] then 0 else
      var n := |calls| - 1;
      UnstakedBefore(cfg, s, calls[..n], k, time) +
      (if Unstakes(calls[n], k) && calls[n].now < time && Exec(cfg, Run(cfg, s, calls[..n]), calls[n]).Ok?
       then calls[n].msg.amount else 0)
  }

  function PaidOut(cfg: Config, s: Storage, calls: seq<Call>, k: Key): nat {
    if calls == [] then 0 else
      var n := |calls| - 1;
      PaidOut(cfg, s, calls[..n], k) +
      (if Encashes(calls[n], k) && Exec(cfg, Run(cfg, s, calls[..n]), calls[n]).Ok? then calls[n].msg.amount else 0)
  }

  function StartedBefore(time: int): Bond -> bool { (b: Bond) => b.start < time }

  /** Draining lowers every sum that covers at least the matured bonds by what it took. */
  lemma {:induction false} DrainSumIf(bonds: seq<Bond>, staker: Addr, now: nat, amount: nat, time: int)
    requires AllOf(bonds, staker) && Drain(bonds, staker, now, amount).Ok?
    requires forall b :: b in bonds && MaturedBy(b, now) ==> b.start < time
    ensures var d := Drain(bonds, staker, now, amount).value;
            && d.remaining <= amount
            && SumIf(d.kept, StartedBefore(time)) + (amount - d.remaining) == SumIf(bonds, StartedBefore(time))
  {
    if bonds != [] {
      var n := |bonds| - 1;
      DrainUnfold(bonds, staker, now, amount);
      DrainSumIf(bonds[..n], staker, now, amount, time);
      var d, b := Drain(bonds[..n], staker, now, amount).value, bonds[n];
      OneTurn(d, b, staker, now);
      SumIfAppend(d.kept, b, StartedBefore(time));
      if d.remaining < b.amount {
        SumIfAppend(d.kept, Remainder(b, d.remaining), StartedBefore(time));
      }
    }
  }

  lemma {:induction false} DrainKeepsFiling(bonds: seq<Bond>, staker: Addr, now: nat, amount: nat, duration: nat)
    requires Drain(bonds, staker, now, amount).Ok?
    requires forall b :: b in bonds ==> b.bonder == staker && b.duration == duration
    ensures var d := Drain(bonds, staker, now, amount).value;
            && |d.kept| <= |bonds|
            && forall b :: b in d.kept ==> b.bonder == staker && b.duration == duration
  {
    if bonds != [] {
      var n := |bonds| - 1;
      DrainUnfold(bonds, staker, now, amount);
      DrainKeepsFiling(bonds[..n], staker, now, amount, duration);
      OneTurn(Drain(bonds[..n], staker, now, amount).value, bonds[n], staker, now);
    }
  }

  lemma SavingKeepsBonds(s: Storage, now: nat, staker: Addr, club: string, amount: nat, auto: bool)
    requires SaveStaking(s, now, staker, club, amount, auto, true).Ok?
    ensures SaveStaking(s, now, staker, club, amount, auto, true).value.bonds == s.bonds
  {
  }

  lemma HandingOverKeepsBonds(cfg: Config, s: Storage, now: nat, buyer: Addr, seller: Addr, club: string, auto: bool)
    requires HandOver(cfg, s, now, buyer, seller, club, auto).Ok?
    ensures HandOver(cfg, s, now, buyer, seller, club, auto).value.bonds == s.bonds
  {
  }

  lemma PayingKeepsBonds(cfg: Config, s: Storage, now: nat, saved: nat, stakers: seq<Addr>, club: string, isFinal: bool)
    requires PayBatch(cfg, s, now, saved, stakers, club, isFinal).Ok?
    ensures PayBatch(cfg, s, now, saved, stakers, club, isFinal).value.bonds == s.bonds
  {
  }

  lemma DistributingKeepsBonds(cfg: Config, s: Storage, c: Call)
    requires c.msg.Distribute? && Distributing(cfg, s, c).Ok?
    ensures Distributing(cfg, s, c).value.bonds == s.bonds
  {
    var timed := s.(nextTime := NextTime(cfg, s, c.now, c.msg.isFinal).value);
    if s.reward != 0 {
      var known := if c.msg.isFirst then FindWinners(timed).value else timed;
      PayingKeepsBonds(cfg, known, c.now, s.nextTime, c.msg.stakers, c.msg.club, c.msg.isFinal);
    }
  }

  lemma {:induction false} OthersKeepBonds(cfg: Config, s: Storage, c: Call)
    requires Exec(cfg, s, c).Ok? && !c.msg.Withdraw?
    ensures Exec(cfg, s, c).value.bonds == s.bonds
  {
    match c.msg
    case StakeOnAClub(staker, club, amount, auto) => SavingKeepsBonds(s, c.now, staker, club, amount, auto);
    case AssignStakes(list, club) => AssigningKeepsBonds(s, c.now, list, club);
    case BuyAClub(buyer, seller, club, auto) => HandingOverKeepsBonds(cfg, s, c.now, buyer, seller, club, auto);
    case AssignAClub(buyer, seller, club, auto) => HandingOverKeepsBonds(cfg, s, c.now, buyer, seller, club, auto);
    case Distribute(_, _, _, _) => DistributingKeepsBonds(cfg, s, c);
    case _ =>
  }

  /** The bonds before and after an accepted withdrawal. */
  predicate BondsMoved(cfg: Config, s: Storage, t: Storage, c: Call)
    requires c.msg.Withdraw?
  {
    var k := (c.msg.club, c.msg.staker);
    var list := s.BondsOf(c.msg.club, c.msg.staker);
    var drained := Drain(NewestFirst(list), c.msg.staker, c.now, c.msg.amount);
    if c.msg.immediate then
      drained.Ok? && drained.value.remaining == 0 && t.bonds == s.bonds[k := drained.value.kept]
    else
      && |list| < cfg.maxBonds
      && t.bonds == s.bonds[k := list + [Bond(c.msg.staker, c.now, c.msg.amount, cfg.bondingDuration)]]
  }

  lemma EncashingEffect(cfg: Config, s: Storage, c: Call)
    requires c.msg.Withdraw? && c.msg.immediate && Encashing(s, c).Ok?
    ensures BondsMoved(cfg, s, Encashing(s, c).value, c)
  {
  }

  lemma UnstakingEffect(cfg: Config, s: Storage, c: Call)
    requires c.msg.Withdraw? && !c.msg.immediate && Unstaking(cfg, s, c).Ok?
    ensures BondsMoved(cfg, s, Unstaking(cfg, s, c).value, c)
  {
  }

  lemma WithdrawalEffect(cfg: Config, s: Storage, c: Call)
    requires c.msg.Withdraw? && Withdrawing(cfg, s, c).Ok?
    ensures BondsMoved(cfg, s, Withdrawing(cfg, s, c).value, c)
  {
    if c.msg.immediate {
      EncashingEffect(cfg, s, c);
    } else {
      UnstakingEffect(cfg, s, c);
    }
  }

  /** What an accepted message does to the bonds. */
  lemma BondEffect(cfg: Config, s: Storage, c: Call)
    requires Exec(cfg, s, c).Ok?
    ensures if c.msg.Withdraw? then BondsMoved(cfg, s, Exec(cfg, s, c).value, c)
            else Exec(cfg, s, c).value.bonds == s.bonds
  {
    if c.msg.Withdraw? {
      WithdrawalEffect(cfg, s, c);
    } else {
      OthersKeepBonds(cfg, s, c);
    }
  }

  lemma {:induction false} AssigningKeepsBonds(s: Storage, now: nat, list: seq<Assigned>, club: string)
    requires AssignAll(s, now, list, club).Ok?
    ensures AssignAll(s, now, list, club).value.bonds == s.bonds
  {
    if list != [] {
      AssigningKeepsBonds(s, now, list[..|list| - 1], club);
    }
  }

  lemma {:induction false} BondsStayFiled(cfg: Config, s: Storage, c: Call)
    requires BondsFiled(cfg, s) && Exec(cfg, s, c).Ok?
    ensures BondsFiled(cfg, Exec(cfg, s, c).value)
  {
    BondEffect(cfg, s, c);
    if c.msg.Withdraw? && c.msg.immediate {
      var list := s.BondsOf(c.msg.club, c.msg.staker);
      SortKeepsMembers(list);
      SortKeepsAll(list);
      assert |NewestFirst(list)| == |multiset(NewestFirst(list))| == |multiset(list)| == |list|;
      DrainKeepsFiling(NewestFirst(list), c.msg.staker, c.now, c.msg.amount, cfg.bondingDuration);
    }
  }

  lemma {:induction false} RunBondsFiled(cfg: Config, s: Storage, calls: seq<Call>)
    requires BondsFiled(cfg, s)
    ensures BondsFiled(cfg, Run(cfg, s, calls))
  {
    if calls != [] {
      var n := |calls| - 1;
      RunBondsFiled(cfg, s, calls[..n]);
      if Exec(cfg, Run(cfg, s, calls[..n]), calls[n]).Ok? {
        BondsStayFiled(cfg, Run(cfg, s, calls[..n]), calls[n]);
      }
    }
  }

  /** One message against a point in time that lies at least the bonding duration before it. */
  lemma BondStep(cfg: Config, s: Storage, c: Call, k: Key, time: int)
    requires BondsFiled(cfg, s) && Exec(cfg, s, c).Ok?
    requires c.now - cfg.bondingDuration * NANOS <= time
    ensures SumIf(Exec(cfg, s, c).value.BondsOf(k.0, k.1), StartedBefore(time))
            == SumIf(s.BondsOf(k.0, k.1), StartedBefore(time))
               + (if Unstakes(c, k) && c.now < time then c.msg.amount else 0)
               - (if Encashes(c, k) then c.msg.amount else 0)
  {
    BondEffect(cfg, s, c);
    var list := s.BondsOf(k.0, k.1);
    if Encashes(c, k) {
      SortKeepsMembers(list);
      SortSumIf(list, StartedBefore(time));
      DrainSumIf(NewestFirst(list), k.1, c.now, c.msg.amount, time);
    } else if Unstakes(c, k) {
      SumIfAppend(list, Bond(c.msg.staker, c.now, c.msg.amount, cfg.bondingDuration), StartedBefore(time));
    }
  }

  /** For every point in time that no call of the run lies more than the bonding duration after:
      what was paid out and what is still bonded from before it is what was unstaked before it. */
  lemma {:induction false} BondsFollowUnstaking(cfg: Config, s: Storage, calls: seq<Call>, k: Key, time: int)
    requires s.bonds == map[]
    requires forall i :: 0 <= i < |calls| ==> calls[i].now - cfg.bondingDuration * NANOS <= time
    ensures PaidOut(cfg, s, calls, k) + SumIf(Run(cfg, s, calls).BondsOf(k.0, k.1), StartedBefore(time))
            == UnstakedBefore(cfg, s, calls, k, time)
  {
    if calls != [] {
      var n := |calls| - 1;
      BondsFollowUnstaking(cfg, s, calls[..n], k, time);
      RunBondsFiled(cfg, s, calls[..n]);
      if Exec(cfg, Run(cfg, s, calls[..n]), calls[n]).Ok? {
        BondStep(cfg, Run(cfg, s, calls[..n]), calls[n], k, time);
      }
    }
  }

  /** No token is paid out before it was bonded for the full duration, in any run from an empty
      contract: whatever has been paid by `now` was unstaked more than the duration before. */
  lemma PayoutsWereBondedLongEnough(cfg: Config, nextTime: nat, calls: seq<Call>, k: Key, now: nat)
    requires forall i :: 0 <= i < |calls| ==> calls[i].now <= now
    ensures PaidOut(cfg, Genesis(nextTime), calls, k)
            <= UnstakedBefore(cfg, Genesis(nextTime), calls, k, now - cfg.bondingDuration * NANOS)
  {
    BondsFollowUnstaking(cfg, Genesis(nextTime), calls, k, now - cfg.bondingDuration * NANOS);
  }

  lemma {:induction false} AllStartedBefore(bonds: seq<Bond>, time: int)
    requires forall b :: b in bonds ==> b.start < time
    ensures SumIf(bonds, StartedBefore(time)) == Total(bonds)
  {
    if bonds != [] {
      AllStartedBefore(bonds[..|bonds| - 1], time);
    }
  }

  lemma {:induction false} BondsStartInTheRun(cfg: Config, s: Storage, calls: seq<Call>, k: Key, now: nat)
    requires s.bonds == map[] && forall i :: 0 <= i < |calls| ==> calls[i].now <= now
    ensures forall b :: b in Run(cfg, s, calls).BondsOf(k.0, k.1) ==> b.start <= now
  {
    if calls != [] {
      var n := |calls| - 1;
      BondsStartInTheRun(cfg, s, calls[..n], k, now);
      var before := Run(cfg, s, calls[..n]);
      if Exec(cfg, before, calls[n]).Ok? {
        BondEffect(cfg, before, calls[n]);
        if Encashes(calls[n], k) {
          SortKeepsMembers(before.BondsOf(k.0, k.1));
          DrainKeepsStarts(NewestFirst(before.BondsOf(k.0, k.1)), k.1, calls[n].now, calls[n].msg.amount, now);
        }
      }
    }
  }

  lemma {:induction false} DrainKeepsStarts(bonds: seq<Bond>, staker: Addr, now: nat, amount: nat, latest: nat)
    requires Drain(bonds, staker, now, amount).Ok? && forall b :: b in bonds ==> b.start <= latest
    ensures forall b :: b in Drain(bonds, staker, now, amount).value.kept ==> b.start <= latest
  {
    if bonds != [] {
      DrainUnfold(bonds, staker, now, amount);
      DrainKeepsStarts(bonds[..|bonds| - 1], staker, now, amount, latest);
    }
  }

  /** The bonds outstanding are exactly what was unstaked and not yet paid out, and never more of
      them than the limit. */
  lemma OutstandingBonds(cfg: Config, nextTime: nat, calls: seq<Call>, k: Key, now: nat)
    requires forall i :: 0 <= i < |calls| ==> calls[i].now <= now
    ensures var bonds := Run(cfg, Genesis(nextTime), calls).BondsOf(k.0, k.1);
            && PaidOut(cfg, Genesis(nextTime), calls, k) + Total(bonds)
               == UnstakedBefore(cfg, Genesis(nextTime), calls, k, now + 1)
            && |bonds| <= cfg.maxBonds
  {
    BondsFollowUnstaking(cfg, Genesis(nextTime), calls, k, now + 1);
    BondsStartInTheRun(cfg, Genesis(nextTime), calls, k, now);
    AllStartedBefore(Run(cfg, Genesis(nextTime), calls).BondsOf(k.0, k.1), now + 1);
    RunBondsFiled(cfg, Genesis(nextTime), calls);
  }
}
