/** What a round gives, from both sides: 78% of the reward by the staked amounts over the snapshot's
    total, 19% by the winners' over what the winning clubs would hold if all held the most, and 3%
    for owners, less rounding. */
module ClubWeights {
  import opened Chain
  import opened ClubStaking
  import opened ClubRewards
  import Sums

  // Shares as real numbers.

  /** A share of nothing is nothing, as the contract's checked division has it. */
  ghost function Ratio(a: int, b: int): real {
    if b == 0 then 0.0 else a as real / b as real
  }

  /** What a pot owes to an amount of a total. */
  ghost function Share(pot: int, amount: int, total: int): real { pot as real * Ratio(amount, total) }

  lemma RatioTimes(a: int, b: int)
    requires b != 0
    ensures Ratio(a, b) * b as real == a as real
  {
  }

  lemma RealProduct(a: int, b: int)
    ensures (a * b) as real == a as real * b as real
  {
  }

  lemma CancelReal(a: real, b: real, c: real)
    requires a * c <= b * c && c > 0.0
    ensures a <= b
  {
  }

  lemma AtMostRatio(sum: int, total: int, pot: int, amount: int)
    requires total > 0 && sum * total <= pot * amount
    ensures sum as real <= Share(pot, amount, total)
  {
    RatioTimes(amount, total);
    RealProduct(sum, total);
    RealProduct(pot, amount);
    var r, t := Ratio(amount, total), total as real;
    assert pot as real * r * t == pot as real * (r * t);
    CancelReal(sum as real, pot as real * r, t);
  }

  lemma AtLeastRatio(sum: int, total: int, pot: int, amount: int, count: int)
    requires total > 0 && count >= 0 && sum * total >= pot * amount - count * (total - 1)
    ensures sum as real >= Share(pot, amount, total) - count as real
  {
    assert (sum + count) * total >= pot * amount by {
      assert (sum + count) * total == sum * total + count * total;
      assert count * (total - 1) == count * total - count;
    }
    RatioTimes(amount, total);
    RealProduct(sum + count, total);
    RealProduct(pot, amount);
    var r, t := Ratio(amount, total), total as real;
    assert pot as real * r * t == pot as real * (r * t);
    CancelReal(pot as real * r, (sum + count) as real, t);
  }

  lemma PortionsBelow(pot: nat, total: nat, lines: seq<Line>)
    ensures Sums.SeqSum(lines, Portion(pot, total)) as real <= Share(pot, Sums.SeqSum(lines, Amount()), total)
  {
    var sum, amount := Sums.SeqSum(lines, Portion(pot, total)), Sums.SeqSum(lines, Amount());
    PortionsTimesTotal(pot, total, lines);
    if total > 0 {
      AtMostRatio(sum, total, pot, amount);
    }
  }

  lemma PortionsAbove(pot: nat, total: nat, lines: seq<Line>)
    requires forall l :: l in lines ==> Fits(pot * l.amount)
    ensures Sums.SeqSum(lines, Portion(pot, total)) as real
            >= Share(pot, Sums.SeqSum(lines, Amount()), total) - |lines| as real
  {
    var sum, amount := Sums.SeqSum(lines, Portion(pot, total)), Sums.SeqSum(lines, Amount());
    if total > 0 {
      PortionsMiss(pot, total, lines);
      AtLeastRatio(sum, total, pot, amount, |lines|);
    } else {
      PortionsTimesTotal(pot, total, lines);
    }
  }

  /** Portions of a pot add up to the pot's share of the amounts, at most one unit below it per
      stake. */
  lemma PortionsAreTheirShare(pot: nat, total: nat, lines: seq<Line>)
    ensures var sum, share := Sums.SeqSum(lines, Portion(pot, total)), Share(pot, Sums.SeqSum(lines, Amount()), total);
            && sum as real <= share
            && ((forall l :: l in lines ==> Fits(pot * l.amount)) ==> share - |lines| as real <= sum as real)
  {
    PortionsBelow(pot, total, lines);
    if forall l :: l in lines ==> Fits(pot * l.amount) {
      PortionsAbove(pot, total, lines);
    }
  }

  // The winners' part.

  function WinningLines(lines: seq<Line>, winners: seq<string>): seq<Line> {
    if lines == [] then [] else
      var n := |lines| - 1;
      var before := WinningLines(lines[..n], winners);
      if lines[n].key.0 in winners then before + [lines[n]] else before
  }

  /** A sum over the lines in winning clubs only. */
  function InWinners(winners: seq<string>, g: Line -> int): Line -> int {
    (l: Line) => if l.key.0 in winners then g(l) else 0
  }

  lemma {:induction false} WinningSum(lines: seq<Line>, winners: seq<string>, g: Line -> int)
    ensures Sums.SeqSum(WinningLines(lines, winners), g) == Sums.SeqSum(lines, InWinners(winners, g))
  {
    if lines != [] {
      var n := |lines| - 1;
      WinningSum(lines[..n], winners, g);
      OneMoreTerm(WinningLines(lines[..n], winners), lines[n], g);
    }
  }

  lemma {:induction false} WinningLinesAreLines(lines: seq<Line>, winners: seq<string>)
    ensures forall l :: l in WinningLines(lines, winners) ==> l in lines
  {
    if lines != [] {
      WinningLinesAreLines(lines[..|lines| - 1], winners);
    }
  }

  lemma WinningCount(lines: seq<Line>, d: Storage)
    ensures |WinningLines(lines, d.winning.winners)| == Sums.SeqSum(lines, InWinningClub(d))
  {
    var one: Line -> int := (l: Line) => 1;
    Sums.SeqSumConstant<Line>(WinningLines(lines, d.winning.winners), one, 1);
    WinningSum(lines, d.winning.winners, one);
    Sums.SeqSumSame<Line>(lines, InWinners(d.winning.winners, one), InWinningClub(d));
  }

  // The owners' part.

  function OwnersPart(cfg: Config, d: Storage): Line -> int {
    (l: Line) => Terms(cfg, d, l.key.0).OwnerPart(l.key.1)
  }

  function OwnerOfWinner(d: Storage): nat
    requires Others(d) >= 0
  {
    OwnerReward(d.reward, true, |d.winning.winners|, Others(d))
  }

  lemma OwnersPartOfAClub(cfg: Config, d: Storage, lines: seq<Line>, c: string)
    requires Settled(d) && InClubs(cfg, d, lines) && DistinctLines(lines) && c in d.clubs
    ensures var budget := if c in d.winning.winners then OwnerOfWinner(d) else PerOther(d);
            var part := Sums.SeqSum(LinesIn(lines, c), OwnersPart(cfg, d));
            part <= budget && (OwnerHasLine(d, lines, c) ==> part == budget)
  {
    var own := LinesIn(lines, c);
    LinesInAreIn(lines, c);
    LinesInStayDistinct(lines, c);
    var sh := Terms(cfg, d, c);
    forall l | l in own ensures OwnersPart(cfg, d)(l) == OwnerPay(sh.owner, sh.ownerReward)(l) {
      LinesInAreThose(lines, c, l);
    }
    Sums.SeqSumSame<Line>(own, OwnersPart(cfg, d), OwnerPay(sh.owner, sh.ownerReward));
    OwnerIsPaidOnce(own, c, sh.owner, sh.ownerReward);
    if own != [] {
      LinesInAreThose(lines, c, own[0]);
      TermsOfAClub(cfg, d, c);
    }
    if OwnerHasLine(d, lines, c) {
      var i :| 0 <= i < |lines| && lines[i].key == (c, d.clubs[c].owner);
      LinesInAreThose(lines, c, lines[i]);
      var j :| 0 <= j < |own| && own[j] == lines[i];
    }
  }

  lemma OwnersPartFits(cfg: Config, d: Storage, lines: seq<Line>)
    requires Settled(d) && InClubs(cfg, d, lines) && DistinctLines(lines)
    ensures var all := |d.winning.winners| * OwnerOfWinner(d) + Others(d) * PerOther(d);
            var part := Sums.SeqSum(lines, OwnersPart(cfg, d));
            part <= all && ((forall c :: c in d.clubs ==> OwnerHasLine(d, lines, c)) ==> part == all)
  {
    var f, g := ClubSum(lines, OwnersPart(cfg, d)), Budget(d.winning.winners, OwnerOfWinner(d), PerOther(d));
    ByClub(lines, OwnersPart(cfg, d), d.clubs);
    BudgetSum(d.clubs, d.winning.winners, Others(d), OwnerOfWinner(d), PerOther(d));
    forall c | c in d.clubs
      ensures f(c, d.clubs[c]) <= g(c, d.clubs[c])
      ensures OwnerHasLine(d, lines, c) ==> f(c, d.clubs[c]) == g(c, d.clubs[c])
    {
      OwnersPartOfAClub(cfg, d, lines, c);
    }
    Sums.Below<string, Club>(d.clubs, f, g);
    if forall c :: c in d.clubs ==> OwnerHasLine(d, lines, c) {
      Sums.Congruent<string, Club>(d.clubs, f, g);
    }
  }

  // The three parts.

  /** All that is paid is the stakes' part, the winners' and the owners'. */
  lemma ThreeParts(cfg: Config, d: Storage, lines: seq<Line>)
    requires Settled(d) && InClubs(cfg, d, lines)
    ensures var w := d.winning;
            Sums.SeqSum(lines, Paying(cfg, d))
            == Sums.SeqSum(lines, Portion(Percent(d.reward, 78, 1), w.totalStake))
               + Sums.SeqSum(WinningLines(lines, w.winners), Portion(Percent(d.reward, 19, |w.winners|), w.winningStake))
               + Sums.SeqSum(lines, OwnersPart(cfg, d))
  {
    var w := d.winning;
    var portion := Portion(Percent(d.reward, 19, |w.winners|), w.winningStake);
    PayingIsPortionAndExtra(cfg, d, lines);
    WinningSum(lines, w.winners, portion);
    forall l | l in lines
      ensures Extra(cfg, d)(l) == InWinners(w.winners, portion)(l) + OwnersPart(cfg, d)(l)
    {
    }
    Sums.SeqSumPlus<Line>(lines, Extra(cfg, d), InWinners(w.winners, portion), OwnersPart(cfg, d));
  }

  // Percentages as real numbers.

  ghost function Part(reward: int, percent: int): real { percent as real * reward as real / 100.0 }

  /** A percentage of the reward, split over a number of clubs and added up again. */
  lemma PercentIsItsPart(reward: nat, percent: nat, clubs: nat)
    ensures var part := (clubs * Percent(reward, percent, clubs)) as real;
            && part <= Part(reward, percent)
            && (clubs > 0 && Fits(reward * percent) ==> Part(reward, percent) - clubs as real <= part)
  {
    var part := clubs * Percent(reward, percent, clubs);
    PercentFits(reward, percent, clubs);
    RealProduct(reward, percent);
    if clubs > 0 && Fits(reward * percent) {
      PercentNearlyFills(reward, percent, clubs);
    }
  }

  lemma ShareGrows(pot: int, more: real, amount: int, total: int)
    requires pot as real <= more && amount >= 0 && total >= 0
    ensures Share(pot, amount, total) <= more * Ratio(amount, total)
  {
    RatioNonNegative(amount, total);
    TimesGrows(pot as real, more, Ratio(amount, total));
  }

  lemma ShareShrinks(pot: int, exact: real, less: real, amount: int, total: int)
    requires exact - less <= pot as real && amount >= 0 && total >= 0
    ensures Share(pot, amount, total) >= exact * Ratio(amount, total) - less * Ratio(amount, total)
  {
    RatioNonNegative(amount, total);
    TimesGrows(exact - less, pot as real, Ratio(amount, total));
  }

  lemma TimesGrows(a: real, b: real, c: real)
    requires a <= b && c >= 0.0
    ensures a * c <= b * c
  {
  }

  lemma RatioNonNegative(amount: int, total: int)
    requires amount >= 0 && total >= 0
    ensures Ratio(amount, total) >= 0.0
  {
  }

  /** One winner's pot over the winning stake is all winners' pots over as many winning stakes. */
  lemma ShareOfAll(pot: int, amount: int, total: int, clubs: int)
    requires clubs > 0
    ensures Share(pot, amount, total) == Share(clubs * pot, amount, clubs * total)
    ensures Ratio(amount, total) == clubs as real * Ratio(amount, clubs * total)
  {
    if total != 0 {
      RealProduct(clubs, total);
      RealProduct(clubs, pot);
      RatioTimes(amount, total);
      assert clubs * total != 0;
      RatioTimes(amount, clubs * total);
      RatioScales(Ratio(amount, total), Ratio(amount, clubs * total), clubs as real, total as real);
      assert pot as real * (clubs as real * Ratio(amount, clubs * total))
             == (clubs as real * pot as real) * Ratio(amount, clubs * total);
    } else {
      assert clubs * total == 0;
    }
  }

  lemma RatioScales(r: real, q: real, c: real, t: real)
    requires t != 0.0 && r * t == q * (c * t)
    ensures r == c * q
  {
    assert q * (c * t) == (c * q) * t;
    assert (r - c * q) * t == 0.0;
  }

  /** What the percentages make of a reward: 78 by stake over the total, 19 by the winners' stake over
      as many winning stakes as there are winners, 3 for owners. */
  ghost function Ideal(reward: int, staked: int, total: int, winnersStaked: int, winners: int, top: int): real {
    reward as real * (78.0 * Ratio(staked, total) + 19.0 * Ratio(winnersStaked, winners * top) + 3.0) / 100.0
  }

  /** What rounding may take: one unit per stake, one more per stake in a winning club, one per club,
      and one for each of the two pots in proportion to what is paid out of it. */
  ghost function Rounding(stakes: int, winnersStakes: int, clubs: int, staked: int, total: int, winnersStaked: int,
                          top: int): real {
    (stakes + winnersStakes + clubs) as real + Ratio(staked, total) + Ratio(winnersStaked, top)
  }

  lemma IdealParts(reward: int, staked: int, total: int, winnersStaked: int, winners: int, top: int)
    ensures Ideal(reward, staked, total, winnersStaked, winners, top)
            == Part(reward, 78) * Ratio(staked, total) + Part(reward, 19) * Ratio(winnersStaked, winners * top)
               + Part(reward, 3)
  {
    SplitIdeal(reward as real, Ratio(staked, total), Ratio(winnersStaked, winners * top));
  }

  lemma SplitIdeal(r: real, p: real, q: real)
    ensures r * (78.0 * p + 19.0 * q + 3.0) / 100.0 == 78.0 * r / 100.0 * p + 19.0 * r / 100.0 * q + 3.0 * r / 100.0
  {
    assert r * (78.0 * p + 19.0 * q + 3.0) == 78.0 * r * p + 19.0 * r * q + 3.0 * r;
    assert 78.0 * r * p / 100.0 == 78.0 * r / 100.0 * p;
    assert 19.0 * r * q / 100.0 == 19.0 * r / 100.0 * q;
  }

  /** A sum is within a part's share, and within some loss of it. */
  ghost predicate Within(sum: int, part: real, amount: int, total: int) {
    sum as real <= part * Ratio(amount, total)
  }

  ghost predicate NotFarBelow(sum: int, part: real, amount: int, total: int, loss: real) {
    part * Ratio(amount, total) - loss <= sum as real
  }

  lemma SumBelow(sum: int, pot: int, more: real, amount: int, total: int)
    requires sum as real <= Share(pot, amount, total) && pot as real <= more && amount >= 0 && total >= 0
    ensures Within(sum, more, amount, total)
  {
    ShareGrows(pot, more, amount, total);
  }

  lemma SumAbove(sum: int, pot: int, exact: real, less: real, amount: int, total: int, count: int)
    requires Share(pot, amount, total) - count as real <= sum as real
    requires exact - less <= pot as real && amount >= 0 && total >= 0
    ensures NotFarBelow(sum, exact, amount, total, less * Ratio(amount, total) + count as real)
  {
    ShareShrinks(pot, exact, less, amount, total);
  }

  lemma PotIsItsPart(reward: nat)
    ensures Percent(reward, 78, 1) as real <= Part(reward, 78)
    ensures Fits(reward * 78) ==> Part(reward, 78) - 1.0 <= Percent(reward, 78, 1) as real
  {
    PercentIsItsPart(reward, 78, 1);
  }

  lemma StakesBelow(reward: nat, lines: seq<Line>, total: nat)
    ensures Within(Sums.SeqSum(lines, Portion(Percent(reward, 78, 1), total)), Part(reward, 78),
                   Sums.SeqSum(lines, Amount()), total)
  {
    var pot, amount := Percent(reward, 78, 1), Sums.SeqSum(lines, Amount());
    AmountsNonNegative(lines);
    PotIsItsPart(reward);
    PortionsBelow(pot, total, lines);
    SumBelow(Sums.SeqSum(lines, Portion(pot, total)), pot, Part(reward, 78), amount, total);
  }

  lemma StakesAbove(reward: nat, lines: seq<Line>, total: nat)
    requires Fits(reward * 78) && forall l :: l in lines ==> Fits(Percent(reward, 78, 1) * l.amount)
    ensures NotFarBelow(Sums.SeqSum(lines, Portion(Percent(reward, 78, 1), total)), Part(reward, 78),
                        Sums.SeqSum(lines, Amount()), total,
                        1.0 * Ratio(Sums.SeqSum(lines, Amount()), total) + |lines| as real)
  {
    var pot, amount := Percent(reward, 78, 1), Sums.SeqSum(lines, Amount());
    AmountsNonNegative(lines);
    PotIsItsPart(reward);
    PortionsAbove(pot, total, lines);
    SumAbove(Sums.SeqSum(lines, Portion(pot, total)), pot, Part(reward, 78), 1.0, amount, total, |lines|);
  }

  lemma ProductIsNat(a: nat, b: nat)
    ensures a * b >= 0
  {
  }

  lemma WinnersSumBelow(sum: int, pot: int, more: real, amount: int, top: int, winners: int)
    requires sum as real <= Share(pot, amount, top) && (winners * pot) as real <= more
    requires amount >= 0 && top >= 0 && winners > 0
    ensures Within(sum, more, amount, winners * top)
  {
    ShareOfAll(pot, amount, top, winners);
    ProductIsNat(winners, top);
    SumBelow(sum, winners * pot, more, amount, winners * top);
  }

  lemma WinnersSumAbove(sum: int, pot: int, exact: real, amount: int, top: int, winners: int, count: int)
    requires Share(pot, amount, top) - count as real <= sum as real
    requires exact - winners as real <= (winners * pot) as real
    requires amount >= 0 && top >= 0 && winners > 0
    ensures NotFarBelow(sum, exact, amount, winners * top, Ratio(amount, top) + count as real)
  {
    ShareOfAll(pot, amount, top, winners);
    ProductIsNat(winners, top);
    SumAbove(sum, winners * pot, exact, winners as real, amount, winners * top, count);
  }

  lemma WinnersBelow(reward: nat, lines: seq<Line>, winners: nat, top: nat)
    requires winners > 0 || lines == []
    ensures Within(Sums.SeqSum(lines, Portion(Percent(reward, 19, winners), top)), Part(reward, 19),
                   Sums.SeqSum(lines, Amount()), winners * top)
  {
    if winners == 0 {
      assert winners * top == 0;
    } else {
      var pot, amount := Percent(reward, 19, winners), Sums.SeqSum(lines, Amount());
      AmountsNonNegative(lines);
      PercentIsItsPart(reward, 19, winners);
      PortionsBelow(pot, top, lines);
      WinnersSumBelow(Sums.SeqSum(lines, Portion(pot, top)), pot, Part(reward, 19), amount, top, winners);
    }
  }

  lemma WinnersAbove(reward: nat, lines: seq<Line>, winners: nat, top: nat)
    requires winners > 0
    requires Fits(reward * 19) && forall l :: l in lines ==> Fits(Percent(reward, 19, winners) * l.amount)
    ensures NotFarBelow(Sums.SeqSum(lines, Portion(Percent(reward, 19, winners), top)), Part(reward, 19),
                        Sums.SeqSum(lines, Amount()), winners * top,
                        Ratio(Sums.SeqSum(lines, Amount()), top) + |lines| as real)
  {
    var pot, amount := Percent(reward, 19, winners), Sums.SeqSum(lines, Amount());
    AmountsNonNegative(lines);
    PercentIsItsPart(reward, 19, winners);
    PortionsAbove(pot, top, lines);
    WinnersSumAbove(Sums.SeqSum(lines, Portion(pot, top)), pot, Part(reward, 19), amount, top, winners, |lines|);
  }

  lemma OwnersPercent(d: Storage)
    requires Others(d) >= 0
    ensures var w, all := |d.winning.winners|, |d.winning.winners| * OwnerOfWinner(d) + Others(d) * PerOther(d);
            && all as real <= Part(d.reward, 3)
            && (w > 0 && Fits(d.reward * 78) ==> Part(d.reward, 3) - d.winning.clubs as real <= all as real)
  {
    var w, o := |d.winning.winners|, Others(d);
    PercentIsItsPart(d.reward, 1, w);
    PercentIsItsPart(d.reward, 3, w);
    PercentIsItsPart(d.reward, 2, o);
    if o == 0 {
      assert o * PerOther(d) == 0;
    }
    if w == 0 {
      assert w * OwnerOfWinner(d) == 0;
    }
  }

  lemma OwnersBelow(cfg: Config, d: Storage, lines: seq<Line>)
    requires Settled(d) && InClubs(cfg, d, lines) && DistinctLines(lines)
    ensures Sums.SeqSum(lines, OwnersPart(cfg, d)) as real <= Part(d.reward, 3)
  {
    OwnersPartFits(cfg, d, lines);
    OwnersPercent(d);
  }

  lemma OwnersAbove(cfg: Config, d: Storage, lines: seq<Line>)
    requires Settled(d) && InClubs(cfg, d, lines) && DistinctLines(lines)
    requires d.winning.winners != [] && Fits(d.reward * 78)
    requires forall c :: c in d.clubs ==> OwnerHasLine(d, lines, c)
    ensures Part(d.reward, 3) - |d.clubs| as real <= Sums.SeqSum(lines, OwnersPart(cfg, d)) as real
  {
    OwnersPartFits(cfg, d, lines);
    OwnersPercent(d);
  }

  /** The ideal for some lines, and what rounding may take from it. */
  ghost function IdealFor(d: Storage, lines: seq<Line>): real {
    var w := d.winning;
    Ideal(d.reward, Sums.SeqSum(lines, Amount()), w.totalStake,
          Sums.SeqSum(WinningLines(lines, w.winners), Amount()), |w.winners|, w.winningStake)
  }

  ghost function RoundingFor(d: Storage, lines: seq<Line>): real {
    var w, winning := d.winning, WinningLines(lines, d.winning.winners);
    Rounding(|lines|, |winning|, |d.clubs|, Sums.SeqSum(lines, Amount()), w.totalStake,
             Sums.SeqSum(winning, Amount()), w.winningStake)
  }

  lemma AddUp(p: int, q: int, o: int, reward: int, staked: int, total: int, won: int, winners: int, top: int)
    requires Within(p, Part(reward, 78), staked, total) && Within(q, Part(reward, 19), won, winners * top)
    requires o as real <= Part(reward, 3)
    ensures (p + q + o) as real <= Ideal(reward, staked, total, won, winners, top)
  {
    IdealParts(reward, staked, total, won, winners, top);
  }

  lemma AddDown(p: int, q: int, o: int, reward: int, staked: int, total: int, won: int, winners: int, top: int,
                stakes: int, winning: int, clubs: int)
    requires NotFarBelow(p, Part(reward, 78), staked, total, 1.0 * Ratio(staked, total) + stakes as real)
    requires NotFarBelow(q, Part(reward, 19), won, winners * top, Ratio(won, top) + winning as real)
    requires Part(reward, 3) - clubs as real <= o as real
    ensures Ideal(reward, staked, total, won, winners, top) - Rounding(stakes, winning, clubs, staked, total, won, top)
            <= (p + q + o) as real
  {
    IdealParts(reward, staked, total, won, winners, top);
  }

  /** Payments never exceed the ideal, whatever stakes are paid, once each. */
  lemma GivenIsAtMostIdeal(cfg: Config, d: Storage, lines: seq<Line>)
    requires Settled(d) && InClubs(cfg, d, lines) && DistinctLines(lines)
    ensures Sums.SeqSum(lines, Paying(cfg, d)) as real <= IdealFor(d, lines)
  {
    var w, winning := d.winning, WinningLines(lines, d.winning.winners);
    if w.winners == [] {
      NoWinningLines(lines, w.winners);
    }
    ThreeParts(cfg, d, lines);
    StakesBelow(d.reward, lines, w.totalStake);
    WinnersBelow(d.reward, winning, |w.winners|, w.winningStake);
    OwnersBelow(cfg, d, lines);
    AddUp(Sums.SeqSum(lines, Portion(Percent(d.reward, 78, 1), w.totalStake)),
          Sums.SeqSum(winning, Portion(Percent(d.reward, 19, |w.winners|), w.winningStake)),
          Sums.SeqSum(lines, OwnersPart(cfg, d)),
          d.reward, Sums.SeqSum(lines, Amount()), w.totalStake, Sums.SeqSum(winning, Amount()), |w.winners|,
          w.winningStake);
  }

  lemma StakesAboveAll(d: Storage, lines: seq<Line>)
    requires Fits(d.reward * 78) && Fits(d.reward * Sums.SeqSum(lines, Amount()))
    ensures NotFarBelow(Sums.SeqSum(lines, Portion(Percent(d.reward, 78, 1), d.winning.totalStake)), Part(d.reward, 78),
                        Sums.SeqSum(lines, Amount()), d.winning.totalStake,
                        1.0 * Ratio(Sums.SeqSum(lines, Amount()), d.winning.totalStake) + |lines| as real)
  {
    ProductsFit(d.reward, lines, 78, 1);
    StakesAbove(d.reward, lines, d.winning.totalStake);
  }

  lemma WinnersAboveAll(d: Storage, lines: seq<Line>, winning: seq<Line>)
    requires Fits(d.reward * 78) && Fits(d.reward * Sums.SeqSum(lines, Amount()))
    requires d.winning.winners != [] && winning == WinningLines(lines, d.winning.winners)
    ensures var w := d.winning;
            NotFarBelow(Sums.SeqSum(winning, Portion(Percent(d.reward, 19, |w.winners|), w.winningStake)),
                        Part(d.reward, 19), Sums.SeqSum(winning, Amount()), |w.winners| * w.winningStake,
                        Ratio(Sums.SeqSum(winning, Amount()), w.winningStake) + |winning| as real)
  {
    ProductsFit(d.reward, lines, 19, |d.winning.winners|);
    WinningLinesAreLines(lines, d.winning.winners);
    WinnersAbove(d.reward, winning, |d.winning.winners|, d.winning.winningStake);
  }

  /** When every owner is among those paid and no product overflows, they miss it by rounding only. */
  lemma {:induction false} GivenIsNearlyIdeal(cfg: Config, d: Storage, lines: seq<Line>)
    requires Settled(d) && InClubs(cfg, d, lines) && DistinctLines(lines)
    requires d.winning.winners != [] && Fits(d.reward * 78) && Fits(d.reward * Sums.SeqSum(lines, Amount()))
    requires forall c :: c in d.clubs ==> OwnerHasLine(d, lines, c)
    ensures IdealFor(d, lines) - RoundingFor(d, lines) <= Sums.SeqSum(lines, Paying(cfg, d)) as real
  {
    var w, winning := d.winning, WinningLines(lines, d.winning.winners);
    ThreeParts(cfg, d, lines);
    StakesAboveAll(d, lines);
    WinnersAboveAll(d, lines, winning);
    OwnersAbove(cfg, d, lines);
    AddDown(Sums.SeqSum(lines, Portion(Percent(d.reward, 78, 1), w.totalStake)),
            Sums.SeqSum(winning, Portion(Percent(d.reward, 19, |w.winners|), w.winningStake)),
            Sums.SeqSum(lines, OwnersPart(cfg, d)),
            d.reward, Sums.SeqSum(lines, Amount()), w.totalStake, Sums.SeqSum(winning, Amount()), |w.winners|,
            w.winningStake, |lines|, |winning|, |d.clubs|);
  }

  lemma {:induction false} NoWinningLines(lines: seq<Line>, winners: seq<string>)
    requires winners == []
    ensures WinningLines(lines, winners) == []
  {
    if lines != [] {
      NoWinningLines(lines[..|lines| - 1], winners);
    }
  }

  lemma ProductsFit(reward: nat, lines: seq<Line>, percent: nat, clubs: nat)
    requires percent <= 100 && Fits(reward * Sums.SeqSum(lines, Amount()))
    ensures forall l :: l in lines ==> Fits(Percent(reward, percent, clubs) * l.amount)
  {
    PercentBelow(reward, percent, clubs);
    AmountsNonNegative(lines);
    forall l | l in lines ensures Fits(Percent(reward, percent, clubs) * l.amount) {
      LineBelowSum(lines, l);
      ProductFits(Percent(reward, percent, clubs), reward, l.amount, Sums.SeqSum(lines, Amount()));
    }
  }

  // Against the whole reward.

  /** The percentages of these stakes do not add up to more than a hundred. */
  ghost predicate Light(staked: int, total: int, won: int, winners: int, top: int) {
    78.0 * Ratio(staked, total) + 19.0 * Ratio(won, winners * top) <= 97.0
  }

  lemma LightIsWithin(given: int, reward: nat, staked: int, total: int, won: int, winners: int, top: int)
    requires Light(staked, total, won, winners, top)
    requires given as real <= Ideal(reward, staked, total, won, winners, top)
    ensures given <= reward
  {
    LightIdeal(reward, staked, total, won, winners, top);
    Between(given, Ideal(reward, staked, total, won, winners, top), reward);
  }

  lemma LightIdeal(reward: nat, staked: int, total: int, won: int, winners: int, top: int)
    requires Light(staked, total, won, winners, top)
    ensures Ideal(reward, staked, total, won, winners, top) <= reward as real
  {
    LightReal(reward as real, Ratio(staked, total), Ratio(won, winners * top));
  }

  lemma Between(a: int, x: real, b: int)
    requires a as real <= x && x <= b as real
    ensures a <= b
  {
  }

  lemma LightReal(r: real, p: real, q: real)
    requires 78.0 * p + 19.0 * q <= 97.0 && r >= 0.0
    ensures r * (78.0 * p + 19.0 * q + 3.0) / 100.0 <= r
  {
    TimesGrows(78.0 * p + 19.0 * q + 3.0, 100.0, r);
  }

  lemma RatioAtMostOne(a: int, b: int)
    requires 0 <= a <= b
    ensures Ratio(a, b) <= 1.0
  {
  }

  lemma WithinIsLight(staked: int, total: int, won: int, winners: int, top: int)
    requires 0 <= staked <= total && 0 <= won <= winners * top
    ensures Light(staked, total, won, winners, top)
  {
    RatioAtMostOne(staked, total);
    RatioAtMostOne(won, winners * top);
  }

  lemma RestOfFull(r: real, p: real, q: real)
    requires p <= 1.0 && r >= 0.0
    ensures r - r * (78.0 * p + 19.0 * q + 3.0) / 100.0 >= 19.0 * r / 100.0 * (1.0 - q)
  {
    TimesGrows(78.0 * p + 19.0 * q + 3.0, 78.0 + 19.0 * q + 3.0, r);
    assert r * (78.0 + 19.0 * q + 3.0) == 81.0 * r + 19.0 * (r * q);
    assert 19.0 * r / 100.0 * (1.0 - q) == 19.0 * r / 100.0 - 19.0 * (r * q) / 100.0;
  }

  /** What is left of the reward is at least the winners' missing part of the 19%. */
  ghost predicate LeavesThePart(given: int, reward: int, won: int, winners: int, top: int) {
    (reward - given) as real >= 19.0 * reward as real / 100.0 * (1.0 - Ratio(won, winners * top))
  }

  /** What stakes within the total leave of a reward is at least the winners' missing part of the 19%. */
  lemma FullShare(given: int, reward: nat, staked: int, total: int, won: int, winners: int, top: int)
    requires 0 <= staked <= total && given as real <= Ideal(reward, staked, total, won, winners, top)
    ensures LeavesThePart(given, reward, won, winners, top)
  {
    RatioAtMostOne(staked, total);
    RestOfFull(reward as real, Ratio(staked, total), Ratio(won, winners * top));
  }
}
