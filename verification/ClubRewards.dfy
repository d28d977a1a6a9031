/** The arithmetic of a reward round: whatever stakes are paid, in whatever order, the parts of the
    78%, the 19% and the owners' percentages never exceed the reward, and over all stakes they miss
    it by rounding only. */
module ClubRewards {
  import opened Chain
  import opened ClubStaking
  import opened ClubWinners
  import Nonlinear
  import Sums

  /** A stake that a round has paid: where, whose, and the amount it was paid for. */
  datatype Line = Line(key: Key, amount: nat)

  const NO_SHARES := Shares(0, 0, 0, 0, false, "", 0, 0, None)

  /** What a club's stakes are paid by in a round; the times do not matter for it. */
  function Terms(cfg: Config, d: Storage, club: string): Shares {
    var sh := SharesFor(cfg, d, 0, 0, club);
    if sh.Ok? then sh.value else NO_SHARES
  }

  function Amount(): Line -> int { (l: Line) => l.amount }

  function Portion(pot: nat, total: nat): Line -> int {
    (l: Line) => DivOrZero(MulOrZero(pot, l.amount), total)
  }

  function OwnerPay(owner: Addr, reward: nat): Line -> int {
    (l: Line) => if l.key.1 == owner then reward else 0
  }

  function Paying(cfg: Config, d: Storage): Line -> int {
    (l: Line) => Terms(cfg, d, l.key.0).Pay(Stake(l.key.1, 0, l.amount, 0, false))
  }

  /** What a line is paid besides its part of the 78%. */
  function Extra(cfg: Config, d: Storage): Line -> int {
    (l: Line) => Terms(cfg, d, l.key.0).WinnerPart(l.amount) + Terms(cfg, d, l.key.0).OwnerPart(l.key.1)
  }

  predicate DistinctLines(lines: seq<Line>) {
    forall i, j :: 0 <= i < j < |lines| ==> lines[i].key != lines[j].key
  }

  predicate AllIn(lines: seq<Line>, club: string) {
    forall i :: 0 <= i < |lines| ==> lines[i].key.0 == club
  }

  // Portions of a pot.

  lemma PortionTimesTotal(pot: nat, total: nat, l: Line)
    ensures 0 <= Portion(pot, total)(l) * total <= pot * l.amount
  {
  }

  lemma SumStepUp(sum: int, part: int, total: int, amounts: int, amount: int, pot: int)
    requires sum * total <= pot * amounts && part * total <= pot * amount
    ensures (sum + part) * total <= pot * (amounts + amount)
  {
    assert (sum + part) * total == sum * total + part * total;
    assert pot * (amounts + amount) == pot * amounts + pot * amount;
  }

  lemma SumStepDown(sum: int, part: int, total: int, amounts: int, amount: int, pot: int, count: int)
    requires sum * total >= pot * amounts - count * (total - 1) && part * total >= pot * amount - (total - 1)
    ensures (sum + part) * total >= pot * (amounts + amount) - (count + 1) * (total - 1)
  {
    assert (sum + part) * total == sum * total + part * total;
    assert pot * (amounts + amount) == pot * amounts + pot * amount;
    assert (count + 1) * (total - 1) == count * (total - 1) + (total - 1);
  }

  lemma {:induction false} PortionsTimesTotal(pot: nat, total: nat, lines: seq<Line>)
    ensures Sums.SeqSum(lines, Portion(pot, total)) * total <= pot * Sums.SeqSum(lines, Amount())
    ensures Sums.SeqSum(lines, Portion(pot, total)) >= 0
    ensures total == 0 ==> Sums.SeqSum(lines, Portion(pot, total)) == 0
  {
    if lines == [] {
      assert 0 * total == 0 && pot * 0 == 0;
    } else {
      var n := |lines| - 1;
      PortionsTimesTotal(pot, total, lines[..n]);
      PortionTimesTotal(pot, total, lines[n]);
      SumStepUp(Sums.SeqSum(lines[..n], Portion(pot, total)), Portion(pot, total)(lines[n]), total,
                Sums.SeqSum(lines[..n], Amount()), lines[n].amount, pot);
    }
  }

  lemma PortionMiss(pot: nat, total: nat, l: Line)
    requires total > 0 && Fits(pot * l.amount)
    ensures Portion(pot, total)(l) * total >= pot * l.amount - (total - 1)
  {
  }

  lemma {:induction false} PortionsMiss(pot: nat, total: nat, lines: seq<Line>)
    requires total > 0 && forall l :: l in lines ==> Fits(pot * l.amount)
    ensures Sums.SeqSum(lines, Portion(pot, total)) * total
            >= pot * Sums.SeqSum(lines, Amount()) - |lines| * (total - 1)
  {
    if lines == [] {
      assert 0 * total == 0 && pot * 0 == 0 && 0 * (total - 1) == 0;
    } else {
      var n := |lines| - 1;
      PortionsMiss(pot, total, lines[..n]);
      PortionMiss(pot, total, lines[n]);
      SumStepDown(Sums.SeqSum(lines[..n], Portion(pot, total)), Portion(pot, total)(lines[n]), total,
                  Sums.SeqSum(lines[..n], Amount()), lines[n].amount, pot, n);
    }
  }

  lemma FewMissing(pot: int, sum: int, total: int, count: int)
    requires sum * total >= pot * total - count * (total - 1) && total > 0 && count > 0
    ensures pot - sum < count
  {
    assert (pot - sum) * total == pot * total - sum * total;
    assert count * (total - 1) == count * total - count;
    if pot - sum >= count {
      Nonlinear.MulLe(count, pot - sum, total);
    }
  }

  /** Portions of all the stakes miss the pot by less than one per stake. */
  lemma PortionsNearlyFill(pot: nat, total: nat, lines: seq<Line>)
    requires total > 0 && Sums.SeqSum(lines, Amount()) == total
    requires forall l :: l in lines ==> Fits(pot * l.amount)
    ensures pot - Sums.SeqSum(lines, Portion(pot, total)) < |lines|
  {
    PortionsMiss(pot, total, lines);
    FewMissing(pot, Sums.SeqSum(lines, Portion(pot, total)), total, |lines|);
  }

  // The owner's part.

  lemma {:induction false} NotTheOwner(lines: seq<Line>, owner: Addr, reward: nat)
    requires forall i :: 0 <= i < |lines| ==> lines[i].key.1 != owner
    ensures Sums.SeqSum(lines, OwnerPay(owner, reward)) == 0
  {
    if lines != [] {
      NotTheOwner(lines[..|lines| - 1], owner, reward);
    }
  }

  /** In one club the owner is paid at most once, and once if listed. */
  lemma {:induction false} OwnerIsPaidOnce(lines: seq<Line>, club: string, owner: Addr, reward: nat)
    requires DistinctLines(lines) && AllIn(lines, club)
    ensures Sums.SeqSum(lines, OwnerPay(owner, reward))
            == if exists i :: 0 <= i < |lines| && lines[i].key.1 == owner then reward else 0
  {
    if lines != [] {
      var n := |lines| - 1;
      if lines[n].key.1 == owner {
        forall i | 0 <= i < n ensures lines[i].key.1 != owner {
          assert lines[i].key != lines[n].key && lines[i].key.0 == club && lines[n].key.0 == club;
        }
        NotTheOwner(lines[..n], owner, reward);
      } else {
        OwnerIsPaidOnce(lines[..n], club, owner, reward);
        if i :| 0 <= i < |lines| && lines[i].key.1 == owner {
          assert lines[..n][i].key.1 == owner;
        }
      }
    }
  }

  // Lines club by club.

  function LinesIn(lines: seq<Line>, club: string): seq<Line> {
    if lines == [] then [] else
      var n := |lines| - 1;
      var before := LinesIn(lines[..n], club);
      if lines[n].key.0 == club then before + [lines[n]] else before
  }

  lemma {:induction false} LinesInAreThose(lines: seq<Line>, club: string, l: Line)
    ensures l in LinesIn(lines, club) <==> l in lines && l.key.0 == club
  {
    if lines != [] {
      var n := |lines| - 1;
      LinesInAreThose(lines[..n], club, l);
      assert lines == lines[..n] + [lines[n]];
    }
  }

  lemma {:induction false} LinesInAreIn(lines: seq<Line>, club: string)
    ensures AllIn(LinesIn(lines, club), club)
  {
    if lines != [] {
      LinesInAreIn(lines[..|lines| - 1], club);
    }
  }

  lemma {:induction false} LinesInStayDistinct(lines: seq<Line>, club: string)
    requires DistinctLines(lines)
    ensures DistinctLines(LinesIn(lines, club))
  {
    if lines != [] {
      var n := |lines| - 1;
      var before := LinesIn(lines[..n], club);
      LinesInStayDistinct(lines[..n], club);
      forall i | 0 <= i < |before| ensures before[i].key != lines[n].key {
        LinesInAreThose(lines[..n], club, before[i]);
        var j :| 0 <= j < n && lines[j] == before[i];
      }
    }
  }

  ghost function ClubSum(lines: seq<Line>, g: Line -> int): (string, Club) -> int {
    (c: string, _: Club) => Sums.SeqSum(LinesIn(lines, c), g)
  }

  lemma OneMoreTerm(s: seq<Line>, l: Line, g: Line -> int)
    ensures Sums.SeqSum(s + [l], g) == Sums.SeqSum(s, g) + g(l)
  {
    assert (s + [l])[..|s|] == s;
  }

  lemma ClubSumNext(lines: seq<Line>, g: Line -> int, c: string, v: Club)
    requires lines != []
    ensures var n := |lines| - 1;
            ClubSum(lines, g)(c, v) == ClubSum(lines[..n], g)(c, v) + if lines[n].key.0 == c then g(lines[n]) else 0
  {
    OneMoreTerm(LinesIn(lines[..|lines| - 1], c), lines[|lines| - 1], g);
  }

  /** A sum over lines is the sum over the clubs of the sums over their lines. */
  lemma {:induction false} ByClub(lines: seq<Line>, g: Line -> int, clubs: map<string, Club>)
    requires forall i :: 0 <= i < |lines| ==> lines[i].key.0 in clubs
    ensures Sums.SeqSum(lines, g) == Sums.Sum<string, Club>(clubs, ClubSum(lines, g))
  {
    if lines == [] {
      Sums.AllZero<string, Club>(clubs, ClubSum(lines, g));
    } else {
      var n := |lines| - 1;
      ByClub(lines[..n], g, clubs);
      ByClubNext(lines, g, clubs);
    }
  }

  lemma ByClubNext(lines: seq<Line>, g: Line -> int, clubs: map<string, Club>)
    requires lines != [] && lines[|lines| - 1].key.0 in clubs
    ensures Sums.Sum<string, Club>(clubs, ClubSum(lines, g))
            == Sums.Sum<string, Club>(clubs, ClubSum(lines[..|lines| - 1], g)) + g(lines[|lines| - 1])
  {
    var n := |lines| - 1;
    var k := lines[n].key.0;
    var f, h := ClubSum(lines, g), ClubSum(lines[..n], g);
    var rest := clubs - {k};
    forall c | c in rest ensures f(c, rest[c]) == h(c, rest[c]) {
      ClubSumNext(lines, g, c, rest[c]);
    }
    Sums.Congruent<string, Club>(rest, f, h);
    ClubSumNext(lines, g, k, clubs[k]);
    Sums.Split<string, Club>(clubs, f, k);
    Sums.Split<string, Club>(clubs, h, k);
  }

  // Budgets.

  /** What winners and others get per club, all clubs together. */
  ghost function Budget(winners: seq<string>, perWinner: int, perOther: int): (string, Club) -> int {
    (c: string, _: Club) => if c in winners then perWinner else perOther
  }

  lemma OneMoreTimes(n: int, x: int)
    ensures (n + 1) * x == n * x + x && 0 * x == 0
  {
  }

  lemma {:induction false} NoWinnersBudget(clubs: map<string, Club>, perWinner: int, perOther: int)
    ensures Sums.Sum<string, Club>(clubs, Budget([], perWinner, perOther)) == |clubs| * perOther
    decreases |clubs|
  {
    OneMoreTimes(|clubs| - 1, perOther);
    if clubs != map[] {
      var k :| k in clubs;
      Sums.Split<string, Club>(clubs, Budget([], perWinner, perOther), k);
      NoWinnersBudget(clubs - {k}, perWinner, perOther);
      assert |clubs - {k}| == |clubs| - 1;
    }
  }

  lemma BudgetWithout(clubs: map<string, Club>, winners: seq<string>, perWinner: int, perOther: int)
    requires Distinct(winners) && winners != [] && winners[|winners| - 1] in clubs
    ensures var n := |winners| - 1;
            Sums.Sum<string, Club>(clubs, Budget(winners, perWinner, perOther))
            == perWinner + Sums.Sum<string, Club>(clubs - {winners[n]}, Budget(winners[..n], perWinner, perOther))
  {
    var n := |winners| - 1;
    var w := winners[n];
    Sums.Split<string, Club>(clubs, Budget(winners, perWinner, perOther), w);
    assert winners == winners[..n] + [w];
    Sums.Congruent<string, Club>(clubs - {w}, Budget(winners, perWinner, perOther),
                                 Budget(winners[..n], perWinner, perOther));
  }

  lemma {:induction false} BudgetSum(clubs: map<string, Club>, winners: seq<string>, others: int, perWinner: int,
                                     perOther: int)
    requires Distinct(winners) && (forall c :: c in winners ==> c in clubs) && others == |clubs| - |winners|
    ensures Sums.Sum<string, Club>(clubs, Budget(winners, perWinner, perOther)) == |winners| * perWinner + others * perOther
    decreases |winners|
  {
    if winners == [] {
      NoWinnersBudget(clubs, perWinner, perOther);
    } else {
      var n := |winners| - 1;
      BudgetWithout(clubs, winners, perWinner, perOther);
      forall c | c in winners[..n] ensures c in clubs - {winners[n]} {
        var i :| 0 <= i < n && winners[i] == c;
      }
      assert |clubs - {winners[n]}| == |clubs| - 1;
      BudgetSum(clubs - {winners[n]}, winners[..n], others, perWinner, perOther);
      OneMoreTimes(n, perWinner);
    }
  }

  // One club.

  /** The storage a round is settled by: the winners are distinct clubs, counted with all clubs. */
  predicate Settled(d: Storage) {
    && Distinct(d.winning.winners)
    && (forall c :: c in d.winning.winners ==> c in d.clubs)
    && |d.winning.winners| <= d.winning.clubs == |d.clubs|
  }

  function Others(d: Storage): int { d.winning.clubs - |d.winning.winners| }

  function PerWinner(d: Storage): nat
    requires Others(d) >= 0
  {
    var w := |d.winning.winners|;
    Percent(d.reward, 19, w) + OwnerReward(d.reward, true, w, Others(d))
  }

  function PerOther(d: Storage): nat
    requires Others(d) >= 0
  {
    OwnerReward(d.reward, false, |d.winning.winners|, Others(d))
  }

  function WinnerPay(sh: Shares): Line -> int { (l: Line) => sh.WinnerPart(l.amount) }

  /** In one club the extra pay is the winners' portions and the owner's reward. */
  lemma ExtraOfAClub(cfg: Config, d: Storage, lines: seq<Line>, club: string)
    requires AllIn(lines, club)
    ensures var sh := Terms(cfg, d, club);
            Sums.SeqSum(lines, Extra(cfg, d))
            == Sums.SeqSum(lines, WinnerPay(sh)) + Sums.SeqSum(lines, OwnerPay(sh.owner, sh.ownerReward))
  {
    var sh := Terms(cfg, d, club);
    forall l | l in lines
      ensures Extra(cfg, d)(l) == WinnerPay(sh)(l) + OwnerPay(sh.owner, sh.ownerReward)(l)
    {
      assert l.key.0 == club;
    }
    Sums.SeqSumPlus<Line>(lines, Extra(cfg, d), WinnerPay(sh), OwnerPay(sh.owner, sh.ownerReward));
  }

  lemma WinnersPortions(sh: Shares, lines: seq<Line>)
    ensures Sums.SeqSum(lines, WinnerPay(sh))
            == if sh.isWinner then Sums.SeqSum(lines, Portion(sh.winnerPot, sh.winnerTotal)) else 0
  {
    if sh.isWinner {
      Sums.SeqSumSame<Line>(lines, WinnerPay(sh), Portion(sh.winnerPot, sh.winnerTotal));
    } else {
      Sums.SeqSumConstant<Line>(lines, WinnerPay(sh), 0);
    }
  }

  /** One for every stake in a winning club. */
  function InWinningClub(d: Storage): Line -> int { (l: Line) => if l.key.0 in d.winning.winners then 1 else 0 }

  /** The terms of a club in the round's own figures. */
  lemma TermsOfAClub(cfg: Config, d: Storage, club: string)
    requires Settled(d) && SharesFor(cfg, d, 0, 0, club).Ok?
    ensures var sh := Terms(cfg, d, club);
            && club in d.clubs && sh.owner == d.clubs[club].owner
            && sh.isWinner == (club in d.winning.winners) && sh.winnerTotal == d.winning.winningStake
            && (if sh.isWinner then sh.winnerPot + sh.ownerReward == PerWinner(d) else sh.ownerReward == PerOther(d))
  {
  }

  lemma WinnersNearlyFilled(sh: Shares, lines: seq<Line>, mark: Line -> int)
    requires sh.isWinner ==> Sums.SeqSum(lines, Amount()) == sh.winnerTotal > 0
    requires forall l :: l in lines ==> Fits(sh.winnerPot * l.amount)
    requires forall l :: l in lines ==> mark(l) == if sh.isWinner then 1 else 0
    ensures Sums.SeqSum(lines, WinnerPay(sh)) + Sums.SeqSum(lines, mark) >= if sh.isWinner then sh.winnerPot + 1 else 0
  {
    WinnersPortions(sh, lines);
    if sh.isWinner {
      Sums.SeqSumConstant<Line>(lines, mark, 1);
      PortionsNearlyFill(sh.winnerPot, sh.winnerTotal, lines);
    } else {
      Sums.SeqSumConstant<Line>(lines, mark, 0);
    }
  }

  lemma ExtraNearlyFills(cfg: Config, d: Storage, lines: seq<Line>, club: string)
    requires Settled(d) && SharesFor(cfg, d, 0, 0, club).Ok?
    requires DistinctLines(lines) && AllIn(lines, club)
    requires exists i :: 0 <= i < |lines| && lines[i].key.1 == d.clubs[club].owner
    requires club in d.winning.winners ==> Sums.SeqSum(lines, Amount()) == d.winning.winningStake > 0
    requires forall l :: l in lines ==> Fits(Terms(cfg, d, club).winnerPot * l.amount)
    ensures Sums.SeqSum(lines, Extra(cfg, d)) + Sums.SeqSum(lines, InWinningClub(d))
            >= if club in d.winning.winners then PerWinner(d) + 1 else PerOther(d)
  {
    var sh := Terms(cfg, d, club);
    TermsOfAClub(cfg, d, club);
    ExtraOfAClub(cfg, d, lines, club);
    OwnerIsPaidOnce(lines, club, sh.owner, sh.ownerReward);
    WinnersNearlyFilled(sh, lines, InWinningClub(d));
  }

  // The whole round.

  lemma PercentFits(reward: nat, percent: nat, clubs: nat)
    ensures 100 * (clubs * Percent(reward, percent, clubs)) <= reward * percent
  {
    var part := Floor(MulOrZero(reward, percent), 100);
    if clubs > 0 {
      assert Percent(reward, percent, clubs) == Floor(part, clubs);
    } else {
      assert clubs * Percent(reward, percent, clubs) == 0;
    }
  }

  lemma PercentNearlyFills(reward: nat, percent: nat, clubs: nat)
    requires clubs > 0 && Fits(reward * percent)
    ensures 100 * (clubs * Percent(reward, percent, clubs)) >= reward * percent - 100 * clubs + 1
  {
    var part := Floor(reward * percent, 100);
    assert Percent(reward, percent, clubs) == Floor(part, clubs);
  }

  lemma PlusTimes(n: int, a: int, b: int)
    ensures n * (a + b) == n * a + n * b
  {
  }

  /** With winners, and others or not, the percentages miss the reward by at most two per winner and
      one per other club. */
  lemma PercentagesNearlyFill(d: Storage)
    requires Others(d) >= 0 && d.winning.winners != [] && Fits(d.reward * 78)
    ensures d.reward - Percent(d.reward, 78, 1) - |d.winning.winners| * PerWinner(d) - Others(d) * PerOther(d)
            <= 2 * |d.winning.winners| + Others(d)
  {
    var w, o := |d.winning.winners|, Others(d);
    PercentNearlyFills(d.reward, 78, 1);
    PercentNearlyFills(d.reward, 19, w);
    PlusTimes(w, Percent(d.reward, 19, w), OwnerReward(d.reward, true, w, o));
    if o == 0 {
      PercentNearlyFills(d.reward, 3, w);
      assert o * PerOther(d) == 0;
    } else {
      PercentNearlyFills(d.reward, 1, w);
      PercentNearlyFills(d.reward, 2, o);
    }
  }

  predicate InClubs(cfg: Config, d: Storage, lines: seq<Line>) {
    forall i :: 0 <= i < |lines| ==> lines[i].key.0 in d.clubs && SharesFor(cfg, d, 0, 0, lines[i].key.0).Ok?
  }

  lemma PayingIsPortionAndExtra(cfg: Config, d: Storage, lines: seq<Line>)
    requires InClubs(cfg, d, lines)
    ensures Sums.SeqSum(lines, Paying(cfg, d))
            == Sums.SeqSum(lines, Portion(Percent(d.reward, 78, 1), d.winning.totalStake))
               + Sums.SeqSum(lines, Extra(cfg, d))
  {
    Sums.SeqSumPlus<Line>(lines, Paying(cfg, d), Portion(Percent(d.reward, 78, 1), d.winning.totalStake), Extra(cfg, d));
  }

  /** Extra pay and a mark for every stake in a winning club. */
  function Marked(cfg: Config, d: Storage): Line -> int {
    (l: Line) => Extra(cfg, d)(l) + InWinningClub(d)(l)
  }

  predicate OwnerHasLine(d: Storage, lines: seq<Line>, club: string)
    requires club in d.clubs
  {
    exists i :: 0 <= i < |lines| && lines[i].key == (club, d.clubs[club].owner)
  }

  /** Everybody is paid, for what the snapshot counted, and no product overflows. */
  predicate Complete(cfg: Config, d: Storage, lines: seq<Line>) {
    && d.winning.winners != []
    && Sums.SeqSum(lines, Amount()) == d.winning.totalStake > 0
    && (forall c :: c in d.winning.winners ==>
          Sums.SeqSum(LinesIn(lines, c), Amount()) == d.winning.winningStake > 0)
    && (forall c :: c in d.clubs ==> OwnerHasLine(d, lines, c))
    && Fits(d.reward * 78) && Fits(d.reward * d.winning.totalStake)
  }

  lemma {:induction false} LineBelowSum(lines: seq<Line>, l: Line)
    requires l in lines
    ensures l.amount <= Sums.SeqSum(lines, Amount())
  {
    var n := |lines| - 1;
    AmountsNonNegative(lines[..n]);
    if l != lines[n] {
      var i :| 0 <= i < n && lines[i] == l;
      LineBelowSum(lines[..n], l);
    }
  }

  lemma {:induction false} AmountsNonNegative(lines: seq<Line>)
    ensures Sums.SeqSum(lines, Amount()) >= 0
  {
    if lines != [] {
      AmountsNonNegative(lines[..|lines| - 1]);
    }
  }

  /** A pot no larger than the reward does not overflow when it is shared out. */
  lemma ProductFits(pot: nat, reward: nat, amount: nat, total: nat)
    requires pot <= reward && amount <= total && Fits(reward * total)
    ensures Fits(pot * amount)
  {
    Nonlinear.MulLe(pot, reward, amount);
    Nonlinear.MulLe(amount, total, reward);
  }

  lemma PercentBelow(reward: nat, percent: nat, clubs: nat)
    requires percent <= 100
    ensures Percent(reward, percent, clubs) <= reward
  {
    PercentFits(reward, percent, clubs);
    if clubs > 0 {
      Nonlinear.MulLe(1, clubs, Percent(reward, percent, clubs));
      Nonlinear.MulLe(percent, 100, reward);
    }
  }

  lemma {:induction false} ClubNearlyFilled(cfg: Config, d: Storage, lines: seq<Line>, c: string)
    requires Settled(d) && InClubs(cfg, d, lines) && DistinctLines(lines) && Complete(cfg, d, lines)
    requires c in d.clubs
    ensures Sums.SeqSum(LinesIn(lines, c), Marked(cfg, d))
            >= if c in d.winning.winners then PerWinner(d) + 1 else PerOther(d)
  {
    var own := LinesIn(lines, c);
    LinesInAreIn(lines, c);
    LinesInStayDistinct(lines, c);
    var i :| 0 <= i < |lines| && lines[i].key == (c, d.clubs[c].owner);
    LinesInAreThose(lines, c, lines[i]);
    var j :| 0 <= j < |own| && own[j] == lines[i];
    assert own[j].key.1 == d.clubs[c].owner;
    forall l | l in own ensures Fits(Terms(cfg, d, c).winnerPot * l.amount) {
      LinesInAreThose(lines, c, l);
      LineBelowSum(lines, l);
      PercentBelow(d.reward, 19, |d.winning.winners|);
      ProductFits(Terms(cfg, d, c).winnerPot, d.reward, l.amount, d.winning.totalStake);
    }
    ExtraNearlyFills(cfg, d, own, c);
    Sums.SeqSumPlus<Line>(own, Marked(cfg, d), Extra(cfg, d), InWinningClub(d));
  }

  lemma MarkedInClub(cfg: Config, d: Storage, lines: seq<Line>, c: string, v: Club)
    requires Settled(d) && InClubs(cfg, d, lines) && DistinctLines(lines) && Complete(cfg, d, lines)
    requires c in d.clubs
    ensures Budget(d.winning.winners, PerWinner(d) + 1, PerOther(d))(c, v) <= ClubSum(lines, Marked(cfg, d))(c, v)
  {
    ClubNearlyFilled(cfg, d, lines, c);
  }

  lemma MarkedNearlyFill(cfg: Config, d: Storage, lines: seq<Line>)
    requires Settled(d) && InClubs(cfg, d, lines) && DistinctLines(lines) && Complete(cfg, d, lines)
    ensures Sums.SeqSum(lines, Marked(cfg, d)) >= |d.winning.winners| * (PerWinner(d) + 1) + Others(d) * PerOther(d)
  {
    BudgetBelow(d, lines, Marked(cfg, d), PerWinner(d) + 1, PerOther(d)) by {
      forall c | c in d.clubs
        ensures Budget(d.winning.winners, PerWinner(d) + 1, PerOther(d))(c, d.clubs[c])
                <= ClubSum(lines, Marked(cfg, d))(c, d.clubs[c])
      {
        MarkedInClub(cfg, d, lines, c, d.clubs[c]);
      }
    }
  }

  /** A sum over lines that reaches a budget in every club reaches the whole budget. */
  lemma BudgetBelow(d: Storage, lines: seq<Line>, g: Line -> int, perWinner: int, perOther: int)
    requires Settled(d) && forall i :: 0 <= i < |lines| ==> lines[i].key.0 in d.clubs
    requires forall c :: c in d.clubs ==>
               Budget(d.winning.winners, perWinner, perOther)(c, d.clubs[c]) <= ClubSum(lines, g)(c, d.clubs[c])
    ensures Sums.SeqSum(lines, g) >= |d.winning.winners| * perWinner + Others(d) * perOther
  {
    ByClub(lines, g, d.clubs);
    Sums.Below<string, Club>(d.clubs, Budget(d.winning.winners, perWinner, perOther), ClubSum(lines, g));
    BudgetSum(d.clubs, d.winning.winners, Others(d), perWinner, perOther);
  }

  lemma ExtrasNearlyFill(cfg: Config, d: Storage, lines: seq<Line>)
    requires Settled(d) && InClubs(cfg, d, lines) && DistinctLines(lines) && Complete(cfg, d, lines)
    ensures Sums.SeqSum(lines, Extra(cfg, d)) + Sums.SeqSum(lines, InWinningClub(d))
            >= |d.winning.winners| * (PerWinner(d) + 1) + Others(d) * PerOther(d)
  {
    Sums.SeqSumPlus<Line>(lines, Marked(cfg, d), Extra(cfg, d), InWinningClub(d));
    MarkedNearlyFill(cfg, d, lines);
  }

  /** When everybody is paid, what is left of the reward is less than one unit per stake, one more
      per stake in a winning club, and one per club. */
  lemma OnlyDustIsLeft(cfg: Config, d: Storage, lines: seq<Line>)
    requires Settled(d) && InClubs(cfg, d, lines) && DistinctLines(lines) && Complete(cfg, d, lines)
    ensures d.reward - Sums.SeqSum(lines, Paying(cfg, d))
            < |lines| + Sums.SeqSum(lines, InWinningClub(d)) + |d.clubs|
  {
    var pot := Percent(d.reward, 78, 1);
    PayingIsPortionAndExtra(cfg, d, lines);
    forall l | l in lines ensures Fits(pot * l.amount) {
      LineBelowSum(lines, l);
      PercentBelow(d.reward, 78, 1);
      ProductFits(pot, d.reward, l.amount, d.winning.totalStake);
    }
    PortionsNearlyFill(pot, d.winning.totalStake, lines);
    ExtrasNearlyFill(cfg, d, lines);
    PercentagesNearlyFill(d);
    PlusTimes(|d.winning.winners|, PerWinner(d), 1);
  }
}
