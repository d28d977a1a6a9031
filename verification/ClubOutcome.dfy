/** What a round gives, said of the clubs, the stakes and the snapshot at its start: never more than
    the ideal share, for complete rounds no less than that but for rounding, and so when a round
    overspends, when it leaves dust, and what smaller winners leave undistributed. */
module ClubOutcome {
  import opened Chain
  import opened ClubStaking
  import opened ClubWinners
  import opened ClubOwners
  import opened ClubLedger
  import opened ClubSchedule
  import opened ClubRewards
  import opened ClubWeights
  import opened ClubRounds
  import Nonlinear
  import Sums

  // The start of a round.

  /** The clubs that win; none when every club has collapsed. */
  ghost function Champions(s: Storage): set<string> {
    if NotCollapsed(s) then set c | c in s.clubs && WinsIn(s, c) else {}
  }

  ghost function SnapshotTotal(s: Storage): int { Sums.Sum<string, Club>(s.clubs, ClubTotal()) }

  ghost function StakedIn(s: Storage): (string, Club) -> int { (c: string, _: Club) => Staked(s.stakes, c) }

  ghost function WonIn(s: Storage): (string, Club) -> int {
    (c: string, _: Club) => if c in Champions(s) then Staked(s.stakes, c) else 0
  }

  /** All that is staked, and what is staked in winning clubs. */
  ghost function AllStaked(s: Storage): int { Sums.Sum<string, Club>(s.clubs, StakedIn(s)) }

  ghost function AllWon(s: Storage): int { Sums.Sum<string, Club>(s.clubs, WonIn(s)) }

  lemma {:induction false} DistinctCount(names: seq<string>, all: set<string>)
    requires Distinct(names) && forall c :: c in names <==> c in all
    ensures |names| == |all|
    decreases |names|
  {
    if names == [] {
      assert all == {};
    } else {
      var n := |names| - 1;
      assert names == names[..n] + [names[n]] && names[n] !in names[..n];
      DistinctCount(names[..n], all - {names[n]});
    }
  }

  /** The winners a round works with are the champions of its start. */
  lemma WinnersAreChampions(s: Storage, w: Winning)
    requires Judged(s, w)
    ensures forall c :: c in w.winners <==> c in Champions(s)
    ensures |w.winners| == |Champions(s)|
    ensures w.winners != [] ==> LargestLead(s, w.winningStake)
  {
    DistinctCount(w.winners, Champions(s));
  }

  lemma OnlyOneLargest(s: Storage, a: nat, b: nat)
    requires LargestLead(s, a) && LargestLead(s, b)
    ensures a == b
  {
  }

  // The lines of a round.

  ghost function Won(s: Storage): Line -> int { (l: Line) => if l.key.0 in Champions(s) then l.amount else 0 }

  lemma WonByLines(s: Storage, w: Winning, lines: seq<Line>)
    requires forall c :: c in w.winners <==> c in Champions(s)
    ensures Sums.SeqSum(WinningLines(lines, w.winners), Amount()) == Sums.SeqSum(lines, Won(s))
  {
    WinningSum(lines, w.winners, Amount());
    Sums.SeqSumSame<Line>(lines, InWinners(w.winners, Amount()), Won(s));
  }

  /** The ideal share of the stakes that are paid. */
  ghost function ShareOf(s: Storage, lines: seq<Line>, top: nat): real {
    Ideal(s.reward, Sums.SeqSum(lines, Amount()), SnapshotTotal(s), Sums.SeqSum(lines, Won(s)), |Champions(s)|, top)
  }

  lemma ShareIsIdeal(s: Storage, w: Winning, lines: seq<Line>, top: nat)
    requires Judged(s, w) && LargestLead(s, top)
    ensures IdealFor(s.(winning := w), lines) == ShareOf(s, lines, top)
  {
    WinnersAreChampions(s, w);
    WonByLines(s, w, lines);
    if w.winners != [] {
      OnlyOneLargest(s, top, w.winningStake);
    }
    SameIdeal(s.reward, Sums.SeqSum(lines, Amount()), SnapshotTotal(s), Sums.SeqSum(lines, Won(s)), |Champions(s)|,
              w.winningStake, top);
  }

  lemma SameIdeal(reward: int, staked: int, total: int, won: int, winners: int, a: int, b: int)
    requires winners == 0 || a == b
    ensures Ideal(reward, staked, total, won, winners, a) == Ideal(reward, staked, total, won, winners, b)
  {
    if winners == 0 {
      assert winners * a == 0 && winners * b == 0;
    }
  }

  /** A round gives at most the ideal share of what it pays, whoever it lists. */
  lemma RoundGivesAtMostItsShare(cfg: Config, s: Storage, calls: seq<Call>, top: nat)
    requires Neat(s.stakes) && IsRound(cfg, s, calls) && LargestLead(s, top)
    ensures Run(cfg, s, calls).given as real <= ShareOf(s, Lines(cfg, s, calls), top)
  {
    var t, lines := Run(cfg, s, calls), Lines(cfg, s, calls);
    RoundSoFar(cfg, s, calls);
    GivenIsAtMostIdeal(cfg, s.(winning := t.winning), lines);
    ShareIsIdeal(s, t.winning, lines, top);
  }

  /** The stakes that are paid weigh no more than what the percentages reckon with. */
  ghost predicate WithinWeights(s: Storage, lines: seq<Line>, top: nat) {
    Light(Sums.SeqSum(lines, Amount()), SnapshotTotal(s), Sums.SeqSum(lines, Won(s)), |Champions(s)|, top)
  }

  lemma LightRoundsFit(cfg: Config, s: Storage, calls: seq<Call>, top: nat)
    requires Neat(s.stakes) && IsRound(cfg, s, calls) && LargestLead(s, top)
    requires WithinWeights(s, Lines(cfg, s, calls), top)
    ensures Run(cfg, s, calls).given <= s.reward
  {
    var lines := Lines(cfg, s, calls);
    RoundGivesAtMostItsShare(cfg, s, calls, top);
    LightIsWithin(Run(cfg, s, calls).given, s.reward, Sums.SeqSum(lines, Amount()), SnapshotTotal(s),
                  Sums.SeqSum(lines, Won(s)), |Champions(s)|, top);
  }

  /** A round whose stakes are within the weights never gives more than the reward, whatever its batches
      are; after the final batch the reward is less by exactly what was given, and before it is
      untouched. */
  lemma RoundNeverOverspends(cfg: Config, s: Storage, calls: seq<Call>, top: nat)
    requires Neat(s.stakes) && IsRound(cfg, s, calls) && LargestLead(s, top)
    requires WithinWeights(s, Lines(cfg, s, calls), top)
    ensures var t := Run(cfg, s, calls);
            && t.given <= s.reward
            && t.reward == if EndsFinal(calls) then s.reward - t.given else s.reward
  {
    RoundSoFar(cfg, s, calls);
    LightRoundsFit(cfg, s, calls, top);
  }

  // Stakes within the totals are within the weights.

  lemma {:induction false} WonIsSome(s: Storage, lines: seq<Line>)
    ensures 0 <= Sums.SeqSum(lines, Won(s)) <= Sums.SeqSum(lines, Amount())
  {
    if lines != [] {
      WonIsSome(s, lines[..|lines| - 1]);
    }
  }

  lemma WonInClub(s: Storage, lines: seq<Line>, c: string)
    requires AllIn(lines, c)
    ensures Sums.SeqSum(lines, Won(s)) == if c in Champions(s) then Sums.SeqSum(lines, Amount()) else 0
  {
    if c in Champions(s) {
      Sums.SeqSumSame<Line>(lines, Won(s), Amount());
    } else {
      Sums.SeqSumConstant<Line>(lines, Won(s), 0);
    }
  }

  lemma ClubWithinTotal(s: Storage, lines: seq<Line>, keys: set<Key>, c: string)
    requires LinesFrom(s.stakes, lines, keys) && StakesWithinTotals(s) && c in s.clubs
    ensures Sums.SeqSum(LinesIn(lines, c), Amount()) <= s.clubs[c].total
  {
    LinesInFrom(s.stakes, lines, keys, c);
    LinesWithinStakes(s.stakes, LinesIn(lines, c), keys, c);
  }

  lemma StakedWithinSnapshot(cfg: Config, s: Storage, w: Winning, lines: seq<Line>, keys: set<Key>)
    requires LinesFrom(s.stakes, lines, keys) && StakesWithinTotals(s) && InClubs(cfg, s.(winning := w), lines)
    ensures Sums.SeqSum(lines, Amount()) <= SnapshotTotal(s)
  {
    ByClub(lines, Amount(), s.clubs);
    forall c | c in s.clubs ensures ClubSum(lines, Amount())(c, s.clubs[c]) <= ClubTotal()(c, s.clubs[c]) {
      ClubWithinTotal(s, lines, keys, c);
    }
    Sums.Below<string, Club>(s.clubs, ClubSum(lines, Amount()), ClubTotal());
  }

  lemma WonWithinTops(cfg: Config, s: Storage, w: Winning, lines: seq<Line>, keys: set<Key>, top: nat)
    requires LinesFrom(s.stakes, lines, keys) && StakesWithinTotals(s) && InClubs(cfg, s.(winning := w), lines)
    requires Judged(s, w) && LargestLead(s, top)
    ensures Sums.SeqSum(lines, Won(s)) <= |Champions(s)| * top
  {
    WinnersAreChampions(s, w);
    ByClub(lines, Won(s), s.clubs);
    var f, g := ClubSum(lines, Won(s)), Budget(w.winners, top, 0);
    forall c | c in s.clubs ensures f(c, s.clubs[c]) <= g(c, s.clubs[c]) {
      LinesInAreIn(lines, c);
      WonInClub(s, LinesIn(lines, c), c);
      ClubWithinTotal(s, lines, keys, c);
      assert c in Champions(s) ==> Leads(s, c) && s.clubs[c].total <= top;
    }
    Sums.Below<string, Club>(s.clubs, f, g);
    BudgetSum(s.clubs, w.winners, |s.clubs| - |w.winners|, top, 0);
  }

  /** Stakes within the totals are enough: then whoever is listed, the round is within the weights. */
  lemma {:induction false} RoundStaysWithinWeights(cfg: Config, s: Storage, calls: seq<Call>, top: nat)
    requires Neat(s.stakes) && IsRound(cfg, s, calls) && LargestLead(s, top) && StakesWithinTotals(s)
    ensures WithinWeights(s, Lines(cfg, s, calls), top)
  {
    var t, lines := Run(cfg, s, calls), Lines(cfg, s, calls);
    RoundSoFar(cfg, s, calls);
    StakedWithinSnapshot(cfg, s, t.winning, lines, AllListed(calls));
    WonWithinTops(cfg, s, t.winning, lines, AllListed(calls), top);
    WonIsSome(s, lines);
    WithinIsLight(Sums.SeqSum(lines, Amount()), SnapshotTotal(s), Sums.SeqSum(lines, Won(s)), |Champions(s)|, top);
  }

  // Complete rounds.

  /** The ideal share of everything that is staked, and what rounding may take from it. */
  ghost function FairShare(s: Storage, top: nat): real {
    Ideal(s.reward, AllStaked(s), SnapshotTotal(s), AllWon(s), |Champions(s)|, top)
  }

  ghost function FairRounding(s: Storage, top: nat): real {
    Rounding(|StakeKeys(s)|, |KeysIn(StakeKeys(s), Champions(s))|, |s.clubs|, AllStaked(s), SnapshotTotal(s), AllWon(s),
             top)
  }

  /** The lines of a complete round are for everything that is staked. */
  lemma {:induction false} CompleteSums(cfg: Config, s: Storage, calls: seq<Call>, started: nat)
    requires Neat(s.stakes) && IsRound(cfg, s, calls) && ListsEverybody(cfg, s, calls, started)
    ensures Sums.SeqSum(Lines(cfg, s, calls), Amount()) == AllStaked(s)
    ensures Sums.SeqSum(Lines(cfg, s, calls), Won(s)) == AllWon(s)
  {
    var lines := Lines(cfg, s, calls);
    RoundSoFar(cfg, s, calls);
    ByClub(lines, Amount(), s.clubs);
    ByClub(lines, Won(s), s.clubs);
    forall c | c in s.clubs
      ensures ClubSum(lines, Amount())(c, s.clubs[c]) == StakedIn(s)(c, s.clubs[c])
      ensures ClubSum(lines, Won(s))(c, s.clubs[c]) == WonIn(s)(c, s.clubs[c])
    {
      ClubIsCovered(cfg, s, calls, started, c);
      LinesInAreIn(lines, c);
      WonInClub(s, LinesIn(lines, c), c);
    }
    Sums.Congruent<string, Club>(s.clubs, ClubSum(lines, Amount()), StakedIn(s));
    Sums.Congruent<string, Club>(s.clubs, ClubSum(lines, Won(s)), WonIn(s));
  }

  lemma CompleteCounts(cfg: Config, s: Storage, calls: seq<Call>, started: nat, w: Winning)
    requires Neat(s.stakes) && IsRound(cfg, s, calls) && ListsEverybody(cfg, s, calls, started)
    requires forall c :: c in w.winners <==> c in Champions(s)
    ensures var lines := Lines(cfg, s, calls);
            && |lines| == |StakeKeys(s)|
            && |WinningLines(lines, w.winners)| == |KeysIn(StakeKeys(s), Champions(s))|
            && Sums.SeqSum(lines, InWinningClub(s.(winning := w))) == |KeysIn(StakeKeys(s), Champions(s))|
  {
    var lines := Lines(cfg, s, calls);
    RoundSoFar(cfg, s, calls);
    LinesAreTheStakes(cfg, s, calls, started);
    LineCount(lines);
    WinnerCount(lines, s.(winning := w), Champions(s));
    WinningCount(lines, s.(winning := w));
  }

  lemma OwnersHaveLines(cfg: Config, s: Storage, calls: seq<Call>, started: nat, w: Winning)
    requires Neat(s.stakes) && IsRound(cfg, s, calls) && ListsEverybody(cfg, s, calls, started) && OwnersHoldStakes(s)
    ensures forall c :: c in s.clubs ==> OwnerHasLine(s.(winning := w), Lines(cfg, s, calls), c)
  {
    LinesAreTheStakes(cfg, s, calls, started);
    forall c | c in s.clubs ensures OwnerHasLine(s.(winning := w), Lines(cfg, s, calls), c) {
      assert (c, s.clubs[c].owner) in LineKeys(Lines(cfg, s, calls));
    }
  }

  lemma RoundingIsFair(cfg: Config, s: Storage, calls: seq<Call>, started: nat, w: Winning, top: nat)
    requires Neat(s.stakes) && IsRound(cfg, s, calls) && ListsEverybody(cfg, s, calls, started)
    requires Judged(s, w) && LargestLead(s, top) && w.winners != []
    ensures RoundingFor(s.(winning := w), Lines(cfg, s, calls)) == FairRounding(s, top)
  {
    WinnersAreChampions(s, w);
    OnlyOneLargest(s, top, w.winningStake);
    CompleteSums(cfg, s, calls, started);
    CompleteCounts(cfg, s, calls, started, w);
    WonByLines(s, w, Lines(cfg, s, calls));
  }

  lemma ChampionsExist(s: Storage, w: Winning)
    requires Judged(s, w) && NotCollapsed(s)
    ensures w.winners != []
  {
    var first: string :| first in s.clubs && WinsIn(s, first) by {
      SomebodyWins(s);
    }
    assert first in w.winners;
  }

  /** Among clubs that lead, the first in key order wins. */
  lemma SomebodyWins(s: Storage)
    requires NotCollapsed(s)
    ensures exists c :: c in s.clubs && WinsIn(s, c)
  {
    var es := Entries(s, ClubKeys(s));
    EntriesInOrder(s);
    SomeEntryHolds(s);
    NoWinnersExactlyWhenAllCollapsed(es);
    assert ScanAll(es).winners[0] in ScanAll(es).winners;
    WinnersAreExact(es, ScanAll(es).winners[0]);
    var i :| 0 <= i < |es| && Wins(es, i) && es[i].club == ScanAll(es).winners[0];
    WinsInIsWins(s, i);
    assert ClubKeys(s)[i] in s.clubs;
  }

  /** What a complete round gives is the fair share of all stakes, short of it by rounding at most,
      whatever the totals say and whatever the winners hold. */
  lemma {:induction false} CompleteRoundGivesItsShare(cfg: Config, s: Storage, calls: seq<Call>, started: nat, top: nat)
    requires Neat(s.stakes) && IsRound(cfg, s, calls) && ListsEverybody(cfg, s, calls, started)
    requires LargestLead(s, top)
    ensures Run(cfg, s, calls).given as real <= FairShare(s, top)
    ensures NotCollapsed(s) && OwnersHoldStakes(s) && Fits(s.reward * 78) && Fits(s.reward * AllStaked(s)) ==>
              FairShare(s, top) - FairRounding(s, top) <= Run(cfg, s, calls).given as real
  {
    var t, lines := Run(cfg, s, calls), Lines(cfg, s, calls);
    RoundSoFar(cfg, s, calls);
    CompleteSums(cfg, s, calls, started);
    RoundGivesAtMostItsShare(cfg, s, calls, top);
    if NotCollapsed(s) && OwnersHoldStakes(s) && Fits(s.reward * 78) && Fits(s.reward * AllStaked(s)) {
      ChampionsExist(s, t.winning);
      OwnersHaveLines(cfg, s, calls, started, t.winning);
      ShareIsIdeal(s, t.winning, lines, top);
      RoundingIsFair(cfg, s, calls, started, t.winning, top);
      GivenIsNearlyIdeal(cfg, s.(winning := t.winning), lines);
    }
  }

  /** So a complete round overspends whenever the fair share exceeds the reward by more than rounding:
      it gives more than there is, and nothing is left. */
  lemma {:induction false} CompleteRoundOverspends(cfg: Config, s: Storage, calls: seq<Call>, started: nat, top: nat)
    requires Neat(s.stakes) && IsRound(cfg, s, calls) && ListsEverybody(cfg, s, calls, started)
    requires LargestLead(s, top) && NotCollapsed(s) && OwnersHoldStakes(s)
    requires Fits(s.reward * 78) && Fits(s.reward * AllStaked(s))
    requires FairShare(s, top) - FairRounding(s, top) > s.reward as real
    ensures Run(cfg, s, calls).given > s.reward
    ensures EndsFinal(calls) ==> Run(cfg, s, calls).reward == 0
  {
    CompleteRoundGivesItsShare(cfg, s, calls, started, top);
    RoundSoFar(cfg, s, calls);
  }

  // Totals that are the stakes.

  lemma TotalsStaked(s: Storage)
    requires TotalsAreStakes(s)
    ensures AllStaked(s) == SnapshotTotal(s)
  {
    Sums.Congruent<string, Club>(s.clubs, StakedIn(s), ClubTotal());
  }

  /** When the totals are the stakes, winners that hold less than the largest leave their part of the 19%
      undistributed: what is left of the reward is at least that part. */
  lemma SmallerWinnersLeaveTheirPart(cfg: Config, s: Storage, calls: seq<Call>, started: nat, top: nat)
    requires Neat(s.stakes) && IsRound(cfg, s, calls) && ListsEverybody(cfg, s, calls, started)
    requires LargestLead(s, top) && TotalsAreStakes(s)
    ensures LeavesThePart(Run(cfg, s, calls).given, s.reward, AllWon(s), |Champions(s)|, top)
  {
    CompleteRoundGivesItsShare(cfg, s, calls, started, top);
    TotalsStaked(s);
    StakedNonNegative(cfg, s, calls, started);
    FullShare(Run(cfg, s, calls).given, s.reward, AllStaked(s), SnapshotTotal(s), AllWon(s), |Champions(s)|, top);
  }

  lemma StakedNonNegative(cfg: Config, s: Storage, calls: seq<Call>, started: nat)
    requires Neat(s.stakes) && IsRound(cfg, s, calls) && ListsEverybody(cfg, s, calls, started)
    ensures AllStaked(s) >= 0
  {
    CompleteSums(cfg, s, calls, started);
    AmountsNonNegative(Lines(cfg, s, calls));
  }

  // Dust.

  /** Every winner holds the largest stake among the leaders, it holds something, and no product
      overflows. */
  ghost predicate SharesOut(s: Storage) {
    && NotCollapsed(s)
    && (forall c, e :: WinsIn(s, c) && Leads(s, e) ==> s.clubs[e].total <= s.clubs[c].total)
    && (forall c :: WinsIn(s, c) ==> s.clubs[c].total > 0)
    && Fits(s.reward * 78) && Fits(s.reward * SnapshotTotal(s))
  }

  lemma WinnersHoldTheWinningStake(s: Storage, w: Winning)
    requires Judged(s, w) && SharesOut(s)
    ensures w.winners != [] && forall c :: c in w.winners ==> s.clubs[c].total == w.winningStake > 0
  {
    ChampionsExist(s, w);
    forall c | c in w.winners ensures s.clubs[c].total == w.winningStake > 0 {
      assert WinsIn(s, c) && Leads(s, c);
      var e :| e in s.clubs && Leads(s, e) && s.clubs[e].total == w.winningStake;
    }
  }

  lemma SomethingIsStaked(s: Storage, w: Winning)
    requires Judged(s, w) && w.winners != [] && s.clubs[w.winners[0]].total > 0
    ensures SnapshotTotal(s) > 0
  {
    Sums.PartBelowSum<string, Club>(s.clubs, ClubTotal(), w.winners[0]);
  }

  lemma WinnersAreCovered(cfg: Config, s: Storage, calls: seq<Call>, started: nat, w: Winning)
    requires Neat(s.stakes) && IsRound(cfg, s, calls) && ListsEverybody(cfg, s, calls, started)
    requires TotalsAreStakes(s)
    requires forall c :: c in w.winners ==> c in s.clubs && s.clubs[c].total == w.winningStake > 0
    ensures forall c :: c in w.winners ==> Sums.SeqSum(LinesIn(Lines(cfg, s, calls), c), Amount()) == w.winningStake > 0
  {
    forall c | c in w.winners ensures Sums.SeqSum(LinesIn(Lines(cfg, s, calls), c), Amount()) == w.winningStake {
      ClubIsCovered(cfg, s, calls, started, c);
    }
  }

  lemma {:induction false} RoundIsComplete(cfg: Config, s: Storage, calls: seq<Call>, started: nat)
    requires Neat(s.stakes) && IsRound(cfg, s, calls) && ListsEverybody(cfg, s, calls, started)
    requires TotalsAreStakes(s) && OwnersHoldStakes(s) && SharesOut(s)
    ensures Complete(cfg, s.(winning := Run(cfg, s, calls).winning), Lines(cfg, s, calls))
  {
    var w := Run(cfg, s, calls).winning;
    RoundSoFar(cfg, s, calls);
    WinnersHoldTheWinningStake(s, w);
    SomethingIsStaked(s, w);
    CompleteSums(cfg, s, calls, started);
    TotalsStaked(s);
    WinnersAreCovered(cfg, s, calls, started, w);
    OwnersHaveLines(cfg, s, calls, started, w);
  }

  lemma TotalsWithin(s: Storage)
    requires TotalsAreStakes(s)
    ensures StakesWithinTotals(s)
  {
  }

  /** When the totals are the stakes and the winners share out, a complete round leaves only dust: less
      than one unit per stake, one more per stake in a winning club, and one per club. */
  lemma {:induction false} CompleteRoundLeavesDust(cfg: Config, s: Storage, calls: seq<Call>, started: nat)
    requires Neat(s.stakes) && IsRound(cfg, s, calls) && ListsEverybody(cfg, s, calls, started)
    requires TotalsAreStakes(s) && OwnersHoldStakes(s) && SharesOut(s)
    ensures var t := Run(cfg, s, calls);
            && 0 <= s.reward - t.given < |StakeKeys(s)| + |KeysIn(StakeKeys(s), Champions(s))| + |s.clubs|
            && (EndsFinal(calls) ==> t.reward == s.reward - t.given)
  {
    var t, lines := Run(cfg, s, calls), Lines(cfg, s, calls);
    var d := s.(winning := t.winning);
    RoundSoFar(cfg, s, calls);
    RoundIsComplete(cfg, s, calls, started);
    OnlyDustIsLeft(cfg, d, lines);
    WinnersAreChampions(s, t.winning);
    CompleteCounts(cfg, s, calls, started, t.winning);
    TotalsWithin(s);
    RoundStaysWithinWeights(cfg, s, calls, t.winning.winningStake);
    RoundNeverOverspends(cfg, s, calls, t.winning.winningStake);
  }
}
