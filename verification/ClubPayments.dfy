/** What one due stake is paid, to the unit: its parts of the two pots and, for the owner, the percentage
    that goes with winning or not; and what that does to the stake, on every accepted batch. */
module ClubPayments {
  import opened Chain
  import opened ClubStaking
  import opened ClubDistribution
  import opened ClubLedger
  import opened ClubRepeats
  import opened ClubRewards
  import opened Nonlinear

  // Percentages.

  /** `part` is the most that, taken once per club, stays within `percent` percent of the reward. */
  predicate IsPart(reward: nat, percent: nat, clubs: nat, part: nat) {
    100 * clubs * part <= percent * reward < 100 * clubs * (part + 1)
  }

  lemma PercentIsPart(reward: nat, percent: nat, clubs: nat)
    requires clubs > 0 && Fits(reward * percent)
    ensures IsPart(reward, percent, clubs, Percent(reward, percent, clubs))
  {
    var hundredth := Floor(reward * percent, 100);
    var part := Percent(reward, percent, clubs);
    assert part * clubs <= hundredth < part * clubs + clubs;
    assert 100 * clubs * part == 100 * (part * clubs);
    assert 100 * clubs * (part + 1) == 100 * (part * clubs + clubs);
    assert reward * percent == percent * reward;
  }

  /** How many clubs did not win. */
  function OtherClubs(s: Storage): int { s.winning.clubs - |s.winning.winners| }

  /** The owner's percentage: 1 shared by the winners' owners and 2 by the others', or 3 by the winners'
      owners when every club has won; the stakers' are 78, and 19 more shared by the winning clubs. */
  lemma PercentagesOfAClub(cfg: Config, s: Storage, now: nat, saved: nat, club: string)
    requires SharesFor(cfg, s, now, saved, club).Ok? && Fits(s.reward * 78)
    ensures var sh, won := SharesFor(cfg, s, now, saved, club).value, club in s.winning.winners;
            && OtherClubs(s) >= 0 && (won <==> sh.isWinner)
            && (won && OtherClubs(s) > 0 ==> IsPart(s.reward, 1, |s.winning.winners|, sh.ownerReward))
            && (won && OtherClubs(s) == 0 ==> IsPart(s.reward, 3, |s.winning.winners|, sh.ownerReward))
            && (!won ==> OtherClubs(s) > 0 && IsPart(s.reward, 2, OtherClubs(s), sh.ownerReward))
            && (won ==> IsPart(s.reward, 19, |s.winning.winners|, sh.winnerPot))
            && IsPart(s.reward, 78, 1, sh.pot)
  {
    MulLe(1, 78, s.reward);
    MulLe(3, 78, s.reward);
    MulLe(19, 78, s.reward);
    var w := |s.winning.winners|;
    PercentIsPart(s.reward, 78, 1);
    if club in s.winning.winners {
      PercentIsPart(s.reward, 1, w);
      PercentIsPart(s.reward, 3, w);
      PercentIsPart(s.reward, 19, w);
    } else {
      PercentIsPart(s.reward, 2, OtherClubs(s));
    }
  }

  /** The same for a round as a whole, where the times do not matter. */
  lemma OwnersGetTheirPercentage(cfg: Config, d: Storage, club: string)
    requires SharesFor(cfg, d, 0, 0, club).Ok? && Fits(d.reward * 78)
    ensures var x, w, others := Terms(cfg, d, club).ownerReward, |d.winning.winners|, OtherClubs(d);
            && (club in d.winning.winners && others > 0 ==> 100 * w * x <= d.reward < 100 * w * (x + 1))
            && (club in d.winning.winners && others == 0 ==> 100 * w * x <= 3 * d.reward < 100 * w * (x + 1))
            && (club !in d.winning.winners ==> 100 * others * x <= 2 * d.reward < 100 * others * (x + 1))
  {
    PercentagesOfAClub(cfg, d, 0, 0, club);
  }

  // One stake.

  /** `part` is the pot's share of an amount among `total`, rounded down; nothing when there is no total. */
  predicate IsShare(pot: nat, amount: nat, total: nat, part: nat) {
    if total == 0 then part == 0 else part * total <= pot * amount < (part + 1) * total
  }

  lemma ShareIsPart(pot: nat, amount: nat, total: nat)
    requires Fits(pot * amount)
    ensures IsShare(pot, amount, total, DivOrZero(MulOrZero(pot, amount), total))
  {
  }

  /** What a stake is paid is made up of its share of the stakers' pot, in a winning club its share of the
      club's part of the winners' pot, and for the owner the owner's part. */
  predicate IsPayment(s: Storage, club: string, k: Stake, pot: nat, basic: nat, prize: nat, extra: nat, owned: nat) {
    var w, others := |s.winning.winners|, OtherClubs(s);
    && club in s.clubs
    && IsPart(s.reward, 78, 1, pot) && IsShare(pot, k.amount, s.winning.totalStake, basic)
    && (if club !in s.winning.winners then prize == extra == 0
        else IsPart(s.reward, 19, w, prize) && IsShare(prize, k.amount, s.winning.winningStake, extra))
    && (if k.staker != s.clubs[club].owner then owned == 0
        else if club !in s.winning.winners then others > 0 && IsPart(s.reward, 2, others, owned)
        else IsPart(s.reward, if others > 0 then 1 else 3, w, owned))
  }

  lemma ShareOfAPart(reward: nat, percent: nat, clubs: nat, pot: nat, amount: nat, total: nat)
    requires IsPart(reward, percent, clubs, pot) && clubs > 0 && percent <= 100 && Fits(reward * amount)
    ensures IsShare(pot, amount, total, DivOrZero(MulOrZero(pot, amount), total))
  {
    PartIsWithin(reward, percent, clubs, pot);
    MulLe(pot, reward, amount);
    ShareIsPart(pot, amount, total);
  }

  lemma {:induction false} PaymentOf(cfg: Config, s: Storage, now: nat, saved: nat, club: string, k: Stake)
    returns (pot: nat, basic: nat, prize: nat, extra: nat, owned: nat)
    requires SharesFor(cfg, s, now, saved, club).Ok? && Fits(s.reward * 78) && Fits(s.reward * k.amount)
    ensures IsPayment(s, club, k, pot, basic, prize, extra, owned)
    ensures SharesFor(cfg, s, now, saved, club).value.Pay(k) == basic + extra + owned
  {
    var sh := SharesFor(cfg, s, now, saved, club).value;
    PercentagesOfAClub(cfg, s, now, saved, club);
    pot, prize := sh.pot, if sh.isWinner then sh.winnerPot else 0;
    ShareOfAPart(s.reward, 78, 1, pot, k.amount, sh.total);
    if sh.isWinner {
      ShareOfAPart(s.reward, 19, |s.winning.winners|, prize, k.amount, sh.winnerTotal);
    }
    basic, extra, owned := sh.PotPart(k.amount), sh.WinnerPart(k.amount), sh.OwnerPart(k.staker);
  }

  lemma PartIsWithin(reward: nat, percent: nat, clubs: nat, part: nat)
    requires IsPart(reward, percent, clubs, part) && clubs > 0 && percent <= 100
    ensures part <= reward
  {
    if part > reward {
      MulLe(percent, 100, reward);
      MulLe(1, clubs, part);
    }
  }

  // One stake through a batch.

  /** The stake after a payment: compounded with all that was pending when it is auto-staked, else pending,
      and in any case due again at `start`. */
  function PaidStake(k: Stake, pay: nat, start: nat): Stake {
    if k.auto then Stake(k.staker, start, k.amount + k.reward + pay, 0, true)
    else Stake(k.staker, start, k.amount, k.reward + pay, false)
  }

  lemma OneStakePaid(sh: Shares, k: Stake, given: nat, added: nat)
    requires RewardList(sh, [k], given, added).Ok? && k.start <= sh.now
    ensures sh.newStart.Some?
    ensures RewardList(sh, [k], given, added).value.list == [PaidStake(k, sh.Pay(k), sh.newStart.value)]
  {
    OneRewarded(sh, k, given, added);
  }

  lemma {:induction false} UnlistedIsUntouched(sh: Shares, stakes: map<Key, seq<Stake>>, club: string, stakers: seq<Addr>,
                                              key: Key)
    requires RewardStakers(sh, stakes, club, stakers).Ok? && (key.0 != club || key.1 !in stakers)
    ensures Get(RewardStakers(sh, stakes, club, stakers).value.stakes, key, []) == Get(stakes, key, [])
  {
    if stakers != [] {
      var n := |stakers| - 1;
      UnlistedIsUntouched(sh, stakes, club, stakers[..n], key);
    }
  }

  /** A due stake listed once is paid once, for the amount it had. */
  lemma {:induction false} ListedOnceIsPaidOnce(sh: Shares, stakes: map<Key, seq<Stake>>, club: string,
                                               stakers: seq<Addr>, k: Stake)
    requires RewardStakers(sh, stakes, club, stakers).Ok? && k.start <= sh.now
    requires Get(stakes, (club, k.staker), []) == [k] && k.staker in stakers && !Repeats(stakers, k.staker)
    ensures sh.newStart.Some?
    ensures Get(RewardStakers(sh, stakes, club, stakers).value.stakes, (club, k.staker), [])
            == [PaidStake(k, sh.Pay(k), sh.newStart.value)]
  {
    var n := |stakers| - 1;
    var p := RewardStakers(sh, stakes, club, stakers[..n]).value;
    assert stakers == stakers[..n] + [stakers[n]];
    RepeatsNext(stakers, k.staker);
    if stakers[n] == k.staker {
      UnlistedIsUntouched(sh, stakes, club, stakers[..n], (club, k.staker));
      OneStakePaid(sh, k, p.given, p.added);
    } else {
      ListedOnceIsPaidOnce(sh, stakes, club, stakers[..n], k);
    }
  }

  /** On the contract: a due stake that an accepted batch lists once is paid exactly its share of the reward
      by the winners of the round, and is due again at the reward time, or a period later when that has
      passed. */
  lemma {:induction false} ListedStakesArePaid(cfg: Config, s: Storage, c: Call, k: Stake)
    returns (pot: nat, basic: nat, prize: nat, extra: nat, owned: nat)
    requires PaysBatch(cfg, s, c) && Fits(s.reward * 78) && Fits(s.reward * k.amount)
    requires s.StakesOf(c.msg.club, k.staker) == [k] && k.start <= c.now
    requires k.staker in c.msg.stakers && !Repeats(c.msg.stakers, k.staker)
    ensures var t := Exec(cfg, s, c).value;
            && IsPayment(s.(winning := t.winning), c.msg.club, k, pot, basic, prize, extra, owned)
            && t.StakesOf(c.msg.club, k.staker)
               == [PaidStake(k, basic + extra + owned,
                             if s.nextTime >= c.now then s.nextTime else s.nextTime + cfg.rewardPeriodicity * NANOS)]
  {
    var sh := BatchShares(cfg, s, c);
    SharesOfABatch(cfg, s, c);
    BatchIsPaid(cfg, s, c);
    ListedOnceIsPaidOnce(sh, s.stakes, c.msg.club, c.msg.stakers, k);
    pot, basic, prize, extra, owned :=
      PaymentOf(cfg, s.(winning := Exec(cfg, s, c).value.winning), c.now, s.nextTime, c.msg.club, k);
  }

  lemma NoShareOfNothing(pot: nat, total: nat, part: nat)
    requires IsShare(pot, 0, total, part)
    ensures part == 0
  {
    if part > 0 && total > 0 {
      MulLe(1, part, total);
    }
  }

  /** So an owner with an entry of 0 in the own club, not auto-staked, gains exactly the owner's part: of 1%
      of the reward over the winners, or of 3% when there are no other clubs, or of 2% over the others. */
  lemma {:induction false} OwnersGainTheirPart(cfg: Config, s: Storage, c: Call, k: Stake) returns (gain: nat)
    requires PaysBatch(cfg, s, c) && Fits(s.reward * 78)
    requires c.msg.club in s.clubs && k.staker == s.clubs[c.msg.club].owner && k.amount == 0 && !k.auto
    requires s.StakesOf(c.msg.club, k.staker) == [k] && k.start <= c.now
    requires k.staker in c.msg.stakers && !Repeats(c.msg.stakers, k.staker)
    ensures var t := Exec(cfg, s, c).value;
            var after, w, others := t.StakesOf(c.msg.club, k.staker), |t.winning.winners|, OtherClubs(t);
            && |after| == 1 && after[0].amount == 0 && after[0].reward == k.reward + gain
            && (if c.msg.club !in t.winning.winners then 100 * others * gain <= 2 * s.reward < 100 * others * (gain + 1)
                else if others > 0 then 100 * w * gain <= s.reward < 100 * w * (gain + 1)
                else 100 * w * gain <= 3 * s.reward < 100 * w * (gain + 1))
  {
    assert s.reward * 0 == 0;
    var pot, basic, prize, extra, owned := ListedStakesArePaid(cfg, s, c, k);
    NoShareOfNothing(pot, Exec(cfg, s, c).value.winning.totalStake, basic);
    if c.msg.club in Exec(cfg, s, c).value.winning.winners {
      NoShareOfNothing(prize, Exec(cfg, s, c).value.winning.winningStake, extra);
    }
    gain := owned;
  }

  /** Only the admin distributes, and not before the reward time; a final batch that comes after it moves
      it by one period, and nothing else does. */
  lemma DistributionsKeepTheTimetable(cfg: Config, s: Storage, c: Call)
    requires c.msg.Distribute? && Exec(cfg, s, c).Ok?
    ensures c.sender == cfg.admin && s.nextTime <= c.now
    ensures Exec(cfg, s, c).value.nextTime
            == if c.msg.isFinal && s.nextTime < c.now then s.nextTime + cfg.rewardPeriodicity * NANOS else s.nextTime
  {
    if s.reward == 0 {
      EmptyBatch(cfg, s, c);
    } else {
      BatchSettles(cfg, s, c);
    }
    Distributed(cfg, s, c);
  }
}
