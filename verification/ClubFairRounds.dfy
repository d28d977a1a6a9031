/** Which reachable states a reward round can rely on, and what goes wrong in the others: a top-up
    that compounds puts a stake above its club's total, and the next round overspends. */
module ClubFairRounds {
  import opened Chain
  import opened ClubStaking
  import opened ClubDistribution
  import opened ClubOwners
  import opened ClubLedger
  import opened ClubSchedule
  import opened ClubRounds
  import opened ClubOutcome
  import opened ClubWinners
  import KeyOrder

  // Entries stay.

  predicate KeepsEntries(before: map<Key, seq<Stake>>, after: map<Key, seq<Stake>>) {
    forall k :: k in before && before[k] != [] ==> k in after && after[k] != []
  }

  lemma SavingKeepsEntries(s: Storage, now: nat, staker: Addr, club: string, amount: nat, auto: bool, increase: bool)
    requires SaveStaking(s, now, staker, club, amount, auto, increase).Ok?
    ensures var t := SaveStaking(s, now, staker, club, amount, auto, increase).value;
            KeepsEntries(s.stakes, t.stakes) && (increase ==> t.StakesOf(club, staker) != [])
  {
    UpdatingKeepsStarts(s.StakesOf(club, staker), staker, amount, auto, increase);
  }

  lemma {:induction false} AssigningKeepsEntries(s: Storage, now: nat, list: seq<Assigned>, club: string)
    requires AssignAll(s, now, list, club).Ok?
    ensures KeepsEntries(s.stakes, AssignAll(s, now, list, club).value.stakes)
  {
    if list != [] {
      var n := |list| - 1;
      AssigningKeepsEntries(s, now, list[..n], club);
      var before := AssignAll(s, now, list[..n], club).value;
      SavingKeepsEntries(before, now, list[n].staker, club, list[n].amount, list[n].auto, true);
    }
  }

  lemma WithdrawingKeepsEntries(cfg: Config, s: Storage, c: Call)
    requires c.msg.Withdraw? && Withdrawing(cfg, s, c).Ok?
    ensures KeepsEntries(s.stakes, Withdrawing(cfg, s, c).value.stakes)
  {
    var m := c.msg;
    if m.immediate {
      var drained := Drain(NewestFirst(s.BondsOf(m.club, m.staker)), m.staker, c.now, m.amount).value;
      var bonded := s.(bonds := s.bonds[(m.club, m.staker) := drained.kept]);
      SavingKeepsEntries(bonded, c.now, m.staker, m.club, drained.remaining, false, false);
    } else {
      SavingKeepsEntries(s, c.now, m.staker, m.club, m.amount, false, false);
    }
  }

  /** Taking a club over leaves its new owner with an entry in it. */
  lemma TakingOverKeepsEntries(cfg: Config, s: Storage, c: Call)
    requires TakesOver(c) && Exec(cfg, s, c).Ok?
    ensures var t := Exec(cfg, s, c).value;
            KeepsEntries(s.stakes, t.stakes) && t.StakesOf(c.msg.club, c.msg.buyer) != []
  {
    TakeOverEffect(cfg, s, c);
    var m := c.msg;
    if !HasStake(s.StakesOf(m.club, m.buyer), m.buyer) {
      var total := if m.club in s.clubs then s.clubs[m.club].total else 0;
      var owned := s.(clubs := s.clubs[m.club := Club(m.buyer, c.now, cfg.releaseLocking, false, total)]);
      SavingKeepsEntries(owned, c.now, m.buyer, m.club, 0, m.auto, true);
    }
  }

  lemma DistributingKeepsEntries(cfg: Config, s: Storage, c: Call, listed: set<Key>)
    requires OnTime(cfg, s, c.now, listed) && c.msg.Distribute? && Exec(cfg, s, c).Ok?
    requires PaysBatch(cfg, s, c) ==> ListsFreshly(c, listed)
    ensures KeepsEntries(s.stakes, Exec(cfg, s, c).value.stakes)
  {
    if PaysBatch(cfg, s, c) {
      BatchKeepsTime(cfg, s, c, listed);
    } else {
      Distributed(cfg, s, c);
    }
  }

  lemma OthersKeepEntries(cfg: Config, s: Storage, c: Call)
    requires Exec(cfg, s, c).Ok? && !c.msg.Distribute? && !TakesOver(c)
    ensures KeepsEntries(s.stakes, Exec(cfg, s, c).value.stakes)
  {
    match c.msg
    case StakeOnAClub(staker, club, amount, auto) => SavingKeepsEntries(s, c.now, staker, club, amount, auto, true);
    case AssignStakes(list, club) => AssigningKeepsEntries(s, c.now, list, club);
    case Withdraw(_, _, _, _) => WithdrawingKeepsEntries(cfg, s, c);
    case ClaimStakerRewards(_, _) => ClaimsChangeNothing(s, c);
    case _ =>
  }

  lemma OwnersKeepEntries(s: Storage, t: Storage)
    requires OwnersHoldStakes(s) && SameOwnership(s.clubs, t.clubs) && KeepsEntries(s.stakes, t.stakes)
    ensures OwnersHoldStakes(t)
  {
    forall c | c in t.clubs ensures t.StakesOf(c, t.clubs[c].owner) != [] {
      assert t.clubs[c].owner == s.clubs[c].owner;
      assert s.StakesOf(c, s.clubs[c].owner) != [];
      assert (c, s.clubs[c].owner) in s.stakes;
    }
  }

  lemma OwnersStep(cfg: Config, s: Storage, c: Call, listed: set<Key>)
    requires OwnersHoldStakes(s) && Exec(cfg, s, c).Ok? && OnTime(cfg, s, c.now, listed)
    requires PaysBatch(cfg, s, c) ==> ListsFreshly(c, listed)
    ensures OwnersHoldStakes(Exec(cfg, s, c).value)
  {
    var t := Exec(cfg, s, c).value;
    if TakesOver(c) {
      TakeOverEffect(cfg, s, c);
      TakingOver(cfg, s, c.now, c.msg.buyer, c.msg.seller, c.msg.club, c.msg.auto);
      TakingOverKeepsEntries(cfg, s, c);
      forall d | d in t.clubs ensures t.StakesOf(d, t.clubs[d].owner) != [] {
        if d != c.msg.club {
          assert s.StakesOf(d, s.clubs[d].owner) != [];
        }
      }
    } else {
      if c.msg.Distribute? {
        DistributingKeepsEntries(cfg, s, c, listed);
      } else {
        OthersKeepEntries(cfg, s, c);
      }
      if c.msg.ReleaseClub? {
        forall d | d in t.clubs ensures t.StakesOf(d, t.clubs[d].owner) != [] {
          assert t.clubs[d].owner == s.clubs[d].owner;
        }
      } else {
        OthersKeepOwnership(cfg, s, c);
        OwnersKeepEntries(s, t);
      }
    }
  }

  /** In every fair run each owner holds an entry in the own club. */
  lemma {:induction false} OwnersAlwaysHoldStakes(cfg: Config, nextTime: nat, calls: seq<Call>)
    requires Ordered(calls) && OnceEach(cfg, Genesis(nextTime), calls)
    ensures OwnersHoldStakes(Run(cfg, Genesis(nextTime), calls))
  {
    if calls != [] {
      var n := |calls| - 1;
      var s, listed := Run(cfg, Genesis(nextTime), calls[..n]), Listed(cfg, Genesis(nextTime), calls[..n]);
      OwnersAlwaysHoldStakes(cfg, nextTime, calls[..n]);
      NoDueStakeIsLost(cfg, nextTime, calls[..n], "");
      OnTimeLater(cfg, s, Latest(calls[..n]), calls[n].now, listed);
      if Exec(cfg, s, calls[n]).Ok? {
        OwnersStep(cfg, s, calls[n], listed);
      }
    }
  }

  // Rounds after a fair run.

  /** No top-up has turned a pending reward into stake. */
  predicate NothingCompounded(cfg: Config, nextTime: nat, calls: seq<Call>) {
    forall c :: c in Run(cfg, Genesis(nextTime), calls).clubs ==>
      History(cfg, Genesis(nextTime), calls, c).compounded == 0
  }

  /** After a fair run in which nothing was compounded, every club's total is what is staked on it. */
  lemma FairTotalsAreStakes(cfg: Config, nextTime: nat, calls: seq<Call>)
    requires Ordered(calls) && OnceEach(cfg, Genesis(nextTime), calls) && NothingCompounded(cfg, nextTime, calls)
    ensures TotalsAreStakes(Run(cfg, Genesis(nextTime), calls))
  {
    var s := Run(cfg, Genesis(nextTime), calls);
    forall c | c in s.clubs ensures Staked(s.stakes, c) == s.clubs[c].total {
      FairLedger(cfg, nextTime, calls, c);
    }
  }

  /** Whom a round lists after a run: everybody, none of them listed since the last final batch. */
  predicate ListsAll(cfg: Config, nextTime: nat, before: seq<Call>, round: seq<Call>) {
    && Listed(cfg, Genesis(nextTime), before) == {}
    && (forall i :: 0 <= i < |round| ==> Latest(before) <= round[i].now)
    && StakeKeys(Run(cfg, Genesis(nextTime), before)) <= AllListed(round)
  }

  /** After every fair run, compounding or not, a round that lists everybody gives the fair share of all
      stakes, short of it by rounding at most. */
  lemma {:induction false} FairRoundsGiveTheirShare(cfg: Config, nextTime: nat, before: seq<Call>, round: seq<Call>,
                                                   top: nat)
    requires Ordered(before) && OnceEach(cfg, Genesis(nextTime), before)
    requires IsRound(cfg, Run(cfg, Genesis(nextTime), before), round) && ListsAll(cfg, nextTime, before, round)
    requires var s := Run(cfg, Genesis(nextTime), before);
             NotCollapsed(s) && LargestLead(s, top) && Fits(s.reward * 78) && Fits(s.reward * AllStaked(s))
    ensures var s := Run(cfg, Genesis(nextTime), before);
            FairShare(s, top) - FairRounding(s, top) <= Run(cfg, s, round).given as real <= FairShare(s, top)
  {
    var s := Run(cfg, Genesis(nextTime), before);
    StakeLedger(cfg, nextTime, before, "");
    NoDueStakeIsLost(cfg, nextTime, before, "");
    OwnersAlwaysHoldStakes(cfg, nextTime, before);
    CompleteRoundGivesItsShare(cfg, s, round, Latest(before), top);
  }

  lemma {:induction false} FairRoundsStayWithin(cfg: Config, nextTime: nat, before: seq<Call>, round: seq<Call>, top: nat)
    requires Ordered(before) && OnceEach(cfg, Genesis(nextTime), before) && NothingCompounded(cfg, nextTime, before)
    requires IsRound(cfg, Run(cfg, Genesis(nextTime), before), round)
    requires LargestLead(Run(cfg, Genesis(nextTime), before), top)
    ensures var s := Run(cfg, Genesis(nextTime), before);
            var t := Run(cfg, s, round);
            && Neat(s.stakes) && TotalsAreStakes(s) && t.given <= s.reward
            && t.reward == (if EndsFinal(round) then s.reward - t.given else s.reward)
  {
    var s := Run(cfg, Genesis(nextTime), before);
    StakeLedger(cfg, nextTime, before, "");
    FairTotalsAreStakes(cfg, nextTime, before);
    TotalsWithin(s);
    RoundStaysWithinWeights(cfg, s, round, top);
    RoundNeverOverspends(cfg, s, round, top);
  }

  /** A round after a fair run in which nothing was compounded stays within the reward, whoever its
      batches list; and when they list everybody and the winners share out, it leaves only dust. */
  lemma {:induction false} FairRoundsPayOut(cfg: Config, nextTime: nat, before: seq<Call>, round: seq<Call>, top: nat)
    requires Ordered(before) && OnceEach(cfg, Genesis(nextTime), before) && NothingCompounded(cfg, nextTime, before)
    requires IsRound(cfg, Run(cfg, Genesis(nextTime), before), round)
    requires LargestLead(Run(cfg, Genesis(nextTime), before), top)
    ensures var s := Run(cfg, Genesis(nextTime), before);
            var t := Run(cfg, s, round);
            && t.given <= s.reward
            && t.reward == (if EndsFinal(round) then s.reward - t.given else s.reward)
            && (ListsAll(cfg, nextTime, before, round) && SharesOut(s) ==>
                  s.reward - t.given < |StakeKeys(s)| + |KeysIn(StakeKeys(s), Champions(s))| + |s.clubs|)
  {
    var s := Run(cfg, Genesis(nextTime), before);
    FairRoundsStayWithin(cfg, nextTime, before, round, top);
    NoDueStakeIsLost(cfg, nextTime, before, "");
    OwnersAlwaysHoldStakes(cfg, nextTime, before);
    if ListsAll(cfg, nextTime, before, round) && SharesOut(s) {
      CompleteRoundLeavesDust(cfg, s, round, Latest(before));
    }
  }

  // Why compounding matters.

  lemma OneClub(s: Storage, club: string)
    requires s.clubs.Keys == {club}
    requires s.clubs[club].total <= MAX_UFURY_COUNT && Get(s.snapshot, club, 0) <= MAX_UFURY_COUNT
    ensures var total := s.clubs[club].total;
            && FindWinners(s).Ok?
            && FindWinners(s).value.winning == Winning(1, total, total, [club])
            && FindWinners(s).value.snapshot == s.snapshot[club := total]
  {
    var keys := ClubKeys(s);
    KeyOrder.AscendingLength(s.clubs.Keys);
    assert keys[0] in keys;
    assert keys == [club];
    var e := EntryOf(s, club);
    var es := Entries(s, keys);
    assert es == [e] && [e][..0] == [];
    assert TotalStake([e]) == e.stake;
    assert Snapped(s.snapshot, []) == s.snapshot;
    assert Snapped(s.snapshot, [e]) == s.snapshot[club := e.stake];
    assert ScanAll([e]) == Scan(e.Increase(), e.stake, [club]);
  }

  /** One club, in which one staker besides the owner may hold a stake, at time 0. */
  predicate At(s: Storage, owner: Addr, staker: Addr, club: string, total: nat, list: seq<Stake>, reward: nat, given: nat) {
    && s.clubs.Keys == {club} && s.clubs[club].owner == owner && s.clubs[club].total == total
    && s.StakesOf(club, staker) == list
    && s.reward == reward && s.given == given && s.nextTime == 0 && Get(s.snapshot, club, 0) <= 1
  }

  function Step(sender: Addr, msg: Msg): Call { Call(0, sender, true, true, msg) }

  function Round(cfg: Config, staker: Addr, club: string): Call {
    Step(cfg.admin, Distribute([staker], club, true, true))
  }

  lemma ClubIsAssigned(cfg: Config, owner: Addr, staker: Addr, club: string)
    requires owner != "" && owner != staker
    ensures var r := Exec(cfg, Genesis(0), Step(cfg.admin, AssignAClub(owner, "", club, false)));
            r.Ok? && At(r.value, owner, staker, club, 0, [], 0, 0)
  {
  }

  lemma StakeIsPlaced(cfg: Config, s: Storage, owner: Addr, staker: Addr, club: string)
    requires At(s, owner, staker, club, 0, [], 0, 0)
    ensures var r := Exec(cfg, s, Step(staker, StakeOnAClub(staker, club, 1, false)));
            r.Ok? && At(r.value, owner, staker, club, 1, [Stake(staker, 0, 1, 0, false)], 0, 0)
  {
    assert !HasStake([], staker);
  }

  lemma RewardIsRaised(cfg: Config, s: Storage, owner: Addr, staker: Addr, club: string, list: seq<Stake>,
                       reward: nat, given: nat)
    requires At(s, owner, staker, club, 1, list, reward, given) && reward <= 100
    ensures var r := Exec(cfg, s, Step(cfg.admin, IncreaseReward(100 - reward)));
            r.Ok? && At(r.value, owner, staker, club, 1, list, 100, 0)
  {
  }

  lemma TopUpCompounds(cfg: Config, s: Storage, owner: Addr, staker: Addr, club: string, reward: nat, given: nat)
    requires At(s, owner, staker, club, 1, [Stake(staker, 0, 1, 97, false)], reward, given)
    ensures var r := Exec(cfg, s, Step(staker, StakeOnAClub(staker, club, 0, true)));
            r.Ok? && At(r.value, owner, staker, club, 1, [Stake(staker, 0, 98, 0, true)], reward, given)
  {
    var k := Stake(staker, 0, 1, 97, false);
    assert [k][..0] == [] && [k][0].staker == staker;
    assert UpdatedStakes([], staker, 0, true, true) == Ok([]);
    assert [] + [Stake(staker, 0, 98, 0, true)] == [Stake(staker, 0, 98, 0, true)];
  }

  /** The terms at a reward of 100 and a snapshot total of 1: 97 for every unit staked. */
  lemma TermsAtHundred(cfg: Config, s: Storage, owner: Addr, staker: Addr, club: string, k: Stake)
    requires At(s, owner, staker, club, 1, [k], 100, 0) && staker != owner && k.staker == staker && k.amount <= 1000
    requires s.winning == Winning(1, 1, 1, [club])
    ensures SharesFor(cfg, s, 0, 0, club).Ok?
    ensures var sh := SharesFor(cfg, s, 0, 0, club).value;
            sh.Pay(k) == 97 * k.amount && sh.now == 0 && sh.newStart == Some(0)
  {
    var sh := SharesFor(cfg, s, 0, 0, club).value;
    assert sh.pot == 78 && sh.winnerPot == 19;
  }

  lemma OnePaid(sh: Shares, stakes: map<Key, seq<Stake>>, club: string, staker: Addr, k: Stake)
    requires Get(stakes, (club, staker), []) == [k] && k.start <= sh.now
    requires k.amount <= 1000 && k.reward <= 1000 && sh.Pay(k) <= 1_000_000 && sh.newStart.Some?
    ensures var r := RewardStakers(sh, stakes, club, [staker]);
            && r.Ok? && Rewarded(sh, k).Ok?
            && r.value == Progress(stakes[(club, staker) := [Rewarded(sh, k).value]], sh.Pay(k),
                                   if k.auto then sh.Pay(k) else 0)
  {
    assert [staker][..0] == [] && [k][..0] == [];
    assert RewardStakers(sh, stakes, club, []) == Ok(Progress(stakes, 0, 0));
    assert RewardList(sh, [], 0, 0) == Ok(Batch([], 0, 0));
    OneRewarded(sh, k, 0, 0);
  }

  /** The one batch of such a round, once the winner is known. */
  lemma {:induction false} BatchPays(cfg: Config, s: Storage, owner: Addr, staker: Addr, club: string, k: Stake)
    requires At(s, owner, staker, club, 1, [k], 100, 0) && staker != owner && k.staker == staker
    requires k.start == 0 && k.amount <= 1000 && k.reward <= 1000
    requires s.winning == Winning(1, 1, 1, [club])
    ensures var r := PayBatch(cfg, s, 0, 0, [staker], club, true);
            && r.Ok? && r.value.given == 97 * k.amount
            && (k.amount == 1 && !k.auto ==>
                  At(r.value, owner, staker, club, 1, [k.(reward := k.reward + 97)], 3, 97))
  {
    TermsAtHundred(cfg, s, owner, staker, club, k);
    OnePaid(SharesFor(cfg, s, 0, 0, club).value, s.stakes, club, staker, k);
  }

  lemma {:induction false} RoundPays(cfg: Config, s: Storage, owner: Addr, staker: Addr, club: string, k: Stake)
    requires At(s, owner, staker, club, 1, [k], 100, 0) && staker != owner && k.staker == staker
    requires k.start == 0 && k.amount <= 1000 && k.reward <= 1000
    ensures var r := Exec(cfg, s, Round(cfg, staker, club));
            && r.Ok? && r.value.given == 97 * k.amount
            && (k.amount == 1 && !k.auto ==>
                  At(r.value, owner, staker, club, 1, [k.(reward := k.reward + 97)], 3, 97))
  {
    OneClub(s, club);
    var known := FindWinners(s).value;
    assert s.(nextTime := 0) == s;
    BatchPays(cfg, known, owner, staker, club, k);
  }

  /** A club, a stake of 1 in it, and a reward of 100. */
  function Opening(cfg: Config, owner: Addr, staker: Addr, club: string): seq<Call> {
    [Step(cfg.admin, AssignAClub(owner, "", club, false))]
    + [Step(staker, StakeOnAClub(staker, club, 1, false))]
    + [Step(cfg.admin, IncreaseReward(100))]
  }

  /** A stake of 1, a first round, and a top-up of 0 that switches auto-stake on. */
  function Story(cfg: Config, owner: Addr, staker: Addr, club: string): seq<Call> {
    Opening(cfg, owner, staker, club)
    + [Round(cfg, staker, club)]
    + [Step(staker, StakeOnAClub(staker, club, 0, true))]
    + [Step(cfg.admin, IncreaseReward(97))]
  }

  /** A run so far: fair, no window open, all at time 0. */
  predicate Fair(cfg: Config, calls: seq<Call>) {
    && OnceEach(cfg, Genesis(0), calls) && Listed(cfg, Genesis(0), calls) == {}
    && forall i :: 0 <= i < |calls| ==> calls[i].now == 0
  }

  /** One more call of a fair run. */
  lemma FairStep(cfg: Config, calls: seq<Call>, c: Call)
    requires Fair(cfg, calls) && c.now == 0 && Exec(cfg, Run(cfg, Genesis(0), calls), c).Ok?
    requires c.msg.Distribute? ==> c.msg.isFinal && Distinct(c.msg.stakers)
    ensures Fair(cfg, calls + [c])
    ensures Run(cfg, Genesis(0), calls + [c]) == Exec(cfg, Run(cfg, Genesis(0), calls), c).value
  {
    assert (calls + [c])[..|calls|] == calls;
  }

  lemma OpeningUnfolds(cfg: Config, owner: Addr, staker: Addr, club: string)
    requires owner != "" && owner != staker
    ensures Fair(cfg, Opening(cfg, owner, staker, club))
    ensures At(Run(cfg, Genesis(0), Opening(cfg, owner, staker, club)), owner, staker, club, 1,
               [Stake(staker, 0, 1, 0, false)], 100, 0)
  {
    ClubComesFirst(cfg, owner, staker, club);
    ThenAStake(cfg, owner, staker, club);
    var r := [Step(cfg.admin, AssignAClub(owner, "", club, false))] + [Step(staker, StakeOnAClub(staker, club, 1, false))];
    RewardIsRaised(cfg, Run(cfg, Genesis(0), r), owner, staker, club, [Stake(staker, 0, 1, 0, false)], 0, 0);
    FairStep(cfg, r, Step(cfg.admin, IncreaseReward(100)));
  }

  lemma ClubComesFirst(cfg: Config, owner: Addr, staker: Addr, club: string)
    requires owner != "" && owner != staker
    ensures var r := [Step(cfg.admin, AssignAClub(owner, "", club, false))];
            Fair(cfg, r) && At(Run(cfg, Genesis(0), r), owner, staker, club, 0, [], 0, 0)
  {
    var c := Step(cfg.admin, AssignAClub(owner, "", club, false));
    assert Fair(cfg, []) && Run(cfg, Genesis(0), []) == Genesis(0);
    ClubIsAssigned(cfg, owner, staker, club);
    FairStep(cfg, [], c);
    assert [] + [c] == [c];
  }

  lemma ThenAStake(cfg: Config, owner: Addr, staker: Addr, club: string)
    requires var r := [Step(cfg.admin, AssignAClub(owner, "", club, false))];
             Fair(cfg, r) && At(Run(cfg, Genesis(0), r), owner, staker, club, 0, [], 0, 0)
    ensures var r := [Step(cfg.admin, AssignAClub(owner, "", club, false))]
                     + [Step(staker, StakeOnAClub(staker, club, 1, false))];
            Fair(cfg, r) && At(Run(cfg, Genesis(0), r), owner, staker, club, 1, [Stake(staker, 0, 1, 0, false)], 0, 0)
  {
    var r := [Step(cfg.admin, AssignAClub(owner, "", club, false))];
    StakeIsPlaced(cfg, Run(cfg, Genesis(0), r), owner, staker, club);
    FairStep(cfg, r, Step(staker, StakeOnAClub(staker, club, 1, false)));
  }

  lemma StoryUnfolds(cfg: Config, owner: Addr, staker: Addr, club: string)
    requires owner != "" && owner != staker
    ensures Fair(cfg, Story(cfg, owner, staker, club))
    ensures At(Run(cfg, Genesis(0), Story(cfg, owner, staker, club)), owner, staker, club, 1,
               [Stake(staker, 0, 98, 0, true)], 100, 0)
  {
    var r3 := Opening(cfg, owner, staker, club);
    OpeningUnfolds(cfg, owner, staker, club);
    RoundPays(cfg, Run(cfg, Genesis(0), r3), owner, staker, club, Stake(staker, 0, 1, 0, false));
    FairStep(cfg, r3, Round(cfg, staker, club));
    var r4 := r3 + [Round(cfg, staker, club)];
    var c4 := Step(staker, StakeOnAClub(staker, club, 0, true));
    TopUpCompounds(cfg, Run(cfg, Genesis(0), r4), owner, staker, club, 3, 97);
    FairStep(cfg, r4, c4);
    var r5 := r4 + [c4];
    var c5 := Step(cfg.admin, IncreaseReward(97));
    RewardIsRaised(cfg, Run(cfg, Genesis(0), r5), owner, staker, club, [Stake(staker, 0, 98, 0, true)], 3, 97);
    FairStep(cfg, r5, c5);
  }

  /** Without that condition the bound fails: after a fair run in which one top-up compounded, a
      round of one batch that lists one staker once gives 9506 out of a reward of 100. */
  lemma CompoundingCanOverspend(cfg: Config, owner: Addr, staker: Addr, club: string)
    requires owner != "" && owner != staker
    ensures var before := Story(cfg, owner, staker, club);
            var s := Run(cfg, Genesis(0), before);
            var round := [Round(cfg, staker, club)];
            && Ordered(before) && OnceEach(cfg, Genesis(0), before)
            && IsRound(cfg, s, round)
            && s.reward == 100 && Run(cfg, s, round).given == 9506
  {
    var s := Run(cfg, Genesis(0), Story(cfg, owner, staker, club));
    var c := Round(cfg, staker, club);
    StoryUnfolds(cfg, owner, staker, club);
    RoundPays(cfg, s, owner, staker, club, Stake(staker, 0, 98, 0, true));
    assert [c][..0] == [] && Run(cfg, s, []) == s;
    assert IsBatch(cfg, s, [c], 0);
    assert ListsOnce([]) && AllListed([]) == {};
  }
}
