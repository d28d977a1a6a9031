/** When a batch loses a stake, exactly: for every batch, however often it lists somebody, and over
    every run; with a run that loses one. */
module ClubRepeats {
  import opened Chain
  import opened ClubStaking
  import opened ClubDistribution
  import opened ClubOwners
  import opened ClubLedger
  import opened ClubSchedule
  import opened ClubFairRounds

  // One batch.

  predicate Repeats(stakers: seq<Addr>, u: Addr) {
    exists i :: 0 <= i < |stakers| && stakers[i] == u && u in stakers[..i]
  }

  predicate StartHasCome(sh: Shares) { sh.newStart.Some? && sh.newStart.value <= sh.now }

  lemma RepeatsNext(stakers: seq<Addr>, u: Addr)
    requires stakers != []
    ensures var n := |stakers| - 1;
            Repeats(stakers, u) <==> Repeats(stakers[..n], u) || (stakers[n] == u && u in stakers[..n])
  {
    var n := |stakers| - 1;
    if i :| 0 <= i < n && stakers[i] == u && u in stakers[..i] {
      assert stakers[..n][i] == u && stakers[..n][..i] == stakers[..i];
    }
    if i :| 0 <= i < n && stakers[..n][i] == u && u in stakers[..n][..i] {
      assert stakers[i] == u && stakers[..n][..i] == stakers[..i];
    }
  }

  /** A staker's list after a batch: untouched, or emptied, or with the start the batch sets. */
  predicate ListAfter(sh: Shares, before: seq<Stake>, after: seq<Stake>, stakers: seq<Addr>, u: Addr) {
    if u !in stakers then after == before
    else
      && (after != [] <==> before != [] && before[0].start <= sh.now && (Repeats(stakers, u) ==> StartHasCome(sh)))
      && (after != [] ==> sh.newStart == Some(after[0].start))
      && (before != [] && before[0].start <= sh.now ==> sh.newStart.Some?)
  }

  lemma {:induction false} AfterBatch(sh: Shares, stakes: map<Key, seq<Stake>>, club: string, stakers: seq<Addr>, u: Addr)
    requires Neat(stakes) && RewardStakers(sh, stakes, club, stakers).Ok?
    ensures var p := RewardStakers(sh, stakes, club, stakers).value;
            && ListAfter(sh, Get(stakes, (club, u), []), Get(p.stakes, (club, u), []), stakers, u)
            && NeatList(Get(p.stakes, (club, u), []), u)
  {
    if stakers != [] {
      var n := |stakers| - 1;
      AfterBatch(sh, stakes, club, stakers[..n], u);
      RepeatsNext(stakers, u);
      assert stakers == stakers[..n] + [stakers[n]];
      var p := RewardStakers(sh, stakes, club, stakers[..n]).value;
      var list := Get(p.stakes, (club, stakers[n]), []);
      if stakers[n] == u {
        NeatListRewarded(sh, list, u, p.given, p.added);
        ListRestarted(sh, list, p.given, p.added);
      }
    } else {
      assert !Repeats(stakers, u);
    }
  }

  /** One neat list through a batch once. */
  lemma ListRestarted(sh: Shares, list: seq<Stake>, given: nat, added: nat)
    requires |list| <= 1 && RewardList(sh, list, given, added).Ok?
    ensures var after := RewardList(sh, list, given, added).value.list;
            && (after != [] <==> list != [] && list[0].start <= sh.now)
            && (after != [] ==> sh.newStart == Some(after[0].start))
  {
    if list != [] {
      assert list == [list[0]];
      OneRewarded(sh, list[0], given, added);
    }
  }

  /** The entry at this place of the batch finds the stake due: at first by its own start, when listed
      again by the start the batch has set. */
  predicate KeptAt(sh: Shares, stakes: map<Key, seq<Stake>>, club: string, stakers: seq<Addr>, i: nat)
    requires i < |stakers|
  {
    var list := Get(stakes, (club, stakers[i]), []);
    list != [] ==> list[0].start <= sh.now && (stakers[i] in stakers[..i] ==> StartHasCome(sh))
  }

  predicate AllKept(sh: Shares, stakes: map<Key, seq<Stake>>, club: string, stakers: seq<Addr>) {
    forall i :: 0 <= i < |stakers| ==> KeptAt(sh, stakes, club, stakers, i)
  }

  lemma AllKeptNext(sh: Shares, stakes: map<Key, seq<Stake>>, club: string, stakers: seq<Addr>)
    requires stakers != []
    ensures AllKept(sh, stakes, club, stakers)
            <==> AllKept(sh, stakes, club, stakers[..|stakers| - 1]) && KeptAt(sh, stakes, club, stakers, |stakers| - 1)
  {
    var n := |stakers| - 1;
    forall i | 0 <= i < n
      ensures KeptAt(sh, stakes, club, stakers[..n], i) <==> KeptAt(sh, stakes, club, stakers, i)
    {
      assert stakers[..n][..i] == stakers[..i];
    }
  }

  lemma NothingRepeatedLate(sh: Shares, stakes: map<Key, seq<Stake>>, club: string, stakers: seq<Addr>, u: Addr)
    requires AllKept(sh, stakes, club, stakers) && u in stakers && Get(stakes, (club, u), []) != []
    ensures Get(stakes, (club, u), [])[0].start <= sh.now && (Repeats(stakers, u) ==> StartHasCome(sh))
  {
    var j :| 0 <= j < |stakers| && stakers[j] == u;
    assert KeptAt(sh, stakes, club, stakers, j);
    if i :| 0 <= i < |stakers| && stakers[i] == u && u in stakers[..i] {
      assert KeptAt(sh, stakes, club, stakers, i);
    }
  }

  lemma DueIsNotDropped(list: seq<Stake>, now: nat)
    requires |list| <= 1
    ensures NotDue(list, now) == [] <==> list == [] || list[0].start <= now
  {
    if list != [] {
      assert list == [list[0]];
      OneNotDue(list[0], now);
    }
  }

  /** The last entry of a batch that has dropped nothing so far. */
  lemma LastIsKept(sh: Shares, stakes: map<Key, seq<Stake>>, club: string, stakers: seq<Addr>)
    requires Neat(stakes) && stakers != [] && RewardStakers(sh, stakes, club, stakers).Ok?
    requires AllKept(sh, stakes, club, stakers[..|stakers| - 1])
    ensures var n := |stakers| - 1;
            var p := RewardStakers(sh, stakes, club, stakers[..n]).value;
            NotDue(Get(p.stakes, (club, stakers[n]), []), sh.now) == [] <==> KeptAt(sh, stakes, club, stakers, n)
  {
    var n := |stakers| - 1;
    var u := stakers[n];
    AfterBatch(sh, stakes, club, stakers[..n], u);
    DueIsNotDropped(Get(RewardStakers(sh, stakes, club, stakers[..n]).value.stakes, (club, u), []), sh.now);
    if u in stakers[..n] && Get(stakes, (club, u), []) != [] {
      NothingRepeatedLate(sh, stakes, club, stakers[..n], u);
    }
  }

  /** A batch drops nothing exactly when every entry finds its stake due, whoever it lists and however
      often. */
  lemma {:induction false} BatchDropsNothingExactlyWhen(sh: Shares, stakes: map<Key, seq<Stake>>, club: string,
                                                        stakers: seq<Addr>)
    requires Neat(stakes) && RewardStakers(sh, stakes, club, stakers).Ok?
    ensures Dropped(sh, stakes, club, stakers) == [] <==> AllKept(sh, stakes, club, stakers)
  {
    if stakers != [] {
      BatchDropsNothingExactlyWhen(sh, stakes, club, stakers[..|stakers| - 1]);
      AllKeptNext(sh, stakes, club, stakers);
      if AllKept(sh, stakes, club, stakers[..|stakers| - 1]) {
        LastIsKept(sh, stakes, club, stakers);
      }
    }
  }

  // One message.

  /** Every stake that the message lists is due, and whoever it lists again may be paid again: it comes
      in the very moment of the reward time, or a whole period after it. */
  predicate LosesNobody(cfg: Config, s: Storage, c: Call)
    requires c.msg.Distribute?
  {
    forall i :: 0 <= i < |c.msg.stakers| ==> EntryIsKept(cfg, s, c, i)
  }

  predicate EntryIsKept(cfg: Config, s: Storage, c: Call, i: nat)
    requires c.msg.Distribute? && i < |c.msg.stakers|
  {
    var list := s.StakesOf(c.msg.club, c.msg.stakers[i]);
    list != [] ==>
      && list[0].start <= c.now
      && (c.msg.stakers[i] in c.msg.stakers[..i] ==>
            s.nextTime == c.now || s.nextTime + cfg.rewardPeriodicity * NANOS <= c.now)
  }

  lemma EntryIsKeptAt(cfg: Config, s: Storage, c: Call, sh: Shares, i: nat)
    requires c.msg.Distribute? && i < |c.msg.stakers| && s.nextTime <= c.now
    requires sh.now == c.now && sh.newStart == NewStart(cfg, s.nextTime, c.now)
    requires Neat(s.stakes) && RewardStakers(sh, s.stakes, c.msg.club, c.msg.stakers).Ok?
    ensures KeptAt(sh, s.stakes, c.msg.club, c.msg.stakers, i) <==> EntryIsKept(cfg, s, c, i)
  {
    AfterBatch(sh, s.stakes, c.msg.club, c.msg.stakers, c.msg.stakers[i]);
  }

  /** An accepted batch drops nothing exactly then. */
  lemma MessageDropsNothingExactlyWhen(cfg: Config, s: Storage, c: Call)
    requires Neat(s.stakes) && PaysBatch(cfg, s, c)
    ensures DroppedBy(cfg, s, c) == [] <==> LosesNobody(cfg, s, c)
  {
    BatchIsPaid(cfg, s, c);
    SharesOfABatch(cfg, s, c);
    var sh := BatchShares(cfg, s, c);
    BatchDropsNothingExactlyWhen(sh, s.stakes, c.msg.club, c.msg.stakers);
    forall i | 0 <= i < |c.msg.stakers|
      ensures KeptAt(sh, s.stakes, c.msg.club, c.msg.stakers, i) <==> EntryIsKept(cfg, s, c, i)
    {
      EntryIsKeptAt(cfg, s, c, sh, i);
    }
  }

  // Every run.

  ghost predicate NothingLost(cfg: Config, s: Storage, calls: seq<Call>) {
    forall club: string :: History(cfg, s, calls, club).lost == []
  }

  predicate KeepsItsStakes(cfg: Config, s: Storage, c: Call) {
    PaysBatch(cfg, s, c) ==> LosesNobody(cfg, s, c)
  }

  predicate KeepsAt(cfg: Config, s: Storage, calls: seq<Call>, i: nat)
    requires i < |calls|
  {
    KeepsItsStakes(cfg, Run(cfg, s, calls[..i]), calls[i])
  }

  predicate EveryCallKeeps(cfg: Config, s: Storage, calls: seq<Call>) {
    forall i :: 0 <= i < |calls| ==> KeepsAt(cfg, s, calls, i)
  }

  lemma KeepsAtInPrefix(cfg: Config, s: Storage, calls: seq<Call>, n: nat, i: nat)
    requires i < n <= |calls|
    ensures KeepsAt(cfg, s, calls[..n], i) <==> KeepsAt(cfg, s, calls, i)
  {
    assert calls[..n][..i] == calls[..i];
  }

  lemma {:induction false} EveryCallKeepsNext(cfg: Config, s: Storage, calls: seq<Call>)
    requires calls != []
    ensures EveryCallKeeps(cfg, s, calls)
            <==> EveryCallKeeps(cfg, s, calls[..|calls| - 1]) && KeepsAt(cfg, s, calls, |calls| - 1)
  {
    var n := |calls| - 1;
    forall i | 0 <= i < n ensures KeepsAt(cfg, s, calls[..n], i) <==> KeepsAt(cfg, s, calls, i) {
      KeepsAtInPrefix(cfg, s, calls, n, i);
    }
  }

  lemma LostByCall(cfg: Config, s: Storage, c: Call, club: string)
    requires Neat(s.stakes) && Exec(cfg, s, c).Ok?
    ensures FlowsOf(cfg, s, c, club).lost
            == if PaysBatch(cfg, s, c) && c.msg.club == club then DroppedBy(cfg, s, c) else []
  {
    if !c.msg.Distribute? {
      DepositsDropNothing(cfg, s, c, club);
    }
  }

  lemma LostNext(cfg: Config, s: Storage, calls: seq<Call>, club: string)
    requires calls != [] && Neat(Run(cfg, s, calls[..|calls| - 1]).stakes)
    ensures var n := |calls| - 1;
            var before := Run(cfg, s, calls[..n]);
            History(cfg, s, calls, club).lost == History(cfg, s, calls[..n], club).lost
              + if PaysBatch(cfg, before, calls[n]) && calls[n].msg.club == club
                then DroppedBy(cfg, before, calls[n]) else []
  {
    var n := |calls| - 1;
    if Exec(cfg, Run(cfg, s, calls[..n]), calls[n]).Ok? {
      LostByCall(cfg, Run(cfg, s, calls[..n]), calls[n], club);
    }
  }

  lemma NothingLostNext(cfg: Config, s: Storage, calls: seq<Call>)
    requires calls != [] && Neat(Run(cfg, s, calls[..|calls| - 1]).stakes)
    ensures var n := |calls| - 1;
            var before := Run(cfg, s, calls[..n]);
            NothingLost(cfg, s, calls) <==>
              NothingLost(cfg, s, calls[..n])
              && (PaysBatch(cfg, before, calls[n]) ==> DroppedBy(cfg, before, calls[n]) == [])
  {
    var n := |calls| - 1;
    forall club: string
      ensures History(cfg, s, calls, club).lost == [] <==>
                && History(cfg, s, calls[..n], club).lost == []
                && (PaysBatch(cfg, Run(cfg, s, calls[..n]), calls[n]) && calls[n].msg.club == club ==>
                      DroppedBy(cfg, Run(cfg, s, calls[..n]), calls[n]) == [])
    {
      LostNext(cfg, s, calls, club);
    }
    if PaysBatch(cfg, Run(cfg, s, calls[..n]), calls[n]) && NothingLost(cfg, s, calls) {
      assert History(cfg, s, calls, calls[n].msg.club).lost == [];
    }
  }

  /** Over every run from an empty contract, fair or not: no stake is lost exactly when every batch
      finds the stakes of all its entries due. */
  lemma {:induction false} RunLosesNothingExactlyWhen(cfg: Config, nextTime: nat, calls: seq<Call>)
    ensures NothingLost(cfg, Genesis(nextTime), calls) <==> EveryCallKeeps(cfg, Genesis(nextTime), calls)
  {
    if calls != [] {
      var n := |calls| - 1;
      var before := Run(cfg, Genesis(nextTime), calls[..n]);
      RunLosesNothingExactlyWhen(cfg, nextTime, calls[..n]);
      StakeLedger(cfg, nextTime, calls[..n], "");
      EveryCallKeepsNext(cfg, Genesis(nextTime), calls);
      NothingLostNext(cfg, Genesis(nextTime), calls);
      if PaysBatch(cfg, before, calls[n]) {
        MessageDropsNothingExactlyWhen(cfg, before, calls[n]);
      }
    }
  }

  // A run that loses a stake.

  function Late(cfg: Config, staker: Addr, club: string, isFirst: bool): Call {
    Call(1, cfg.admin, true, true, Distribute([staker], club, isFirst, false))
  }

  /** The storage between the two batches. */
  predicate PaidOnce(cfg: Config, s: Storage, owner: Addr, staker: Addr, club: string) {
    && s.clubs.Keys == {club} && s.clubs[club].owner == owner && s.clubs[club].total == 1
    && s.StakesOf(club, staker) == [Stake(staker, cfg.rewardPeriodicity * NANOS, 1, 97, false)]
    && s.reward == 100 && s.given == 97 && s.nextTime == 0 && s.winning == Winning(1, 1, 1, [club])
  }

  lemma {:induction false} FirstBatchPays(cfg: Config, s: Storage, owner: Addr, staker: Addr, club: string)
    requires At(s, owner, staker, club, 1, [Stake(staker, 0, 1, 0, false)], 100, 0) && staker != owner
    requires cfg.rewardPeriodicity * NANOS <= U64_MAX
    ensures var r := Exec(cfg, s, Late(cfg, staker, club, true));
            r.Ok? && PaidOnce(cfg, r.value, owner, staker, club)
  {
    var k := Stake(staker, 0, 1, 0, false);
    OneClub(s, club);
    var known := FindWinners(s).value;
    var sh := SharesFor(cfg, known, 1, 0, club).value;
    assert sh.pot == 78 && sh.winnerPot == 19 && sh.Pay(k) == 97;
    assert sh.newStart == Some(cfg.rewardPeriodicity * NANOS);
    OnePaid(sh, s.stakes, club, staker, k);
    assert s.(nextTime := 0) == s;
  }

  lemma SecondBatchDrops(cfg: Config, s: Storage, owner: Addr, staker: Addr, club: string)
    requires PaidOnce(cfg, s, owner, staker, club) && staker != owner
    requires 0 < cfg.rewardPeriodicity && cfg.rewardPeriodicity * NANOS <= U64_MAX
    ensures var r := Exec(cfg, s, Late(cfg, staker, club, false));
            r.Ok? && r.value.StakesOf(club, staker) == []
  {
    var k := Stake(staker, cfg.rewardPeriodicity * NANOS, 1, 97, false);
    var sh := SharesFor(cfg, s, 1, 0, club).value;
    assert [staker][..0] == [] && [k][..0] == [];
    assert RewardStakers(sh, s.stakes, club, []) == Ok(Progress(s.stakes, 0, 0));
    assert RewardList(sh, [], 0, 0) == Ok(Batch([], 0, 0));
    assert RewardList(sh, [k], 0, 0) == Ok(Batch([], 0, 0));
    assert s.(nextTime := 0) == s;
  }

  /** A stake of 1, a reward of 100, and two batches of one window that both list the staker. */
  function LosingRun(cfg: Config, owner: Addr, staker: Addr, club: string): seq<Call> {
    Opening(cfg, owner, staker, club) + [Late(cfg, staker, club, true)] + [Late(cfg, staker, club, false)]
  }

  lemma OneMoreStep(cfg: Config, calls: seq<Call>, c: Call)
    requires Exec(cfg, Run(cfg, Genesis(0), calls), c).Ok?
    ensures Run(cfg, Genesis(0), calls + [c]) == Exec(cfg, Run(cfg, Genesis(0), calls), c).value
  {
    assert (calls + [c])[..|calls|] == calls;
  }

  /** Before the last call of this run the staker holds a stake of 1 and a pending reward of 97; after
      it, nothing. */
  lemma ASecondListingCanLoseAStake(cfg: Config, owner: Addr, staker: Addr, club: string)
    requires owner != "" && owner != staker
    requires 0 < cfg.rewardPeriodicity && cfg.rewardPeriodicity * NANOS <= U64_MAX
    ensures var calls := LosingRun(cfg, owner, staker, club);
            && Run(cfg, Genesis(0), calls[..4]).StakesOf(club, staker)
               == [Stake(staker, cfg.rewardPeriodicity * NANOS, 1, 97, false)]
            && Run(cfg, Genesis(0), calls).StakesOf(club, staker) == []
  {
    var r3, r4 := Opening(cfg, owner, staker, club), Opening(cfg, owner, staker, club) + [Late(cfg, staker, club, true)];
    OpeningUnfolds(cfg, owner, staker, club);
    FirstBatchPays(cfg, Run(cfg, Genesis(0), r3), owner, staker, club);
    OneMoreStep(cfg, r3, Late(cfg, staker, club, true));
    SecondBatchDrops(cfg, Run(cfg, Genesis(0), r4), owner, staker, club);
    OneMoreStep(cfg, r4, Late(cfg, staker, club, false));
    assert LosingRun(cfg, owner, staker, club)[..4] == r4;
  }
}
