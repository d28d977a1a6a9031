/** What the messages of stakers, owners and the admin do to a tidy storage, field by field, and exactly
    when each is accepted. */
module ClubTerms {
  import opened Chain
  import opened ClubStaking
  import opened ClubBonds
  import opened ClubLedger
  import opened ClubOwners

  // Stakes.

  /** An accepted deposit: the staker's one entry holds what it held and the amount, with the pending reward
      staked as well when auto-stake is on; a first entry starts now, an old one keeps its start; the
      club's total rises by the amount, and nothing else changes. */
  lemma {:induction false} StakesAreToppedUp(cfg: Config, s: Storage, c: Call)
    requires Neat(s.stakes) && c.msg.StakeOnAClub? && Exec(cfg, s, c).Ok?
    ensures var m, t := c.msg, Exec(cfg, s, c).value;
            var before, after := s.StakesOf(m.club, m.staker), t.StakesOf(m.club, m.staker);
            && |after| == 1 && after[0].staker == m.staker && after[0].auto == m.auto
            && (before == [] ==> after[0].start == c.now && after[0].amount == m.amount && after[0].reward == 0)
            && (before != [] ==>
                  && after[0].start == before[0].start
                  && after[0].amount + after[0].reward == before[0].amount + before[0].reward + m.amount
                  && after[0].reward == if m.auto then 0 else before[0].reward)
            && m.club in s.clubs
            && t == s.(stakes := s.stakes[(m.club, m.staker) := after],
                       clubs := s.clubs[m.club := s.clubs[m.club].(total := s.clubs[m.club].total + m.amount)])
  {
    var m := c.msg;
    var list := s.StakesOf(m.club, m.staker);
    if list == [] {
      FirstDeposit(s, c.now, m.staker, m.club, m.amount, m.auto);
    } else {
      NextDeposit(s, c.now, m.staker, m.club, m.amount, m.auto);
    }
  }

  /** What a deposit makes of the entry fits. */
  predicate TopUpFits(list: seq<Stake>, amount: nat, auto: bool) {
    list != [] ==> Fits(list[0].amount + amount + if auto then list[0].reward else 0)
  }

  lemma OneUpdated(k: Stake, amount: nat, auto: bool, increase: bool)
    ensures UpdatedStakes([k], k.staker, amount, auto, increase).Ok?
            <==> if increase then TopUpFits([k], amount, auto) else amount <= k.amount
  {
    assert [k][..0] == [];
  }

  lemma SavesExactlyWhen(s: Storage, now: nat, staker: Addr, club: string, amount: nat, auto: bool)
    requires NeatList(s.StakesOf(club, staker), staker)
    ensures SaveStaking(s, now, staker, club, amount, auto, true).Ok? <==>
              && club in s.clubs && TopUpFits(s.StakesOf(club, staker), amount, auto)
              && Fits(s.clubs[club].total + amount)
  {
    var list := s.StakesOf(club, staker);
    if list != [] {
      assert list == [list[0]];
      OneUpdated(list[0], amount, auto, true);
    }
  }

  lemma StakesAreAcceptedExactlyWhen(cfg: Config, s: Storage, c: Call)
    requires Neat(s.stakes) && c.msg.StakeOnAClub?
    ensures var m := c.msg;
            Exec(cfg, s, c).Ok? <==>
              && c.sender == m.staker && c.feesPaid && c.delivered
              && m.club in s.clubs && TopUpFits(s.StakesOf(m.club, m.staker), m.amount, m.auto)
              && Fits(s.clubs[m.club].total + m.amount)
  {
    SavesExactlyWhen(s, c.now, c.msg.staker, c.msg.club, c.msg.amount, c.msg.auto);
  }

  // Assignments.

  /** The deposits of an assignment as the stakers' own messages. */
  function OwnCalls(now: nat, list: seq<Assigned>, club: string): seq<Call> {
    seq(|list|, i requires 0 <= i < |list| =>
      Call(now, list[i].staker, true, true, StakeOnAClub(list[i].staker, club, list[i].amount, list[i].auto)))
  }

  predicate AcceptedAt(cfg: Config, s: Storage, calls: seq<Call>, i: nat)
    requires i < |calls|
  {
    Exec(cfg, Run(cfg, s, calls[..i]), calls[i]).Ok?
  }

  predicate AllAccepted(cfg: Config, s: Storage, calls: seq<Call>) {
    forall i :: 0 <= i < |calls| ==> AcceptedAt(cfg, s, calls, i)
  }

  lemma {:induction false} AcceptedInAPrefix(cfg: Config, s: Storage, calls: seq<Call>, n: nat, i: nat)
    requires i < n <= |calls|
    ensures AcceptedAt(cfg, s, calls[..n], i) <==> AcceptedAt(cfg, s, calls, i)
  {
    assert calls[..n][..i] == calls[..i];
  }

  lemma {:induction false} AllAcceptedNext(cfg: Config, s: Storage, calls: seq<Call>)
    requires calls != []
    ensures var n := |calls| - 1;
            AllAccepted(cfg, s, calls) <==> AllAccepted(cfg, s, calls[..n]) && AcceptedAt(cfg, s, calls, n)
  {
    var n := |calls| - 1;
    forall i | 0 <= i < n ensures AcceptedAt(cfg, s, calls[..n], i) <==> AcceptedAt(cfg, s, calls, i) {
      AcceptedInAPrefix(cfg, s, calls, n, i);
    }
  }

  lemma StakingIsSaving(s: Storage, cfg: Config, c: Call)
    requires c.msg.StakeOnAClub? && c.sender == c.msg.staker && c.feesPaid && c.delivered
    ensures Exec(cfg, s, c).Ok? <==> SaveStaking(s, c.now, c.sender, c.msg.club, c.msg.amount, c.msg.auto, true).Ok?
    ensures Exec(cfg, s, c).Ok? ==>
              Exec(cfg, s, c).value == SaveStaking(s, c.now, c.sender, c.msg.club, c.msg.amount, c.msg.auto, true).value
  {
    if c.msg.club !in s.clubs {
      assert SaveStaking(s, c.now, c.sender, c.msg.club, c.msg.amount, c.msg.auto, true).Err?;
    }
  }

  lemma {:induction false} SavedOneByOne(cfg: Config, s: Storage, now: nat, list: seq<Assigned>, club: string)
    ensures AssignAll(s, now, list, club).Ok? <==> AllAccepted(cfg, s, OwnCalls(now, list, club))
    ensures AssignAll(s, now, list, club).Ok? ==>
              AssignAll(s, now, list, club).value == Run(cfg, s, OwnCalls(now, list, club))
  {
    if list != [] {
      var n := |list| - 1;
      var calls := OwnCalls(now, list, club);
      SavedOneByOne(cfg, s, now, list[..n], club);
      assert calls[..n] == OwnCalls(now, list[..n], club);
      AllAcceptedNext(cfg, s, calls);
      StakingIsSaving(Run(cfg, s, calls[..n]), cfg, calls[n]);
    }
  }

  /** An assignment of the admin is its deposits made by the stakers themselves, one after another: it is
      accepted exactly when each of them would be, and leaves what they would leave. */
  lemma AssigningIsStakingOneByOne(cfg: Config, s: Storage, c: Call)
    requires c.msg.AssignStakes?
    ensures var calls := OwnCalls(c.now, c.msg.list, c.msg.club);
            && (Exec(cfg, s, c).Ok? <==>
                  && c.sender == cfg.admin && c.delivered && c.msg.club in s.clubs
                  && (forall a :: a in c.msg.list ==> a.club == c.msg.club)
                  && AllAccepted(cfg, s, calls))
            && (Exec(cfg, s, c).Ok? ==> Exec(cfg, s, c).value == Run(cfg, s, calls))
  {
    SavedOneByOne(cfg, s, c.now, c.msg.list, c.msg.club);
  }

  // Clubs.

  /** Whether a club may pass from its owner to somebody else now. */
  predicate IsForSale(club: Club, now: nat, seller: Addr) {
    && club.released && (club.owner == "" || club.owner == seller)
    && now <= club.start + club.lockingPeriod * NANOS <= U64_MAX
  }

  lemma SaleExactlyWhen(club: Club, now: nat, seller: Addr)
    ensures MayChangeHands(club, now, seller).Ok? <==> IsForSale(club, now, seller)
  {
  }

  /** When a club changes hands: the buyer, named and without a club, asks for it and pays the fees, or the
      admin assigns it; and a club that exists is released, not for too long, by the named seller. */
  lemma TakeOversAreAcceptedExactlyWhen(cfg: Config, s: Storage, c: Call)
    requires Neat(s.stakes) && TakesOver(c)
    requires c.msg.club in s.clubs ==> Fits(s.clubs[c.msg.club].total)
    ensures var m := c.msg;
            Exec(cfg, s, c).Ok? <==>
              && (if m.BuyAClub? then c.sender == m.buyer && c.feesPaid && c.delivered else c.sender == cfg.admin)
              && m.buyer != "" && !OwnsAClub(s, m.buyer)
              && (m.club in s.clubs ==> IsForSale(s.clubs[m.club], c.now, m.seller))
  {
    var m := c.msg;
    if m.club in s.clubs {
      SaleExactlyWhen(s.clubs[m.club], c.now, m.seller);
    }
    var total := if m.club in s.clubs then s.clubs[m.club].total else 0;
    var owned := s.(clubs := s.clubs[m.club := Club(m.buyer, c.now, cfg.releaseLocking, false, total)]);
    NeatListOrNoStakeOf(s, m.club, m.buyer);
    SavesExactlyWhen(owned, c.now, m.buyer, m.club, 0, m.auto);
  }

  lemma NeatListOrNoStakeOf(s: Storage, club: string, staker: Addr)
    requires Neat(s.stakes)
    ensures NeatList(s.StakesOf(club, staker), staker)
    ensures HasStake(s.StakesOf(club, staker), staker) <==> s.StakesOf(club, staker) != []
  {
    NeatListOrNoStake(s.StakesOf(club, staker), staker);
  }

  /** A take-over gives the buyer an entry of 0 in the club, starting now, unless there is one already; every
      other stake, the bonds and the reward stay. */
  lemma {:induction false} TakeOversLeaveStakes(cfg: Config, s: Storage, c: Call)
    requires Neat(s.stakes) && TakesOver(c) && Exec(cfg, s, c).Ok?
    ensures var m, t := c.msg, Exec(cfg, s, c).value;
            && t == s.(clubs := t.clubs, stakes := t.stakes)
            && t.stakes == (if s.StakesOf(m.club, m.buyer) != [] then s.stakes
                            else s.stakes[(m.club, m.buyer) := [Stake(m.buyer, c.now, 0, 0, m.auto)]])
  {
    var m := c.msg;
    TakeOverEffect(cfg, s, c);
    NeatListOrNoStakeOf(s, m.club, m.buyer);
    if s.StakesOf(m.club, m.buyer) == [] {
      var total := if m.club in s.clubs then s.clubs[m.club].total else 0;
      var owned := s.(clubs := s.clubs[m.club := Club(m.buyer, c.now, cfg.releaseLocking, false, total)]);
      FirstDeposit(owned, c.now, m.buyer, m.club, 0, m.auto);
    }
  }

  /** A release is accepted exactly from the owner; it stores its time, and changes nothing else. */
  lemma ReleasesAreTheOwners(cfg: Config, s: Storage, c: Call)
    requires c.msg.ReleaseClub?
    ensures Exec(cfg, s, c).Ok? <==>
              c.sender == c.msg.seller && c.msg.club in s.clubs && s.clubs[c.msg.club].owner == c.sender
    ensures Exec(cfg, s, c).Ok? ==>
              var t, was := Exec(cfg, s, c).value, s.clubs[c.msg.club];
              && t == s.(clubs := t.clubs) && t.clubs.Keys == s.clubs.Keys
              && (forall other :: other in s.clubs && other != c.msg.club ==> t.clubs[other] == s.clubs[other])
              && t.clubs[c.msg.club].released && t.clubs[c.msg.club].start == c.now
              && t.clubs[c.msg.club].owner == was.owner && t.clubs[c.msg.club].total == was.total
              && t.clubs[c.msg.club].lockingPeriod == was.lockingPeriod
  {
  }

  // Withdrawals.

  /** No withdrawal without the staker's own message, the fees, a stake in the club, and the club. */
  lemma WithdrawalsAreTheStakers(cfg: Config, s: Storage, c: Call)
    requires c.msg.Withdraw? && Exec(cfg, s, c).Ok?
    ensures c.sender == c.msg.staker && c.feesPaid && c.delivered && c.msg.club in s.clubs
    ensures HasStake(s.StakesOf(c.msg.club, c.msg.staker), c.msg.staker)
    ensures c.msg.immediate ==> MayEncash(s, c)
  {
  }

  lemma LowersExactlyWhen(s: Storage, now: nat, k: Stake, club: string, amount: nat)
    requires s.StakesOf(club, k.staker) == [k] && club in s.clubs
    ensures SaveStaking(s, now, k.staker, club, amount, DONT_CHANGE_AUTO_STAKE, false).Ok?
            <==> amount <= k.amount && amount <= s.clubs[club].total
    ensures amount <= k.amount && amount <= s.clubs[club].total ==>
              SaveStaking(s, now, k.staker, club, amount, DONT_CHANGE_AUTO_STAKE, false).value
              == s.(stakes := s.stakes[(club, k.staker) := [k.(amount := k.amount - amount)]],
                    clubs := s.clubs[club := s.clubs[club].(total := s.clubs[club].total - amount)])
  {
    OneUpdated(k, amount, DONT_CHANGE_AUTO_STAKE, false);
    if amount <= k.amount {
      UpdatedNeat(k, amount);
    }
    assert [k][0].staker == k.staker;
  }

  lemma UpdatedNeat(k: Stake, amount: nat)
    requires amount <= k.amount
    ensures UpdatedStakes([k], k.staker, amount, DONT_CHANGE_AUTO_STAKE, false) == Ok([k.(amount := k.amount - amount)])
  {
    assert [k][..0] == [];
    assert [] + [k.(amount := k.amount - amount)] == [k.(amount := k.amount - amount)];
  }

  /** Moving stake into a bond: when it is accepted, and all it does. Stake and total fall by the amount, and
      one bond of the amount starts now, with the configured duration, at the end of the list. */
  lemma {:induction false} UnstakingBonds(cfg: Config, s: Storage, c: Call, k: Stake)
    requires c.msg.Withdraw? && !c.msg.immediate && k.staker == c.msg.staker
    requires s.StakesOf(c.msg.club, c.msg.staker) == [k]
    ensures Exec(cfg, s, c).Ok? <==>
              && c.sender == k.staker && c.feesPaid && c.delivered && c.msg.club in s.clubs
              && c.msg.amount <= k.amount && c.msg.amount <= s.clubs[c.msg.club].total
              && |s.BondsOf(c.msg.club, k.staker)| < cfg.maxBonds
    ensures Exec(cfg, s, c).Ok? ==>
              var t, key, x := Exec(cfg, s, c).value, (c.msg.club, k.staker), c.msg.amount;
              && t == s.(stakes := t.stakes, clubs := t.clubs, bonds := t.bonds)
              && t.stakes == s.stakes[key := [k.(amount := k.amount - x)]]
              && t.clubs == s.clubs[c.msg.club := s.clubs[c.msg.club].(total := s.clubs[c.msg.club].total - x)]
              && t.bonds == s.bonds[key := s.BondsOf(c.msg.club, k.staker)
                                           + [Bond(k.staker, c.now, x, cfg.bondingDuration)]]
  {
    assert [k][0].staker == k.staker;
    assert (c.msg.club, k.staker) in s.stakes;
    if c.msg.club in s.clubs {
      LowersExactlyWhen(s, c.now, k, c.msg.club, c.msg.amount);
    }
  }

  /** The sort looks at whole seconds, which have a thousand million units each. */
  lemma SecondsAreWhole(b: Bond, c: Bond)
    ensures 1_000_000_000 * b.Second() <= b.start < 1_000_000_000 * (b.Second() + 1)
    ensures b.start <= c.start ==> b.Second() <= c.Second()
  {
  }

  // Rewards.

  /** A claim of staking rewards is accepted exactly when the staker asks, has paid the fees, and has
      something pending. */
  lemma ClaimsAreAcceptedExactlyWhen(cfg: Config, s: Storage, c: Call)
    requires Neat(s.stakes) && c.msg.ClaimStakerRewards?
    ensures var list := s.StakesOf(c.msg.club, c.msg.staker);
            Exec(cfg, s, c).Ok? <==>
              c.sender == c.msg.staker && c.feesPaid && c.delivered && list != [] && 0 < list[0].reward <= U128_MAX
  {
    var list := s.StakesOf(c.msg.club, c.msg.staker);
    NeatListOrNoStakeOf(s, c.msg.club, c.msg.staker);
    if list != [] {
      assert list[..0] == [];
      assert PendingOf(list, c.msg.staker) == list[0].reward;
    }
  }

  /** Only the admin raises the reward, by what is sent; the running total starts again. */
  lemma RaisesAreTheAdmins(cfg: Config, s: Storage, c: Call)
    requires c.msg.IncreaseReward?
    ensures Exec(cfg, s, c).Ok? <==> c.sender == cfg.admin && Fits(s.reward + c.msg.amount)
    ensures Exec(cfg, s, c).Ok? ==>
              var t := Exec(cfg, s, c).value;
              t.reward - c.msg.amount == s.reward && t.given == 0 && t == s.(reward := t.reward, given := t.given)
  {
  }
}
