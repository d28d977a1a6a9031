/** The clubstaking contract as it runs: storage items that are loaded, changed in loops and
    saved, proved against the functions of ClubStaking. */
module ClubContract {
  import opened Chain
  import opened ClubStaking
  import KeyOrder

  ghost predicate Commits(before: Storage, spec: Outcome, after: Storage, r: Result<(), Error>) {
    match spec
    case Ok(s) => r == Ok(()) && after == s
    case Err(e) => r == Err(e) && after == before
  }

  class StakingContract {
    const config: Config
    var clubs: map<string, Club>
    var stakes: map<Key, seq<Stake>>
    var bonds: map<Key, seq<Bond>>
    var reward: nat
    var given: nat
    var nextTime: nat
    var snapshot: map<string, nat>
    var winning: Winning

    function View(): Storage
      reads this
    {
      Storage(clubs, stakes, bonds, reward, given, nextTime, snapshot, winning)
    }

    constructor (config: Config, nextTime: nat)
      ensures View() == Genesis(nextTime) && this.config == config
    {
      this.config := config;
      clubs, stakes, bonds, reward, given := map[], map[], map[], 0, 0;
      this.nextTime, snapshot, winning := nextTime, map[], Winning(0, 0, 0, []);
    }

    // Stakes.

    method UpdateList(list: seq<Stake>, staker: Addr, amount: nat, auto: bool, increase: bool)
      returns (r: Result<(seq<Stake>, bool), Error>)
      ensures match UpdatedStakes(list, staker, amount, auto, increase)
              case Ok(updated) => r == Ok((updated, HasStake(list, staker)))
              case Err(e) => r == Err(e)
    {
      var updated, alreadyStaked := [], false;
      for i := 0 to |list|
        invariant UpdatedStakes(list[..i], staker, amount, auto, increase).Ok?
        invariant UpdatedStakes(list[..i], staker, amount, auto, increase).value == updated
        invariant alreadyStaked == HasStake(list[..i], staker)
      {
        assert list[..i + 1][..i] == list[..i];
        UpdateStops(list, i + 1, staker, amount, auto, increase);
        var next := UpdatedStake(list[i], staker, amount, auto, increase);
        if next.Err? {
          return Err(next.error);
        }
        HasStakeNext(list, i, staker);
        updated := updated + [next.value];
        alreadyStaked := alreadyStaked || list[i].staker == staker;
      }
      assert list[..|list|] == list;
      return Ok((updated, alreadyStaked));
    }

    method ExecuteSaveStaking(now: nat, staker: Addr, club: string, amount: nat, auto: bool, increase: bool)
      returns (r: Result<(), Error>)
      modifies `stakes, `clubs
      ensures match SaveStaking(old(View()), now, staker, club, amount, auto, increase)
              case Ok(s) => r == Ok(()) && View() == s
              case Err(e) => r == Err(e)
    {
      var list := Get(stakes, (club, staker), []);
      var updated :- UpdateList(list, staker, amount, auto, increase);
      if updated.1 {
        stakes := stakes[(club, staker) := updated.0];
      } else if increase {
        stakes := stakes[(club, staker) := list + [Stake(staker, now, amount, 0, auto)]];
      }
      if club !in clubs {
        return Err(NoOwnershipDetails);
      }
      var details := clubs[club];
      var total :- NewTotal(details.total, amount, increase);
      clubs := clubs[club := details.(total := total)];
      return Ok(());
    }

    method ExecuteStake(c: Call) returns (r: Result<(), Error>)
      requires c.msg.StakeOnAClub?
      modifies `stakes, `clubs
      ensures match Staking(old(View()), c)
              case Ok(s) => r == Ok(()) && View() == s
              case Err(e) => r == Err(e)
    {
      var m := c.msg;
      if c.sender != m.staker { return Err(Unauthorized); }
      if !c.feesPaid { return Err(InsufficientFees); }
      if m.club !in clubs { return Err(ClubNotAvailable); }
      r := ExecuteSaveStaking(c.now, m.staker, m.club, m.amount, m.auto, true);
      if r.Ok? && !c.delivered { r := Err(SubmessageFailed); }
    }

    method ExecuteAssignStakes(c: Call) returns (r: Result<(), Error>)
      requires c.msg.AssignStakes?
      modifies `stakes, `clubs
      ensures match Assigning(config, old(View()), c)
              case Ok(s) => r == Ok(()) && View() == s
              case Err(e) => r == Err(e)
    {
      var m := c.msg;
      if c.sender != config.admin { return Err(Unauthorized); }
      if !AllFor(m.list, m.club) { return Err(ClubNamesDoNotMatch); }
      if m.club !in clubs { return Err(ClubNotAvailable); }
      r := AssignEach(c.now, m.list, m.club);
      if r.Ok? && !c.delivered { r := Err(SubmessageFailed); }
    }

    method AssignEach(now: nat, list: seq<Assigned>, club: string) returns (r: Result<(), Error>)
      modifies `stakes, `clubs
      ensures match AssignAll(old(View()), now, list, club)
              case Ok(s) => r == Ok(()) && View() == s
              case Err(e) => r == Err(e)
    {
      ghost var start := View();
      for i := 0 to |list|
        invariant AssignAll(start, now, list[..i], club).Ok?
        invariant AssignAll(start, now, list[..i], club).value == View()
      {
        assert list[..i + 1][..i] == list[..i];
        AssignStops(start, now, list, i + 1, club);
        r := ExecuteSaveStaking(now, list[i].staker, club, list[i].amount, list[i].auto, true);
        if r.Err? {
          return;
        }
      }
      assert list[..|list|] == list;
      return Ok(());
    }

    // Owners.

    /** The walk over all clubs that looks for one the buyer already owns. */
    method CheckOwnsNone(buyer: Addr) returns (owns: bool)
      ensures owns == OwnsAClub(View(), buyer)
    {
      var keys := KeyOrder.Ascending(clubs.Keys);
      for i := 0 to |keys|
        invariant forall k :: k in keys[..i] ==> clubs[k].owner != buyer
      {
        assert keys[i] in keys;
        if clubs[keys[i]].owner == buyer {
          return true;
        }
      }
      assert keys[..|keys|] == keys;
      return false;
    }

    method ExecuteHandOver(now: nat, buyer: Addr, seller: Addr, club: string, auto: bool) returns (r: Result<(), Error>)
      modifies `stakes, `clubs
      ensures match HandOver(config, old(View()), now, buyer, seller, club, auto)
              case Ok(s) => r == Ok(()) && View() == s
              case Err(e) => r == Err(e)
    {
      if buyer == "" { return Err(InvalidAddress); }
      var owns := CheckOwnsNone(buyer);
      if owns { return Err(BuyerOwnsAClub); }
      var total := 0;
      if club in clubs {
        var owner := clubs[club];
        if !owner.released { return Err(OwnerHasNotReleased); }
        var until :- PlusSeconds(owner.start, owner.lockingPeriod);
        if now > until { return Err(ReleaseExpired); }
        if owner.owner != "" && owner.owner != seller { return Err(SellerIsNotTheOwner); }
        total := owner.total;
      }
      clubs := clubs[club := Club(buyer, now, config.releaseLocking, false, total)];
      if HasStake(Get(stakes, (club, buyer), []), buyer) {
        return Ok(());
      }
      r := ExecuteSaveStaking(now, buyer, club, 0, auto, true);
    }

    method ExecuteBuy(c: Call) returns (r: Result<(), Error>)
      requires c.msg.BuyAClub?
      modifies `stakes, `clubs
      ensures match Buying(config, old(View()), c)
              case Ok(s) => r == Ok(()) && View() == s
              case Err(e) => r == Err(e)
    {
      var m := c.msg;
      if c.sender != m.buyer { return Err(Unauthorized); }
      if !c.feesPaid { return Err(InsufficientFees); }
      r := ExecuteHandOver(c.now, m.buyer, m.seller, m.club, m.auto);
      if r.Ok? && !c.delivered { r := Err(SubmessageFailed); }
    }

    method ExecuteAssignClub(c: Call) returns (r: Result<(), Error>)
      requires c.msg.AssignAClub?
      modifies `stakes, `clubs
      ensures match AssigningClub(config, old(View()), c)
              case Ok(s) => r == Ok(()) && View() == s
              case Err(e) => r == Err(e)
    {
      var m := c.msg;
      if c.sender != config.admin { return Err(Unauthorized); }
      r := ExecuteHandOver(c.now, m.buyer, m.seller, m.club, m.auto);
    }

    method ExecuteRelease(c: Call) returns (r: Result<(), Error>)
      requires c.msg.ReleaseClub?
      modifies `clubs
      ensures match Releasing(old(View()), c)
              case Ok(s) => r == Ok(()) && View() == s
              case Err(e) => r == Err(e)
    {
      var m := c.msg;
      if m.seller != c.sender { return Err(Unauthorized); }
      if m.club !in clubs || clubs[m.club].owner != m.seller { return Err(ReleaserIsNotTheOwner); }
      clubs := clubs[m.club := clubs[m.club].(start := c.now, released := true)];
      return Ok(());
    }

    // Bonds.

    /** The loop over the sorted bonds. */
    method DrainBonds(sorted: seq<Bond>, staker: Addr, now: nat, amount: nat)
      returns (r: Result<(seq<Bond>, nat), Error>)
      ensures match Drain(sorted, staker, now, amount)
              case Ok(d) => r == Ok((d.kept, amount - d.remaining)) && d.remaining <= amount
              case Err(e) => r == Err(e)
    {
      var kept, remaining: nat, unbonded: nat := [], amount, 0;
      for i := 0 to |sorted|
        invariant Drain(sorted[..i], staker, now, amount).Ok?
        invariant Drain(sorted[..i], staker, now, amount).value == Drained(kept, remaining)
        invariant unbonded + remaining == amount
      {
        assert sorted[..i + 1][..i] == sorted[..i];
        DrainStops(sorted, i + 1, staker, now, amount);
        var bond := sorted[i];
        if bond.bonder != staker {
          kept := kept + [bond];
          continue;
        }
        var cut := MinusSeconds(now, bond.duration);
        if cut.Err? {
          return Err(cut.error);
        }
        if bond.start < cut.value {
          if remaining > 0 {
            if bond.amount > remaining {
              unbonded := unbonded + remaining;
              bond := bond.(amount := bond.amount - remaining);
              remaining := 0;
              kept := kept + [bond];
            } else {
              unbonded := unbonded + bond.amount;
              remaining := remaining - bond.amount;
            }
          } else {
            kept := kept + [bond];
          }
        } else {
          kept := kept + [bond];
        }
      }
      assert sorted[..|sorted|] == sorted;
      return Ok((kept, unbonded));
    }

    /** Sorting, draining and saving the bonds of one staker; the result is what is still missing. */
    method DrainStored(club: string, staker: Addr, now: nat, amount: nat) returns (r: Result<nat, Error>)
      modifies `bonds
      ensures match Drain(NewestFirst(old(View()).BondsOf(club, staker)), staker, now, amount)
              case Ok(d) => r == Ok(d.remaining) && bonds == old(bonds)[(club, staker) := d.kept]
              case Err(e) => r == Err(e)
    {
      var sorted := NewestFirst(Get(bonds, (club, staker), []));
      var drained :- DrainBonds(sorted, staker, now, amount);
      bonds := bonds[(club, staker) := drained.0];
      return Ok(amount - drained.1);
    }

    method ExecuteEncash(c: Call) returns (r: Result<(), Error>)
      requires c.msg.Withdraw?
      modifies `bonds, `stakes, `clubs
      ensures match Encashing(old(View()), c)
              case Ok(s) => r == Ok(()) && View() == s
              case Err(e) => r == Err(e)
    {
      var m := c.msg;
      var missing :- DrainStored(m.club, m.staker, c.now, m.amount);
      r := ExecuteSaveStaking(c.now, m.staker, m.club, missing, DONT_CHANGE_AUTO_STAKE, false);
      if r.Err? {
        return;
      }
      if missing > 0 {
        return Err(InsufficientMaturedBonds);
      }
      if !c.delivered { r := Err(SubmessageFailed); }
    }

    method ExecuteUnstake(c: Call) returns (r: Result<(), Error>)
      requires c.msg.Withdraw?
      modifies `bonds, `stakes, `clubs
      ensures match Unstaking(config, old(View()), c)
              case Ok(s) => r == Ok(()) && View() == s
              case Err(e) => r == Err(e)
    {
      var m := c.msg;
      var list := Get(stakes, (m.club, m.staker), []);
      var inExcess := exists i :: 0 <= i < |list| && list[i].staker == m.staker && list[i].amount < m.amount;
      if inExcess { return Err(ExcessUnstaking); }
      if config.maxBonds <= |Get(bonds, (m.club, m.staker), [])| { return Err(TooManyBonds); }
      r := ExecuteSaveStaking(c.now, m.staker, m.club, m.amount, DONT_CHANGE_AUTO_STAKE, false);
      if r.Err? {
        return;
      }
      var bonded := Get(bonds, (m.club, m.staker), []);
      bonded := bonded + [Bond(m.staker, c.now, m.amount, config.bondingDuration)];
      bonds := bonds[(m.club, m.staker) := bonded];
      if !c.delivered { r := Err(SubmessageFailed); }
    }

    method ExecuteWithdraw(c: Call) returns (r: Result<(), Error>)
      requires c.msg.Withdraw?
      modifies `bonds, `stakes, `clubs
      ensures match Withdrawing(config, old(View()), c)
              case Ok(s) => r == Ok(()) && View() == s
              case Err(e) => r == Err(e)
    {
      var m := c.msg;
      if m.staker != c.sender { return Err(Unauthorized); }
      if !c.feesPaid { return Err(InsufficientFees); }
      if (m.club, m.staker) !in stakes { return Err(NoStakeFound); }
      if !HasStake(stakes[(m.club, m.staker)], m.staker) { return Err(UserHasNotStaked); }
      if m.club !in clubs { return Err(InvalidClub); }
      if m.immediate {
        r := ExecuteEncash(c);
      } else {
        r := ExecuteUnstake(c);
      }
    }

    // Rewards.

    /** `swap_remove(0)` as often as there are elements. */
    method PopAll(list: seq<string>) returns (empty: seq<string>)
      ensures empty == []
    {
      empty := list;
      for i := 0 to |list|
        invariant |empty| == |list| - i
      {
        empty := if |empty| == 1 then [] else [empty[|empty| - 1]] + empty[1..|empty| - 1];
      }
    }

    /** The one-pass winner loop, with its running maximum stake assigned before it is compared. */
    method ScanClubs(es: seq<Entry>) returns (increase: int, topStake: nat, winningStake: nat, winners: seq<string>)
      ensures Scan(increase, topStake, winners) == ScanAll(es) && winningStake == topStake
    {
      increase, topStake, winningStake, winners := -MAX_UFURY_COUNT, 0, 0, [];
      for i := 0 to |es|
        invariant Scan(increase, topStake, winners) == ScanAll(es[..i]) && winningStake == topStake
      {
        assert es[..i + 1][..i] == es[..i];
        var difference := es[i].Increase();
        if difference > increase {
          winningStake := es[i].stake;
          increase := difference;
          topStake := es[i].stake;
          winners := PopAll(winners);
          winners := winners + [es[i].club];
        } else if difference == increase {
          if es[i].stake >= topStake {
            winningStake := es[i].stake;
            increase := difference;
            topStake := es[i].stake;
            if es[i].stake > topStake {
              winners := PopAll(winners);
              winners := winners + [es[i].club];
            } else if es[i].stake == topStake {
              winners := winners + [es[i].club];
            }
          }
        }
      }
      assert es[..|es|] == es;
    }

    method SumStakes(es: seq<Entry>) returns (total: nat)
      ensures total == TotalStake(es)
    {
      total := 0;
      for i := 0 to |es|
        invariant total == TotalStake(es[..i])
      {
        assert es[..i + 1][..i] == es[..i];
        total := total + es[i].stake;
      }
      assert es[..|es|] == es;
    }

    /** Whether every difference to the last snapshot fits its type. */
    method CheckIncreases(es: seq<Entry>) returns (fit: bool)
      ensures fit <==> forall i :: 0 <= i < |es| ==> IncreaseFits(es[i])
    {
      for i := 0 to |es|
        invariant forall j :: 0 <= j < i ==> IncreaseFits(es[j])
      {
        if !IncreaseFits(es[i]) {
          return false;
        }
      }
      return true;
    }

    method SaveSnapshot(es: seq<Entry>)
      modifies `snapshot
      ensures snapshot == Snapped(old(snapshot), es)
    {
      ghost var start := snapshot;
      for i := 0 to |es|
        invariant snapshot == Snapped(start, es[..i])
      {
        assert es[..i + 1][..i] == es[..i];
        snapshot := snapshot[es[i].club := es[i].stake];
      }
      assert es[..|es|] == es;
    }

    method ExecuteFindWinners() returns (r: Result<(), Error>)
      modifies `snapshot, `winning
      ensures match FindWinners(old(View()))
              case Ok(s) => r == Ok(()) && View() == s
              case Err(e) => r == Err(e)
    {
      var es := Entries(View(), ClubKeys(View()));
      var total := SumStakes(es);
      var fit := CheckIncreases(es);
      if !Fits(total) || !fit {
        return Err(Overflow);
      }
      var increase, topStake, winningStake, winners := ScanClubs(es);
      SaveSnapshot(es);
      winning := Winning(|es|, total, winningStake, winners);
      return Ok(());
    }

    /** The inner reward loop, over the stakes of one staker. */
    method RewardOneStaker(sh: Shares, list: seq<Stake>, given: nat, added: nat)
      returns (r: Result<(seq<Stake>, nat, nat), Error>)
      ensures match RewardList(sh, list, given, added)
              case Ok(b) => r == Ok((b.list, b.given, b.added))
              case Err(e) => r == Err(e)
    {
      var updated, givenSoFar, stakeToAdd := [], given, added;
      for i := 0 to |list|
        invariant RewardList(sh, list[..i], given, added).Ok?
        invariant RewardList(sh, list[..i], given, added).value == Batch(updated, givenSoFar, stakeToAdd)
      {
        assert list[..i + 1][..i] == list[..i];
        RewardListStops(sh, list, i + 1, given, added);
        var stake := list[i];
        if stake.start > sh.now {
          continue;
        }
        var pay := sh.Pay(stake);
        var paid := Rewarded(sh, stake);
        if paid.Err? {
          return Err(paid.error);
        }
        if !Fits(givenSoFar + pay) {
          return Err(Overflow);
        }
        givenSoFar := givenSoFar + pay;
        if stake.auto == SET_AUTO_STAKE {
          if !Fits(stakeToAdd + pay) {
            return Err(Overflow);
          }
          stakeToAdd := stakeToAdd + pay;
        }
        updated := updated + [paid.value];
      }
      assert list[..|list|] == list;
      return Ok((updated, givenSoFar, stakeToAdd));
    }

    /** The outer reward loop, over the stakers of the batch. */
    method RewardBatch(sh: Shares, club: string, stakers: seq<Addr>) returns (r: Result<(nat, nat), Error>)
      modifies `stakes
      ensures match RewardStakers(sh, old(stakes), club, stakers)
              case Ok(p) => r == Ok((p.given, p.added)) && stakes == p.stakes
              case Err(e) => r == Err(e)
    {
      var givenSoFar, stakeToAdd := 0, 0;
      ghost var start := stakes;
      for i := 0 to |stakers|
        invariant RewardStakers(sh, start, club, stakers[..i]).Ok?
        invariant RewardStakers(sh, start, club, stakers[..i]).value == Progress(stakes, givenSoFar, stakeToAdd)
      {
        assert stakers[..i + 1][..i] == stakers[..i];
        RewardStakersStops(sh, start, club, stakers, i + 1);
        var list := Get(stakes, (club, stakers[i]), []);
        var one := RewardOneStaker(sh, list, givenSoFar, stakeToAdd);
        if one.Err? {
          return Err(one.error);
        }
        givenSoFar, stakeToAdd := one.value.1, one.value.2;
        stakes := stakes[(club, stakers[i]) := one.value.0];
      }
      assert stakers[..|stakers|] == stakers;
      return Ok((givenSoFar, stakeToAdd));
    }

    method ExecutePayBatch(now: nat, saved: nat, stakers: seq<Addr>, club: string, isFinal: bool)
      returns (r: Result<(), Error>)
      modifies `stakes, `clubs, `given, `reward
      ensures match PayBatch(config, old(View()), now, saved, stakers, club, isFinal)
              case Ok(s) => r == Ok(()) && View() == s
              case Err(e) => r == Err(e)
    {
      var sh :- SharesFor(config, View(), now, saved, club);
      var details := clubs[club];
      var batch :- RewardBatch(sh, club, stakers);
      if !Fits(details.total + batch.1) || !Fits(given + batch.0) {
        return Err(Overflow);
      }
      clubs := clubs[club := details.(total := details.total + batch.1)];
      given := given + batch.0;
      if isFinal {
        var newReward := 0;
        if reward > given {
          newReward := reward - given;
        }
        reward := newReward;
      }
      return Ok(());
    }

    method ExecuteDistribute(c: Call) returns (r: Result<(), Error>)
      requires c.msg.Distribute?
      modifies this
      ensures match Distributing(config, old(View()), c)
              case Ok(s) => r == Ok(()) && View() == s
              case Err(e) => r == Err(e)
    {
      var m := c.msg;
      if c.sender != config.admin { return Err(Unauthorized); }
      var saved := nextTime;
      if c.now < saved { return Err(RewardTimeNotArrived); }
      if m.isFinal {
        var next := nextTime;
        if next < c.now {
          next :- PlusSeconds(next, config.rewardPeriodicity);
        }
        nextTime := next;
      }
      if reward == 0 { return Ok(()); }
      if m.isFirst {
        r := ExecuteFindWinners();
        if r.Err? {
          return;
        }
      }
      r := ExecutePayBatch(c.now, saved, m.stakers, m.club, m.isFinal);
    }

    method SumPending(list: seq<Stake>, staker: Addr) returns (amount: nat, found: bool)
      ensures amount == PendingOf(list, staker) && found == HasStake(list, staker)
    {
      amount, found := 0, false;
      for i := 0 to |list|
        invariant amount == PendingOf(list[..i], staker) && found == HasStake(list[..i], staker)
      {
        assert list[..i + 1][..i] == list[..i];
        HasStakeNext(list, i, staker);
        if list[i].staker == staker {
          amount := amount + list[i].reward;
          found := true;
        }
      }
      assert list[..|list|] == list;
    }

    method ExecuteClaimRewards(c: Call) returns (r: Result<(), Error>)
      requires c.msg.ClaimStakerRewards?
      modifies `stakes
      ensures match ClaimingRewards(old(View()), c)
              case Ok(s) => r == Ok(()) && View() == s
              case Err(e) => r == Err(e)
    {
      var m := c.msg;
      if m.staker != c.sender { return Err(Unauthorized); }
      if !c.feesPaid { return Err(InsufficientFees); }
      var list := Get(stakes, (m.club, m.staker), []);
      var amount, found := SumPending(list, m.staker);
      if !Fits(amount) { return Err(Overflow); }
      stakes := stakes[(m.club, m.staker) := list];
      if !found { return Err(NotAStaker); }
      if amount == 0 { return Err(NoRewards); }
      if !c.delivered { return Err(SubmessageFailed); }
      return Ok(());
    }

    method ExecuteIncreaseReward(c: Call) returns (r: Result<(), Error>)
      requires c.msg.IncreaseReward?
      modifies `reward, `given
      ensures match Increasing(config, old(View()), c)
              case Ok(s) => r == Ok(()) && View() == s
              case Err(e) => r == Err(e)
    {
      if c.sender != config.admin { return Err(Unauthorized); }
      if !Fits(reward + c.msg.amount) { return Err(Overflow); }
      reward := reward + c.msg.amount;
      given := 0;
      return Ok(());
    }

    method Dispatch(c: Call) returns (r: Result<(), Error>)
      modifies this
      ensures match Exec(config, old(View()), c)
              case Ok(s) => r == Ok(()) && View() == s
              case Err(e) => r == Err(e)
    {
      match c.msg {
        case StakeOnAClub(_, _, _, _) => r := ExecuteStake(c);
        case AssignStakes(_, _) => r := ExecuteAssignStakes(c);
        case BuyAClub(_, _, _, _) => r := ExecuteBuy(c);
        case AssignAClub(_, _, _, _) => r := ExecuteAssignClub(c);
        case ReleaseClub(_, _) => r := ExecuteRelease(c);
        case Withdraw(_, _, _, _) => r := ExecuteWithdraw(c);
        case Distribute(_, _, _, _) => r := ExecuteDistribute(c);
        case ClaimStakerRewards(_, _) => r := ExecuteClaimRewards(c);
        case IncreaseReward(_) => r := ExecuteIncreaseReward(c);
      }
    }

    /** One message: either its whole effect, or none of it. */
    method Execute(c: Call) returns (r: Result<(), Error>)
      modifies this
      ensures Commits(old(View()), Exec(config, old(View()), c), View(), r)
    {
      var before := View();
      r := Dispatch(c);
      if r.Err? {
        clubs, stakes, bonds, reward := before.clubs, before.stakes, before.bonds, before.reward;
        given, nextTime, snapshot, winning := before.given, before.nextTime, before.snapshot, before.winning;
      }
    }
  }

  // An error inside a walk is the error of the whole walk.

  lemma HasStakeNext(list: seq<Stake>, i: nat, staker: Addr)
    requires i < |list|
    ensures HasStake(list[..i + 1], staker) <==> HasStake(list[..i], staker) || list[i].staker == staker
  {
    var longer, shorter := list[..i + 1], list[..i];
    assert longer[i] == list[i];
    assert forall j :: 0 <= j < i ==> longer[j] == shorter[j];
  }

  lemma {:induction false} UpdateStops(list: seq<Stake>, i: nat, staker: Addr, amount: nat, auto: bool, increase: bool)
    requires i <= |list|
    ensures UpdatedStakes(list[..i], staker, amount, auto, increase).Err? ==>
              UpdatedStakes(list, staker, amount, auto, increase) ==
              UpdatedStakes(list[..i], staker, amount, auto, increase)
    decreases |list|
  {
    if i < |list| {
      UpdateStops(list[..|list| - 1], i, staker, amount, auto, increase);
      assert list[..|list| - 1][..i] == list[..i];
    } else {
      assert list[..i] == list;
    }
  }

  lemma {:induction false} AssignStops(s: Storage, now: nat, list: seq<Assigned>, i: nat, club: string)
    requires i <= |list|
    ensures AssignAll(s, now, list[..i], club).Err? ==>
              AssignAll(s, now, list, club) == AssignAll(s, now, list[..i], club)
    decreases |list|
  {
    if i < |list| {
      AssignStops(s, now, list[..|list| - 1], i, club);
      assert list[..|list| - 1][..i] == list[..i];
    } else {
      assert list[..i] == list;
    }
  }

  lemma {:induction false} DrainStops(bonds: seq<Bond>, i: nat, staker: Addr, now: nat, amount: nat)
    requires i <= |bonds|
    ensures Drain(bonds[..i], staker, now, amount).Err? ==>
              Drain(bonds, staker, now, amount) == Drain(bonds[..i], staker, now, amount)
    decreases |bonds|
  {
    if i < |bonds| {
      DrainStops(bonds[..|bonds| - 1], i, staker, now, amount);
      assert bonds[..|bonds| - 1][..i] == bonds[..i];
    } else {
      assert bonds[..i] == bonds;
    }
  }

  lemma {:induction false} RewardListStops(sh: Shares, list: seq<Stake>, i: nat, given: nat, added: nat)
    requires i <= |list|
    ensures RewardList(sh, list[..i], given, added).Err? ==>
              RewardList(sh, list, given, added) == RewardList(sh, list[..i], given, added)
    decreases |list|
  {
    if i < |list| {
      RewardListStops(sh, list[..|list| - 1], i, given, added);
      assert list[..|list| - 1][..i] == list[..i];
    } else {
      assert list[..i] == list;
    }
  }

  lemma {:induction false} RewardStakersStops(sh: Shares, stakes: map<Key, seq<Stake>>, club: string,
                                              stakers: seq<Addr>, i: nat)
    requires i <= |stakers|
    ensures RewardStakers(sh, stakes, club, stakers[..i]).Err? ==>
              RewardStakers(sh, stakes, club, stakers) == RewardStakers(sh, stakes, club, stakers[..i])
    decreases |stakers|
  {
    if i < |stakers| {
      RewardStakersStops(sh, stakes, club, stakers[..|stakers| - 1], i);
      assert stakers[..|stakers| - 1][..i] == stakers[..i];
    } else {
      assert stakers[..i] == stakers;
    }
  }
}
