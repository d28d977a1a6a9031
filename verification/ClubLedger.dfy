/** The stake ledger over every run: what a club's stakers hold is what was deposited and given less
    what was unstaked, and their stakes are the club's total plus what top-ups compounded. */
module ClubLedger {
  import opened Chain
  import opened ClubStaking
  import opened ClubDistribution
  import opened ClubOwners
  import Sums

  // What a list holds.

  function Amounts(list: seq<Stake>): nat {
    if list == [] then 0 else Amounts(list[..|list| - 1]) + list[|list| - 1].amount
  }

  function Pendings(list: seq<Stake>): nat {
    if list == [] then 0 else Pendings(list[..|list| - 1]) + list[|list| - 1].reward
  }

  lemma {:induction false} HoldingsAppend(a: seq<Stake>, b: seq<Stake>)
    ensures Amounts(a + b) == Amounts(a) + Amounts(b)
    ensures Pendings(a + b) == Pendings(a) + Pendings(b)
  {
    if b == [] {
      assert a + b == a;
    } else {
      HoldingsAppend(a, b[..|b| - 1]);
      assert (a + b)[..|a + b| - 1] == a + b[..|b| - 1];
    }
  }

  lemma OneHolds(k: Stake)
    ensures Amounts([k]) == k.amount && Pendings([k]) == k.reward
  {
    assert [k][..0] == [];
  }

  // What a club's stakers hold.

  ghost function AmountsIn(club: string): (Key, seq<Stake>) -> int {
    (k: Key, list: seq<Stake>) => if k.0 == club then Amounts(list) else 0
  }

  ghost function PendingsIn(club: string): (Key, seq<Stake>) -> int {
    (k: Key, list: seq<Stake>) => if k.0 == club then Pendings(list) else 0
  }

  ghost function Staked(stakes: map<Key, seq<Stake>>, club: string): int {
    Sums.Sum<Key, seq<Stake>>(stakes, AmountsIn(club))
  }

  ghost function Pending(stakes: map<Key, seq<Stake>>, club: string): int {
    Sums.Sum<Key, seq<Stake>>(stakes, PendingsIn(club))
  }

  function TotalOf(s: Storage, club: string): nat {
    if club in s.clubs then s.clubs[club].total else 0
  }

  /** What replacing one list does to the sums. */
  lemma ListReplaced(stakes: map<Key, seq<Stake>>, key: Key, list: seq<Stake>, club: string)
    ensures var was := Get(stakes, key, []);
            && Staked(stakes[key := list], club)
               == Staked(stakes, club) + (if key.0 == club then Amounts(list) - Amounts(was) else 0)
            && Pending(stakes[key := list], club)
               == Pending(stakes, club) + (if key.0 == club then Pendings(list) - Pendings(was) else 0)
  {
    Sums.Update<Key, seq<Stake>>(stakes, AmountsIn(club), key, list);
    Sums.Update<Key, seq<Stake>>(stakes, PendingsIn(club), key, list);
  }

  // Every list.

  /** A staker's list: at most one entry, the staker's own, with nothing pending when auto-staked. */
  predicate NeatList(list: seq<Stake>, staker: Addr) {
    |list| <= 1 && forall i :: 0 <= i < |list| ==> list[i].staker == staker && (list[i].auto ==> list[i].reward == 0)
  }

  lemma NeatListOrNoStake(list: seq<Stake>, staker: Addr)
    requires NeatList(list, staker)
    ensures list == [] || HasStake(list, staker)
  {
    assert list != [] ==> list[0].staker == staker;
  }

  predicate Neat(stakes: map<Key, seq<Stake>>) {
    forall k :: k in stakes ==> NeatList(stakes[k], k.1)
  }

  // Flows.

  /** What moved in one club. */
  datatype Flows = Flows(deposited: nat, unstaked: nat, compounded: nat, given: int, lost: seq<Stake>) {
    function Plus(f: Flows): Flows {
      Flows(deposited + f.deposited, unstaked + f.unstaked, compounded + f.compounded, given + f.given, lost + f.lost)
    }
  }

  const STILL := Flows(0, 0, 0, 0, [])

  /** The sums after a step against the sums before it; `added` is what a distribution put into
      auto-staked stakes. */
  ghost predicate Moved(s: map<Key, seq<Stake>>, t: map<Key, seq<Stake>>, club: string, f: Flows, added: int) {
    && Staked(t, club) == Staked(s, club) + f.deposited - f.unstaked + f.compounded + added - Amounts(f.lost)
    && Pending(t, club) == Pending(s, club) - f.compounded + f.given - added - Pendings(f.lost)
  }

  /** The law for one step: stakes and totals. */
  ghost predicate Follows(s: Storage, t: Storage, club: string, f: Flows) {
    exists added: int :: MovedWith(s, t, club, f, added)
  }

  ghost predicate MovedWith(s: Storage, t: Storage, club: string, f: Flows, added: int) {
    && Moved(s.stakes, t.stakes, club, f, added)
    && TotalOf(t, club) == TotalOf(s, club) + f.deposited - f.unstaked + added
  }

  // Saving a stake.

  /** What a deposit moves: the amount, and the pending reward when it switches auto-stake on. */
  function Deposit(s: Storage, staker: Addr, amount: nat, auto: bool, on: string, club: string): Flows {
    if on != club then STILL
    else Flows(amount, 0, if auto then Pendings(s.StakesOf(on, staker)) else 0, 0, [])
  }

  lemma UpdatedNeatList(list: seq<Stake>, staker: Addr, amount: nat, auto: bool, increase: bool)
    requires NeatList(list, staker) && list != []
    requires UpdatedStakes(list, staker, amount, auto, increase).Ok?
    ensures var k := UpdatedStake(list[0], staker, amount, auto, increase);
            k.Ok? && UpdatedStakes(list, staker, amount, auto, increase).value == [k.value]
    ensures HasStake(list, staker)
  {
    assert list[..0] == [];
    assert list[0].staker == staker;
  }

  lemma FirstDeposit(s: Storage, now: nat, staker: Addr, club: string, amount: nat, auto: bool)
    requires SaveStaking(s, now, staker, club, amount, auto, true).Ok? && s.StakesOf(club, staker) == []
    ensures var t := SaveStaking(s, now, staker, club, amount, auto, true).value;
            t.stakes == s.stakes[(club, staker) := [Stake(staker, now, amount, 0, auto)]]
  {
    assert !HasStake([], staker);
    assert [] + [Stake(staker, now, amount, 0, auto)] == [Stake(staker, now, amount, 0, auto)];
  }

  lemma NextDeposit(s: Storage, now: nat, staker: Addr, club: string, amount: nat, auto: bool)
    requires SaveStaking(s, now, staker, club, amount, auto, true).Ok?
    requires NeatList(s.StakesOf(club, staker), staker) && s.StakesOf(club, staker) != []
    ensures var k := s.StakesOf(club, staker)[0];
            var t := SaveStaking(s, now, staker, club, amount, auto, true).value;
            && ToppedUp(k, amount, auto).Ok? && k.staker == staker
            && t.stakes == s.stakes[(club, staker) := [ToppedUp(k, amount, auto).value]]
  {
    UpdatedNeatList(s.StakesOf(club, staker), staker, amount, auto, true);
  }

  lemma DepositedList(s: Storage, now: nat, staker: Addr, club: string, amount: nat, auto: bool)
    requires Neat(s.stakes) && SaveStaking(s, now, staker, club, amount, auto, true).Ok?
    ensures var t := SaveStaking(s, now, staker, club, amount, auto, true).value;
            var list := t.StakesOf(club, staker);
            && t.stakes == s.stakes[(club, staker) := list] && NeatList(list, staker)
            && Amounts(list) == Amounts(s.StakesOf(club, staker)) + amount
                                + (if auto then Pendings(s.StakesOf(club, staker)) else 0)
            && Pendings(list) == (if auto then 0 else Pendings(s.StakesOf(club, staker)))
  {
    var list := s.StakesOf(club, staker);
    if list == [] {
      FirstDeposit(s, now, staker, club, amount, auto);
      OneHolds(Stake(staker, now, amount, 0, auto));
    } else {
      NextDeposit(s, now, staker, club, amount, auto);
      assert list == [list[0]];
      OneHolds(list[0]);
      OneHolds(ToppedUp(list[0], amount, auto).value);
    }
  }

  lemma TotalSaved(s: Storage, now: nat, staker: Addr, on: string, amount: nat, auto: bool, increase: bool, club: string)
    requires SaveStaking(s, now, staker, on, amount, auto, increase).Ok?
    ensures var moved: int := amount;
            var change := if on != club then 0 else if increase then moved else -moved;
            TotalOf(SaveStaking(s, now, staker, on, amount, auto, increase).value, club) == TotalOf(s, club) + change
  {
  }

  lemma {:induction false} SaveDeposits(s: Storage, now: nat, staker: Addr, on: string, amount: nat, auto: bool,
                                       club: string)
    requires Neat(s.stakes) && SaveStaking(s, now, staker, on, amount, auto, true).Ok?
    ensures var t := SaveStaking(s, now, staker, on, amount, auto, true).value;
            Neat(t.stakes) && MovedWith(s, t, club, Deposit(s, staker, amount, auto, on, club), 0)
  {
    var t := SaveStaking(s, now, staker, on, amount, auto, true).value;
    DepositedList(s, now, staker, on, amount, auto);
    ListReplaced(s.stakes, (on, staker), t.StakesOf(on, staker), club);
  }

  lemma LoweredList(s: Storage, now: nat, staker: Addr, club: string, amount: nat)
    requires Neat(s.stakes) && SaveStaking(s, now, staker, club, amount, false, false).Ok?
    requires HasStake(s.StakesOf(club, staker), staker)
    ensures var t := SaveStaking(s, now, staker, club, amount, false, false).value;
            var list := t.StakesOf(club, staker);
            && t.stakes == s.stakes[(club, staker) := list] && NeatList(list, staker)
            && Amounts(list) == Amounts(s.StakesOf(club, staker)) - amount
            && Pendings(list) == Pendings(s.StakesOf(club, staker))
  {
    var list := s.StakesOf(club, staker);
    UpdatedNeatList(list, staker, amount, false, false);
    OneHolds(list[0]);
    OneHolds(UpdatedStake(list[0], staker, amount, false, false).value);
    assert list == [list[0]];
  }

  lemma SaveUnstakes(s: Storage, now: nat, staker: Addr, on: string, amount: nat, club: string)
    requires Neat(s.stakes) && SaveStaking(s, now, staker, on, amount, false, false).Ok?
    requires HasStake(s.StakesOf(on, staker), staker)
    ensures var t := SaveStaking(s, now, staker, on, amount, false, false).value;
            Neat(t.stakes) && MovedWith(s, t, club, if on == club then STILL.(unstaked := amount) else STILL, 0)
  {
    var t := SaveStaking(s, now, staker, on, amount, false, false).value;
    LoweredList(s, now, staker, on, amount);
    ListReplaced(s.stakes, (on, staker), t.StakesOf(on, staker), club);
    TotalSaved(s, now, staker, on, amount, false, false, club);
  }

  /** A step that changes neither stakes nor totals moves nothing. */
  lemma SameLedger(s: Storage, t: Storage, u: Storage, club: string, f: Flows, added: int)
    requires MovedWith(s, t, club, f, added) && s.stakes == u.stakes && s.clubs == u.clubs
    ensures MovedWith(u, t, club, f, added)
  {
  }

  /** Deposits of an assignment, one after another. */
  function Deposits(s: Storage, now: nat, list: seq<Assigned>, on: string, club: string): Flows {
    if list == [] || AssignAll(s, now, list[..|list| - 1], on).Err? then STILL else
      var n := |list| - 1;
      var before := AssignAll(s, now, list[..n], on).value;
      Deposits(s, now, list[..n], on, club).Plus(Deposit(before, list[n].staker, list[n].amount, list[n].auto, on, club))
  }

  lemma {:induction false} DepositsLoseNothing(s: Storage, now: nat, list: seq<Assigned>, on: string, club: string)
    ensures Deposits(s, now, list, on, club).lost == []
  {
    if list != [] {
      DepositsLoseNothing(s, now, list[..|list| - 1], on, club);
    }
  }

  lemma {:induction false} AssignDeposits(s: Storage, now: nat, list: seq<Assigned>, on: string, club: string)
    requires Neat(s.stakes) && AssignAll(s, now, list, on).Ok?
    ensures var t := AssignAll(s, now, list, on).value;
            Neat(t.stakes) && MovedWith(s, t, club, Deposits(s, now, list, on, club), 0)
  {
    if list != [] {
      var n := |list| - 1;
      AssignDeposits(s, now, list[..n], on, club);
      var before := AssignAll(s, now, list[..n], on).value;
      SaveDeposits(before, now, list[n].staker, on, list[n].amount, list[n].auto, club);
      DepositsLoseNothing(s, now, list[..n], on, club);
    }
  }

  // Paying a batch.

  /** The stakes of a list that are not due. */
  function NotDue(list: seq<Stake>, now: nat): seq<Stake> {
    if list == [] then [] else
      NotDue(list[..|list| - 1], now) + (if list[|list| - 1].start > now then [list[|list| - 1]] else [])
  }

  /** The stakes a batch leaves out of the lists it writes back. */
  function Dropped(sh: Shares, stakes: map<Key, seq<Stake>>, club: string, stakers: seq<Addr>): seq<Stake>
    requires RewardStakers(sh, stakes, club, stakers).Ok?
  {
    if stakers == [] then [] else
      var n := |stakers| - 1;
      Dropped(sh, stakes, club, stakers[..n]) +
      NotDue(Get(RewardStakers(sh, stakes, club, stakers[..n]).value.stakes, (club, stakers[n]), []), sh.now)
  }

  lemma OneRewarded(sh: Shares, k: Stake, given: nat, added: nat)
    requires RewardList(sh, [k], given, added).Ok?
    ensures var b := RewardList(sh, [k], given, added).value;
            if k.start > sh.now then b == Batch([], given, added)
            else Rewarded(sh, k).Ok? && b == Batch([Rewarded(sh, k).value], given + sh.Pay(k),
                                                   added + if k.auto then sh.Pay(k) else 0)
  {
    assert [k][..0] == [];
  }

  lemma OneNotDue(k: Stake, now: nat)
    ensures NotDue([k], now) == if k.start > now then [k] else []
  {
    assert [k][..0] == [];
  }

  lemma {:induction false} OneGoesThrough(sh: Shares, k: Stake, given: nat, added: nat)
    requires RewardList(sh, [k], given, added).Ok? && (k.auto ==> k.reward == 0) && k.start <= sh.now
    ensures var b := RewardList(sh, [k], given, added).value;
            && NeatList(b.list, k.staker)
            && Amounts(b.list) == k.amount + (b.added - added)
            && Pendings(b.list) == k.reward + (b.given - given) - (b.added - added)
  {
    OneRewarded(sh, k, given, added);
    OneHolds(Rewarded(sh, k).value);
  }

  lemma {:induction false} OneThroughABatch(sh: Shares, k: Stake, given: nat, added: nat)
    requires RewardList(sh, [k], given, added).Ok? && (k.auto ==> k.reward == 0)
    ensures var b := RewardList(sh, [k], given, added).value;
            && NeatList(b.list, k.staker)
            && Amounts(b.list) == k.amount + (b.added - added) - Amounts(NotDue([k], sh.now))
            && Pendings(b.list) == k.reward + (b.given - given) - (b.added - added) - Pendings(NotDue([k], sh.now))
  {
    OneRewarded(sh, k, given, added);
    OneNotDue(k, sh.now);
    OneHolds(k);
    if k.start <= sh.now {
      OneGoesThrough(sh, k, given, added);
    }
  }

  /** One neat list through a batch. */
  lemma NeatListRewarded(sh: Shares, list: seq<Stake>, staker: Addr, given: nat, added: nat)
    requires NeatList(list, staker) && RewardList(sh, list, given, added).Ok?
    ensures var b := RewardList(sh, list, given, added).value;
            && NeatList(b.list, staker)
            && Amounts(b.list) == Amounts(list) + (b.added - added) - Amounts(NotDue(list, sh.now))
            && Pendings(b.list) == Pendings(list) + (b.given - given) - (b.added - added) - Pendings(NotDue(list, sh.now))
  {
    if list != [] {
      assert list == [list[0]];
      OneThroughABatch(sh, list[0], given, added);
      OneHolds(list[0]);
    }
  }

  lemma {:induction false} BatchMoves(sh: Shares, stakes: map<Key, seq<Stake>>, on: string, stakers: seq<Addr>,
                                     club: string)
    requires Neat(stakes) && RewardStakers(sh, stakes, on, stakers).Ok?
    ensures var p := RewardStakers(sh, stakes, on, stakers).value;
            && Neat(p.stakes)
            && Moved(stakes, p.stakes, club,
                     if on == club then STILL.(given := p.given, lost := Dropped(sh, stakes, on, stakers)) else STILL,
                     if on == club then p.added else 0)
  {
    if stakers != [] {
      var n := |stakers| - 1;
      BatchMoves(sh, stakes, on, stakers[..n], club);
      var p := RewardStakers(sh, stakes, on, stakers[..n]).value;
      var list := Get(p.stakes, (on, stakers[n]), []);
      NeatListRewarded(sh, list, stakers[n], p.given, p.added);
      ListReplaced(p.stakes, (on, stakers[n]), RewardList(sh, list, p.given, p.added).value.list, club);
      HoldingsAppend(Dropped(sh, stakes, on, stakers[..n]), NotDue(list, sh.now));
    }
  }

  /** What an accepted distribution leaves out. */
  function DroppedBy(cfg: Config, s: Storage, c: Call): seq<Stake>
    requires c.msg.Distribute? && Exec(cfg, s, c).Ok?
  {
    if s.reward == 0 then [] else
      BatchIsPaid(cfg, s, c);
      Dropped(BatchShares(cfg, s, c), s.stakes, c.msg.club, c.msg.stakers)
  }

  /** What an accepted message moves in a club. */
  function FlowsOf(cfg: Config, s: Storage, c: Call, club: string): Flows
    requires Exec(cfg, s, c).Ok?
  {
    match c.msg
    case StakeOnAClub(staker, on, amount, auto) => Deposit(s, staker, amount, auto, on, club)
    case AssignStakes(list, on) => Deposits(s, c.now, list, on, club)
    case Withdraw(_, on, amount, immediate) => if on == club && !immediate then STILL.(unstaked := amount) else STILL
    case Distribute(_, on, _, _) =>
      if on == club then STILL.(given := Exec(cfg, s, c).value.given - s.given, lost := DroppedBy(cfg, s, c)) else STILL
    case _ => STILL
  }

  // Message by message.

  lemma TotalPaid(cfg: Config, s: Storage, c: Call, club: string, added: int)
    requires PaysBatch(cfg, s, c)
    requires var r := RewardStakers(BatchShares(cfg, s, c), s.stakes, c.msg.club, c.msg.stakers);
             r.Ok? && added == if c.msg.club == club then r.value.added else 0
    ensures TotalOf(Exec(cfg, s, c).value, club) == TotalOf(s, club) + added
  {
    BatchIsPaid(cfg, s, c);
  }

  lemma PayingFlows(cfg: Config, s: Storage, c: Call, club: string)
    requires PaysBatch(cfg, s, c)
    requires RewardStakers(BatchShares(cfg, s, c), s.stakes, c.msg.club, c.msg.stakers).Ok?
    ensures var sh := BatchShares(cfg, s, c);
            FlowsOf(cfg, s, c, club)
            == if c.msg.club == club
               then STILL.(given := RewardStakers(sh, s.stakes, c.msg.club, c.msg.stakers).value.given,
                           lost := Dropped(sh, s.stakes, c.msg.club, c.msg.stakers))
               else STILL
  {
    BatchIsPaid(cfg, s, c);
  }

  lemma PayingFollows(cfg: Config, s: Storage, c: Call, club: string) returns (added: int)
    requires Neat(s.stakes) && PaysBatch(cfg, s, c)
    ensures Neat(Exec(cfg, s, c).value.stakes)
    ensures MovedWith(s, Exec(cfg, s, c).value, club, FlowsOf(cfg, s, c, club), added)
  {
    BatchIsPaid(cfg, s, c);
    var sh := BatchShares(cfg, s, c);
    BatchMoves(sh, s.stakes, c.msg.club, c.msg.stakers, club);
    added := if c.msg.club == club then RewardStakers(sh, s.stakes, c.msg.club, c.msg.stakers).value.added else 0;
    TotalPaid(cfg, s, c, club, added);
    PayingFlows(cfg, s, c, club);
  }

  lemma EmptyBatchFollows(cfg: Config, s: Storage, c: Call, club: string)
    requires c.msg.Distribute? && Exec(cfg, s, c).Ok? && s.reward == 0
    ensures var t := Exec(cfg, s, c).value;
            t.stakes == s.stakes && MovedWith(s, t, club, FlowsOf(cfg, s, c, club), 0)
  {
    EmptyBatch(cfg, s, c);
  }

  lemma DistributingFollows(cfg: Config, s: Storage, c: Call, club: string)
    requires Neat(s.stakes) && c.msg.Distribute? && Exec(cfg, s, c).Ok?
    ensures var t := Exec(cfg, s, c).value;
            Neat(t.stakes) && Follows(s, t, club, FlowsOf(cfg, s, c, club))
  {
    if s.reward == 0 {
      EmptyBatchFollows(cfg, s, c, club);
    } else {
      var added := PayingFollows(cfg, s, c, club);
    }
  }

  lemma {:induction false} HandingOverFollows(cfg: Config, s: Storage, now: nat, buyer: Addr, seller: Addr, on: string,
                                             auto: bool, club: string)
    requires Neat(s.stakes) && HandOver(cfg, s, now, buyer, seller, on, auto).Ok?
    ensures var t := HandOver(cfg, s, now, buyer, seller, on, auto).value;
            Neat(t.stakes) && MovedWith(s, t, club, STILL, 0)
  {
    if !HasStake(s.StakesOf(on, buyer), buyer) {
      var total := if on in s.clubs then s.clubs[on].total else 0;
      var owned := s.(clubs := s.clubs[on := Club(buyer, now, cfg.releaseLocking, false, total)]);
      NeatListOrNoStake(s.StakesOf(on, buyer), buyer);
      SaveDeposits(owned, now, buyer, on, 0, auto, club);
    }
  }

  lemma EncashingFollows(s: Storage, c: Call, club: string)
    requires Neat(s.stakes) && c.msg.Withdraw? && Encashing(s, c).Ok?
    requires HasStake(s.StakesOf(c.msg.club, c.msg.staker), c.msg.staker)
    ensures Neat(Encashing(s, c).value.stakes) && MovedWith(s, Encashing(s, c).value, club, STILL, 0)
  {
    var m := c.msg;
    var drained := Drain(NewestFirst(s.BondsOf(m.club, m.staker)), m.staker, c.now, m.amount).value;
    var bonded := s.(bonds := s.bonds[(m.club, m.staker) := drained.kept]);
    SaveUnstakes(bonded, c.now, m.staker, m.club, 0, club);
    SameLedger(bonded, Encashing(s, c).value, s, club, STILL, 0);
  }

  lemma UnstakingFollows(cfg: Config, s: Storage, c: Call, club: string)
    requires Neat(s.stakes) && c.msg.Withdraw? && Unstaking(cfg, s, c).Ok?
    requires HasStake(s.StakesOf(c.msg.club, c.msg.staker), c.msg.staker)
    ensures var t := Unstaking(cfg, s, c).value;
            && Neat(t.stakes)
            && MovedWith(s, t, club, if c.msg.club == club then STILL.(unstaked := c.msg.amount) else STILL, 0)
  {
    SaveUnstakes(s, c.now, c.msg.staker, c.msg.club, c.msg.amount, club);
  }

  lemma WithdrawingFollows(cfg: Config, s: Storage, c: Call, club: string)
    requires Neat(s.stakes) && c.msg.Withdraw? && Exec(cfg, s, c).Ok?
    ensures var t := Exec(cfg, s, c).value;
            Neat(t.stakes) && MovedWith(s, t, club, FlowsOf(cfg, s, c, club), 0)
  {
    if c.msg.immediate {
      EncashingFollows(s, c, club);
    } else {
      UnstakingFollows(cfg, s, c, club);
    }
  }

  /** A claim leaves the stake ledger as it was. */
  lemma ClaimsChangeNothing(s: Storage, c: Call)
    requires c.msg.ClaimStakerRewards? && ClaimingRewards(s, c).Ok?
    ensures ClaimingRewards(s, c).value == s
  {
    var list := s.StakesOf(c.msg.club, c.msg.staker);
    assert (c.msg.club, c.msg.staker) in s.stakes;
    assert s.stakes[(c.msg.club, c.msg.staker) := list] == s.stakes;
  }

  lemma DepositsFollow(cfg: Config, s: Storage, c: Call, club: string)
    requires Neat(s.stakes) && Exec(cfg, s, c).Ok? && (c.msg.StakeOnAClub? || c.msg.AssignStakes?)
    ensures var t := Exec(cfg, s, c).value;
            Neat(t.stakes) && MovedWith(s, t, club, FlowsOf(cfg, s, c, club), 0)
  {
    match c.msg
    case StakeOnAClub(staker, on, amount, auto) => SaveDeposits(s, c.now, staker, on, amount, auto, club);
    case AssignStakes(list, on) => AssignDeposits(s, c.now, list, on, club);
  }

  lemma TakeOversFollow(cfg: Config, s: Storage, c: Call, club: string)
    requires Neat(s.stakes) && Exec(cfg, s, c).Ok? && TakesOver(c)
    ensures var t := Exec(cfg, s, c).value;
            Neat(t.stakes) && MovedWith(s, t, club, STILL, 0)
  {
    TakeOverEffect(cfg, s, c);
    HandingOverFollows(cfg, s, c.now, c.msg.buyer, c.msg.seller, c.msg.club, c.msg.auto, club);
  }

  lemma QuietMessagesFollow(cfg: Config, s: Storage, c: Call, club: string)
    requires Exec(cfg, s, c).Ok? && (c.msg.ReleaseClub? || c.msg.ClaimStakerRewards? || c.msg.IncreaseReward?)
    ensures var t := Exec(cfg, s, c).value;
            t.stakes == s.stakes && MovedWith(s, t, club, STILL, 0)
  {
    if c.msg.ClaimStakerRewards? {
      ClaimsChangeNothing(s, c);
    }
  }

  lemma StepFollows(cfg: Config, s: Storage, c: Call, club: string)
    requires Neat(s.stakes) && Exec(cfg, s, c).Ok?
    ensures var t := Exec(cfg, s, c).value;
            Neat(t.stakes) && Follows(s, t, club, FlowsOf(cfg, s, c, club))
  {
    if c.msg.Distribute? {
      DistributingFollows(cfg, s, c, club);
    } else if c.msg.Withdraw? {
      WithdrawingFollows(cfg, s, c, club);
    } else if TakesOver(c) {
      TakeOversFollow(cfg, s, c, club);
    } else if c.msg.StakeOnAClub? || c.msg.AssignStakes? {
      DepositsFollow(cfg, s, c, club);
    } else {
      QuietMessagesFollow(cfg, s, c, club);
    }
  }

  // Over every run.

  /** Everything a run moved in a club. */
  function History(cfg: Config, s: Storage, calls: seq<Call>, club: string): Flows {
    if calls == [] then STILL else
      var n := |calls| - 1;
      var before := Run(cfg, s, calls[..n]);
      var h := History(cfg, s, calls[..n], club);
      if Exec(cfg, before, calls[n]).Ok? then h.Plus(FlowsOf(cfg, before, calls[n], club)) else h
  }

  /** The ledger law, for every run from an empty contract: what the stakers of a club hold, staked
      and pending, is what was deposited and given, less what was unstaked and what distributions
      dropped; and their stakes are the club's total and what top-ups compounded, less the dropped
      stakes. Every list has at most one entry, its staker's, with nothing pending if auto-staked. */
  lemma {:induction false} StakeLedger(cfg: Config, nextTime: nat, calls: seq<Call>, club: string)
    ensures var t := Run(cfg, Genesis(nextTime), calls);
            var h := History(cfg, Genesis(nextTime), calls, club);
            && Neat(t.stakes)
            && Staked(t.stakes, club) + Pending(t.stakes, club)
               == h.deposited - h.unstaked + h.given - Amounts(h.lost) - Pendings(h.lost)
            && Staked(t.stakes, club) == TotalOf(t, club) + h.compounded - Amounts(h.lost)
  {
    if calls != [] {
      var n := |calls| - 1;
      var before := Run(cfg, Genesis(nextTime), calls[..n]);
      StakeLedger(cfg, nextTime, calls[..n], club);
      if Exec(cfg, before, calls[n]).Ok? {
        StepFollows(cfg, before, calls[n], club);
        var f := FlowsOf(cfg, before, calls[n], club);
        var added: int :| MovedWith(before, Exec(cfg, before, calls[n]).value, club, f, added);
        HoldingsAppend(History(cfg, Genesis(nextTime), calls[..n], club).lost, f.lost);
      }
    }
  }
}
