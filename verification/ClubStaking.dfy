/** The clubstaking contract as a function of its storage: clubs with owners, stakes on clubs,
    bonds of unstaked tokens, and reward rounds that are paid out in batches. Times are in
    nanoseconds, durations in seconds. */
module ClubStaking {
  import opened Chain
  import KeyOrder

  const MAX_UFURY_COUNT: int := 420_000_000_000_000
  const I128_LIMIT: int := 0x8000_0000_0000_0000_0000_0000_0000_0000
  const SET_AUTO_STAKE := true
  const DONT_CHANGE_AUTO_STAKE := false

  datatype Error =
    | Unauthorized
    | InvalidAddress
    | InsufficientFees
    | BuyerOwnsAClub
    | OwnerHasNotReleased
    | ReleaseExpired
    | SellerIsNotTheOwner
    | ReleaserIsNotTheOwner
    | ClubNotAvailable
    | ClubNamesDoNotMatch
    | NoStakeFound
    | UserHasNotStaked
    | InvalidClub
    | ExcessUnstaking
    | TooManyBonds
    | InsufficientMaturedBonds
    | ExcessWithdrawal
    | RewardTimeNotArrived
    | NoOwnershipDetails
    | ComputationError
    | NotAStaker
    | NoRewards
    | Overflow
    | SubmessageFailed

  /** Fixed at instantiation. */
  datatype Config = Config(
    admin: Addr,
    rewardPeriodicity: nat,
    bondingDuration: nat,
    releaseLocking: nat,
    maxBonds: nat)

  datatype Club = Club(owner: Addr, start: nat, lockingPeriod: nat, released: bool, total: nat)

  datatype Stake = Stake(staker: Addr, start: nat, amount: nat, reward: nat, auto: bool)

  datatype Bond = Bond(bonder: Addr, start: nat, amount: nat, duration: nat) {
    function Second(): nat { start / NANOS }
  }

  datatype Winning = Winning(clubs: nat, totalStake: nat, winningStake: nat, winners: seq<string>)

  /** Club name and staker. */
  type Key = (string, Addr)

  datatype Storage = Storage(
    clubs: map<string, Club>,
    stakes: map<Key, seq<Stake>>,
    bonds: map<Key, seq<Bond>>,
    reward: nat,
    given: nat,
    nextTime: nat,
    snapshot: map<string, nat>,
    winning: Winning)
  {
    function StakesOf(club: string, staker: Addr): seq<Stake> { Get(stakes, (club, staker), []) }

    function BondsOf(club: string, staker: Addr): seq<Bond> { Get(bonds, (club, staker), []) }
  }

  datatype Assigned = Assigned(club: string, staker: Addr, amount: nat, auto: bool)

  datatype Msg =
    | StakeOnAClub(staker: Addr, club: string, amount: nat, auto: bool)
    | AssignStakes(list: seq<Assigned>, club: string)
    | BuyAClub(buyer: Addr, seller: Addr, club: string, auto: bool)
    | AssignAClub(buyer: Addr, seller: Addr, club: string, auto: bool)
    | ReleaseClub(seller: Addr, club: string)
    | Withdraw(staker: Addr, club: string, amount: nat, immediate: bool)
    | Distribute(stakers: seq<Addr>, club: string, isFirst: bool, isFinal: bool)
    | ClaimStakerRewards(staker: Addr, club: string)
    | IncreaseReward(amount: nat)

  /** A message with the block time, whether the fees query accepts the attached coins, and whether
      the token transfers it orders succeed. */
  datatype Call = Call(now: nat, sender: Addr, feesPaid: bool, delivered: bool, msg: Msg)

  type Outcome = Result<Storage, Error>

  function PlusSeconds(time: nat, seconds: nat): Result<nat, Error> {
    if time + seconds * NANOS <= U64_MAX then Ok(time + seconds * NANOS) else Err(Overflow)
  }

  function MinusSeconds(time: nat, seconds: nat): Result<nat, Error> {
    if seconds * NANOS <= time then Ok(time - seconds * NANOS) else Err(Overflow)
  }

  // Stakes.

  predicate HasStake(list: seq<Stake>, staker: Addr) {
    exists i :: 0 <= i < |list| && list[i].staker == staker
  }

  /** A top-up; switching auto-stake on also stakes the pending reward. */
  function ToppedUp(k: Stake, amount: nat, auto: bool): Result<Stake, Error> {
    if !Fits(k.amount + amount) then Err(Overflow) else
    :- Require(auto != SET_AUTO_STAKE || Fits(k.amount + amount + k.reward), Overflow);
    Ok(if auto == SET_AUTO_STAKE then k.(amount := k.amount + amount + k.reward, reward := 0, auto := auto)
       else k.(amount := k.amount + amount, auto := auto))
  }

  function Lowered(k: Stake, amount: nat): Result<Stake, Error> {
    if k.amount >= amount then Ok(k.(amount := k.amount - amount)) else Err(ExcessWithdrawal)
  }

  function UpdatedStake(k: Stake, staker: Addr, amount: nat, auto: bool, increase: bool): Result<Stake, Error> {
    if k.staker != staker then Ok(k) else if increase then ToppedUp(k, amount, auto) else Lowered(k, amount)
  }

  function UpdatedStakes(list: seq<Stake>, staker: Addr, amount: nat, auto: bool, increase: bool)
    : Result<seq<Stake>, Error>
  {
    if list == [] then Ok([]) else
      var n := |list| - 1;
      var earlier :- UpdatedStakes(list[..n], staker, amount, auto, increase);
      var last :- UpdatedStake(list[n], staker, amount, auto, increase);
      Ok(earlier + [last])
  }

  /** The new total of a club; it follows the amount, not the compounded reward. */
  function NewTotal(total: nat, amount: nat, increase: bool): Result<nat, Error> {
    if increase then (if Fits(total + amount) then Ok(total + amount) else Err(Overflow))
    else (if amount <= total then Ok(total - amount) else Err(Overflow))
  }

  function SaveStaking(s: Storage, now: nat, staker: Addr, club: string, amount: nat, auto: bool, increase: bool)
    : Outcome
  {
    var list := s.StakesOf(club, staker);
    var updated :- UpdatedStakes(list, staker, amount, auto, increase);
    var stakes := if HasStake(list, staker) then s.stakes[(club, staker) := updated]
                  else if increase then s.stakes[(club, staker) := list + [Stake(staker, now, amount, 0, auto)]]
                  else s.stakes;
    :- Require(club in s.clubs, NoOwnershipDetails);
    var total :- NewTotal(s.clubs[club].total, amount, increase);
    Ok(s.(stakes := stakes, clubs := s.clubs[club := s.clubs[club].(total := total)]))
  }

  function SaveBonding(cfg: Config, s: Storage, now: nat, bonder: Addr, club: string, amount: nat): Storage {
    s.(bonds := s.bonds[(club, bonder) := s.BondsOf(club, bonder) + [Bond(bonder, now, amount, cfg.bondingDuration)]])
  }

  function Staking(s: Storage, c: Call): Outcome
    requires c.msg.StakeOnAClub?
  {
    var m := c.msg;
    :- Require(c.sender == m.staker, Unauthorized);
    :- Require(c.feesPaid, InsufficientFees);
    :- Require(m.club in s.clubs, ClubNotAvailable);
    var saved :- SaveStaking(s, c.now, m.staker, m.club, m.amount, m.auto, true);
    :- Require(c.delivered, SubmessageFailed);
    Ok(saved)
  }

  function AssignAll(s: Storage, now: nat, list: seq<Assigned>, club: string): Outcome {
    if list == [] then Ok(s) else
      var n := |list| - 1;
      var before :- AssignAll(s, now, list[..n], club);
      SaveStaking(before, now, list[n].staker, club, list[n].amount, list[n].auto, true)
  }

  predicate AllFor(list: seq<Assigned>, club: string) {
    forall i :: 0 <= i < |list| ==> list[i].club == club
  }

  function Assigning(cfg: Config, s: Storage, c: Call): Outcome
    requires c.msg.AssignStakes?
  {
    var m := c.msg;
    :- Require(c.sender == cfg.admin, Unauthorized);
    :- Require(AllFor(m.list, m.club), ClubNamesDoNotMatch);
    :- Require(m.club in s.clubs, ClubNotAvailable);
    var saved :- AssignAll(s, c.now, m.list, m.club);
    :- Require(c.delivered, SubmessageFailed);
    Ok(saved)
  }

  // Owners.

  predicate OwnsAClub(s: Storage, a: Addr) {
    exists club :: club in s.clubs && s.clubs[club].owner == a
  }

  /** Whether a club that exists may change hands now. */
  function MayChangeHands(club: Club, now: nat, seller: Addr): Result<(), Error> {
    if !club.released then Err(OwnerHasNotReleased) else
    var until :- PlusSeconds(club.start, club.lockingPeriod);
    :- Require(now <= until, ReleaseExpired);
    :- Require(club.owner == "" || club.owner == seller, SellerIsNotTheOwner);
    Ok(())
  }

  /** The part that buying and assigning a club share. */
  function HandOver(cfg: Config, s: Storage, now: nat, buyer: Addr, seller: Addr, club: string, auto: bool): Outcome {
    if buyer == "" then Err(InvalidAddress) else
    :- Require(!OwnsAClub(s, buyer), BuyerOwnsAClub);
    var _ :- if club in s.clubs then MayChangeHands(s.clubs[club], now, seller) else Ok(());
    var total := if club in s.clubs then s.clubs[club].total else 0;
    var owned := s.(clubs := s.clubs[club := Club(buyer, now, cfg.releaseLocking, false, total)]);
    if HasStake(s.StakesOf(club, buyer), buyer) then Ok(owned)
    else SaveStaking(owned, now, buyer, club, 0, auto, true)
  }

  function Buying(cfg: Config, s: Storage, c: Call): Outcome
    requires c.msg.BuyAClub?
  {
    var m := c.msg;
    :- Require(c.sender == m.buyer, Unauthorized);
    :- Require(c.feesPaid, InsufficientFees);
    var saved :- HandOver(cfg, s, c.now, m.buyer, m.seller, m.club, m.auto);
    :- Require(c.delivered, SubmessageFailed);
    Ok(saved)
  }

  function AssigningClub(cfg: Config, s: Storage, c: Call): Outcome
    requires c.msg.AssignAClub?
  {
    var m := c.msg;
    :- Require(c.sender == cfg.admin, Unauthorized);
    HandOver(cfg, s, c.now, m.buyer, m.seller, m.club, m.auto)
  }

  function Releasing(s: Storage, c: Call): Outcome
    requires c.msg.ReleaseClub?
  {
    var m := c.msg;
    :- Require(m.seller == c.sender, Unauthorized);
    :- Require(m.club in s.clubs && s.clubs[m.club].owner == m.seller, ReleaserIsNotTheOwner);
    Ok(s.(clubs := s.clubs[m.club := s.clubs[m.club].(start := c.now, released := true)]))
  }

  // Bonds.

  /** Where a stable sort by second, newest first, puts one more bond. */
  function Insert(sorted: seq<Bond>, b: Bond): seq<Bond> {
    if sorted != [] && sorted[|sorted| - 1].Second() < b.Second()
    then Insert(sorted[..|sorted| - 1], b) + [sorted[|sorted| - 1]]
    else sorted + [b]
  }

  /** `sort_by` with the seconds compared in reverse. */
  function NewestFirst(bonds: seq<Bond>): seq<Bond> {
    if bonds == [] then [] else Insert(NewestFirst(bonds[..|bonds| - 1]), bonds[|bonds| - 1])
  }

  /** What the withdrawal loop has kept, and how much it still has to find. */
  datatype Drained = Drained(kept: seq<Bond>, remaining: nat)

  function DrainStep(d: Drained, b: Bond, staker: Addr, now: nat): Result<Drained, Error> {
    if b.bonder != staker then Ok(d.(kept := d.kept + [b])) else
      var cut :- MinusSeconds(now, b.duration);
      if b.start >= cut || d.remaining == 0 then Ok(d.(kept := d.kept + [b]))
      else if b.amount > d.remaining then Ok(Drained(d.kept + [b.(amount := b.amount - d.remaining)], 0))
      else Ok(d.(remaining := d.remaining - b.amount))
  }

  function Drain(bonds: seq<Bond>, staker: Addr, now: nat, amount: nat): Result<Drained, Error> {
    if bonds == [] then Ok(Drained([], amount)) else
      var before :- Drain(bonds[..|bonds| - 1], staker, now, amount);
      DrainStep(before, bonds[|bonds| - 1], staker, now)
  }

  /** Taking matured bonds out at once. */
  function Encashing(s: Storage, c: Call): Outcome
    requires c.msg.Withdraw?
  {
    var m := c.msg;
    var drained :- Drain(NewestFirst(s.BondsOf(m.club, m.staker)), m.staker, c.now, m.amount);
    var bonded := s.(bonds := s.bonds[(m.club, m.staker) := drained.kept]);
    var saved :- SaveStaking(bonded, c.now, m.staker, m.club, drained.remaining, DONT_CHANGE_AUTO_STAKE, false);
    :- Require(drained.remaining == 0, InsufficientMaturedBonds);
    :- Require(c.delivered, SubmessageFailed);
    Ok(saved)
  }

  /** Moving stake into a new bond. */
  function Unstaking(cfg: Config, s: Storage, c: Call): Outcome
    requires c.msg.Withdraw?
  {
    var m := c.msg;
    var list := s.StakesOf(m.club, m.staker);
    :- Require(forall i :: 0 <= i < |list| && list[i].staker == m.staker ==> m.amount <= list[i].amount,
               ExcessUnstaking);
    :- Require(|s.BondsOf(m.club, m.staker)| < cfg.maxBonds, TooManyBonds);
    var saved :- SaveStaking(s, c.now, m.staker, m.club, m.amount, DONT_CHANGE_AUTO_STAKE, false);
    :- Require(c.delivered, SubmessageFailed);
    Ok(SaveBonding(cfg, saved, c.now, m.staker, m.club, m.amount))
  }

  function Withdrawing(cfg: Config, s: Storage, c: Call): Outcome
    requires c.msg.Withdraw?
  {
    var m := c.msg;
    :- Require(m.staker == c.sender, Unauthorized);
    :- Require(c.feesPaid, InsufficientFees);
    :- Require((m.club, m.staker) in s.stakes, NoStakeFound);
    :- Require(HasStake(s.StakesOf(m.club, m.staker), m.staker), UserHasNotStaked);
    :- Require(m.club in s.clubs, InvalidClub);
    if m.immediate then Encashing(s, c) else Unstaking(cfg, s, c)
  }

  // Winners.

  datatype Entry = Entry(club: string, stake: nat, previous: nat) {
    function Increase(): int { AsI128(stake) - AsI128(previous) }
  }

  function AsI128(n: nat): int {
    if n < I128_LIMIT then n else n - (U128_MAX + 1)
  }

  predicate IncreaseFits(e: Entry) { -I128_LIMIT <= e.Increase() < I128_LIMIT }

  function EntryOf(s: Storage, club: string): Entry
    requires club in s.clubs
  {
    Entry(club, s.clubs[club].total, Get(s.snapshot, club, 0))
  }

  function ClubKeys(s: Storage): (keys: seq<string>)
    ensures forall k :: k in keys <==> k in s.clubs
  {
    KeyOrder.Ascending(s.clubs.Keys)
  }

  /** All clubs in key order with their stake now and at the previous snapshot. */
  function Entries(s: Storage, keys: seq<string>): (es: seq<Entry>)
    requires forall k :: k in keys ==> k in s.clubs
    ensures |es| == |keys|
  {
    seq(|keys|, i requires 0 <= i < |keys| => EntryOf(s, keys[i]))
  }

  function TotalStake(es: seq<Entry>): nat {
    if es == [] then 0 else TotalStake(es[..|es| - 1]) + es[|es| - 1].stake
  }

  /** What the one-pass winner loop carries along. */
  datatype Scan = Scan(increase: int, topStake: nat, winners: seq<string>)

  const SCAN_START := Scan(-MAX_UFURY_COUNT, 0, [])

  function ScanStep(sc: Scan, e: Entry): Scan {
    if e.Increase() > sc.increase then Scan(e.Increase(), e.stake, [e.club])
    else if e.Increase() == sc.increase && e.stake >= sc.topStake then
      Scan(sc.increase, e.stake, sc.winners + [e.club])
    else sc
  }

  function ScanAll(es: seq<Entry>): Scan {
    if es == [] then SCAN_START else ScanStep(ScanAll(es[..|es| - 1]), es[|es| - 1])
  }

  /** The stored snapshot after the walk: current stakes for the walked clubs. */
  function Snapped(snapshot: map<string, nat>, es: seq<Entry>): map<string, nat> {
    if es == [] then snapshot else Snapped(snapshot, es[..|es| - 1])[es[|es| - 1].club := es[|es| - 1].stake]
  }

  function FindWinners(s: Storage): Outcome {
    var es := Entries(s, ClubKeys(s));
    :- Require(Fits(TotalStake(es)) && forall i :: 0 <= i < |es| ==> IncreaseFits(es[i]), Overflow);
    var sc := ScanAll(es);
    Ok(s.(snapshot := Snapped(s.snapshot, es),
          winning := Winning(|es|, TotalStake(es), sc.topStake, sc.winners)))
  }

  // Rewards.

  /** What one batch pays by: the pots, what they are shared over, and the owner's part. */
  datatype Shares = Shares(
    pot: nat,
    total: nat,
    winnerPot: nat,
    winnerTotal: nat,
    isWinner: bool,
    owner: Addr,
    ownerReward: nat,
    now: nat,
    newStart: Option<nat>)
  {
    function PotPart(amount: nat): nat { DivOrZero(MulOrZero(pot, amount), total) }

    function WinnerPart(amount: nat): nat {
      if isWinner then DivOrZero(MulOrZero(winnerPot, amount), winnerTotal) else 0
    }

    function OwnerPart(staker: Addr): nat {
      if staker == owner then ownerReward else 0
    }

    function Pay(k: Stake): nat { PotPart(k.amount) + WinnerPart(k.amount) + OwnerPart(k.staker) }
  }

  /** A percentage of the reward, split over a number of clubs. */
  function Percent(reward: nat, percent: nat, clubs: nat): nat {
    DivOrZero(Floor(MulOrZero(reward, percent), 100), clubs)
  }

  function OwnerReward(reward: nat, isWinner: bool, winners: nat, others: nat): nat {
    if isWinner && others > 0 then Percent(reward, 1, winners)
    else if isWinner then Percent(reward, 3, winners)
    else Percent(reward, 2, others)
  }

  /** When a stake that is paid now starts next, if that can be said in 64 bits. */
  function NewStart(cfg: Config, saved: nat, now: nat): Option<nat> {
    var moved := PlusSeconds(saved, cfg.rewardPeriodicity);
    if saved >= now then Some(saved) else if moved.Ok? then Some(moved.value) else None
  }

  function SharesFor(cfg: Config, s: Storage, now: nat, saved: nat, club: string): Result<Shares, Error> {
    var w := s.winning;
    var isWinner := club in w.winners;
    :- Require(club in s.clubs, NoOwnershipDetails);
    :- Require(|w.winners| <= w.clubs, Overflow);
    var others := w.clubs - |w.winners|;
    :- Require(isWinner || others > 0, ComputationError);
    Ok(Shares(
      pot := Percent(s.reward, 78, 1),
      total := w.totalStake,
      winnerPot := if isWinner then Percent(s.reward, 19, |w.winners|) else 0,
      winnerTotal := w.winningStake,
      isWinner := isWinner,
      owner := s.clubs[club].owner,
      ownerReward := OwnerReward(s.reward, isWinner, |w.winners|, others),
      now := now,
      newStart := NewStart(cfg, saved, now)))
  }

  /** A due stake after its reward: compounded when it is auto-staked, else pending. */
  function Rewarded(sh: Shares, k: Stake): Result<Stake, Error> {
    var pay := sh.Pay(k);
    :- Require(Fits(pay) && sh.newStart.Some?, Overflow);
    :- Require(Fits(if k.auto then k.amount + pay + k.reward else k.reward + pay), Overflow);
    Ok(if k.auto == SET_AUTO_STAKE then k.(start := sh.newStart.value, amount := k.amount + pay + k.reward, reward := 0)
       else k.(start := sh.newStart.value, reward := k.reward + pay))
  }

  /** A list after its rewards, what was given, and what was added to stakes. A stake that is not
      due is left out. */
  datatype Batch = Batch(list: seq<Stake>, given: nat, added: nat)

  function RewardStep(sh: Shares, b: Batch, k: Stake): Result<Batch, Error> {
    if k.start > sh.now then Ok(b) else
      var paid :- Rewarded(sh, k);
      var added := if k.auto then sh.Pay(k) else 0;
      :- Require(Fits(b.given + sh.Pay(k)) && (k.auto ==> Fits(b.added + added)), Overflow);
      Ok(Batch(b.list + [paid], b.given + sh.Pay(k), b.added + added))
  }

  function RewardList(sh: Shares, list: seq<Stake>, given: nat, added: nat): Result<Batch, Error> {
    if list == [] then Ok(Batch([], given, added)) else
      var before :- RewardList(sh, list[..|list| - 1], given, added);
      RewardStep(sh, before, list[|list| - 1])
  }

  /** The stakes after some stakers of the batch, and the running totals. */
  datatype Progress = Progress(stakes: map<Key, seq<Stake>>, given: nat, added: nat)

  function RewardStakers(sh: Shares, stakes: map<Key, seq<Stake>>, club: string, stakers: seq<Addr>)
    : Result<Progress, Error>
  {
    if stakers == [] then Ok(Progress(stakes, 0, 0)) else
      var before :- RewardStakers(sh, stakes, club, stakers[..|stakers| - 1]);
      var key := (club, stakers[|stakers| - 1]);
      var b :- RewardList(sh, Get(before.stakes, key, []), before.given, before.added);
      Ok(Progress(before.stakes[key := b.list], b.given, b.added))
  }

  /** Paying a batch, once the winners are known. */
  function PayBatch(cfg: Config, s: Storage, now: nat, saved: nat, stakers: seq<Addr>, club: string, isFinal: bool)
    : Outcome
  {
    var sh :- SharesFor(cfg, s, now, saved, club);
    var p :- RewardStakers(sh, s.stakes, club, stakers);
    :- Require(Fits(s.clubs[club].total + p.added) && Fits(s.given + p.given), Overflow);
    var given := s.given + p.given;
    Ok(s.(stakes := p.stakes,
          clubs := s.clubs[club := s.clubs[club].(total := s.clubs[club].total + p.added)],
          given := given,
          reward := if !isFinal then s.reward else if s.reward > given then s.reward - given else 0))
  }

  function NextTime(cfg: Config, s: Storage, now: nat, isFinal: bool): Result<nat, Error> {
    if isFinal && s.nextTime < now then PlusSeconds(s.nextTime, cfg.rewardPeriodicity) else Ok(s.nextTime)
  }

  function Distributing(cfg: Config, s: Storage, c: Call): Outcome
    requires c.msg.Distribute?
  {
    var m := c.msg;
    :- Require(c.sender == cfg.admin, Unauthorized);
    :- Require(c.now >= s.nextTime, RewardTimeNotArrived);
    var next :- NextTime(cfg, s, c.now, m.isFinal);
    var timed := s.(nextTime := next);
    if s.reward == 0 then Ok(timed) else
      var known :- if m.isFirst then FindWinners(timed) else Ok(timed);
      PayBatch(cfg, known, c.now, s.nextTime, m.stakers, m.club, m.isFinal)
  }

  // Messages.

  function PendingOf(list: seq<Stake>, staker: Addr): nat {
    if list == [] then 0 else
      PendingOf(list[..|list| - 1], staker) +
      (if list[|list| - 1].staker == staker then list[|list| - 1].reward else 0)
  }

  /** The claim writes back the list it has read: it pays, and the ledger stays as it was. */
  function ClaimingRewards(s: Storage, c: Call): Outcome
    requires c.msg.ClaimStakerRewards?
  {
    var m := c.msg;
    :- Require(m.staker == c.sender, Unauthorized);
    :- Require(c.feesPaid, InsufficientFees);
    var list := s.StakesOf(m.club, m.staker);
    :- Require(Fits(PendingOf(list, m.staker)), Overflow);
    :- Require(HasStake(list, m.staker), NotAStaker);
    :- Require(PendingOf(list, m.staker) != 0, NoRewards);
    :- Require(c.delivered, SubmessageFailed);
    Ok(s.(stakes := s.stakes[(m.club, m.staker) := list]))
  }

  function Increasing(cfg: Config, s: Storage, c: Call): Outcome
    requires c.msg.IncreaseReward?
  {
    if c.sender != cfg.admin then Err(Unauthorized) else
    :- Require(Fits(s.reward + c.msg.amount), Overflow);
    Ok(s.(reward := s.reward + c.msg.amount, given := 0))
  }

  function Exec(cfg: Config, s: Storage, c: Call): Outcome {
    match c.msg
    case StakeOnAClub(_, _, _, _) => Staking(s, c)
    case AssignStakes(_, _) => Assigning(cfg, s, c)
    case BuyAClub(_, _, _, _) => Buying(cfg, s, c)
    case AssignAClub(_, _, _, _) => AssigningClub(cfg, s, c)
    case ReleaseClub(_, _) => Releasing(s, c)
    case Withdraw(_, _, _, _) => Withdrawing(cfg, s, c)
    case Distribute(_, _, _, _) => Distributing(cfg, s, c)
    case ClaimStakerRewards(_, _) => ClaimingRewards(s, c)
    case IncreaseReward(_) => Increasing(cfg, s, c)
  }

  function Run(cfg: Config, s: Storage, calls: seq<Call>): Storage {
    if calls == [] then s else
      var before := Run(cfg, s, calls[..|calls| - 1]);
      var r := Exec(cfg, before, calls[|calls| - 1]);
      if r.Ok? then r.value else before
  }

  function Genesis(nextTime: nat): Storage {
    Storage(map[], map[], map[], 0, 0, nextTime, map[], Winning(0, 0, 0, []))
  }
}
