/** The gamingpool contract: one game with pools that gamers enter with teams while it is open;
    rewards are then written into the teams in batches, and rewards and refunds are claimed. */
module GamingPool {
  import opened Chain
  import KeyOrder

  const HUNDRED_PERCENT: nat := 10000
  const NINETY_NINE_NINE_PERCENT: nat := 9990

  datatype Error =
    | UnauthorizedInvoker
    | PoolTypeAlreadySet
    | GameOver
    | GameCancelled
    | GameNotOpen
    | GameNotStarted
    | NoPool
    | NoPoolType
    | RewardsAlreadyDistributed
    | InsufficientFees
    | AmountTooLow
    | GamerTeamLimit
    | PoolTeamLimit
    | NoReward
    | NoRefund
    | RefundAlreadyClaimed
    | Overflow
    | SubmessageFailed

  datatype Status = Open | Closed | Cancelled | Completed

  datatype Config = Config(admin: Addr, gameId: string, platformFee: nat, transactionFee: nat)

  datatype PoolType = PoolType(fee: nat, minTeams: nat, maxTeams: nat, maxTeamsPerGamer: nat)

  datatype Pool = Pool(poolType: string, teamsCount: nat, distributed: bool, refundStatus: bool, rewardStatus: bool)

  datatype Team = Team(
    gamer: Addr,
    teamId: string,
    gameId: string,
    reward: nat,
    claimedReward: bool,
    refund: nat,
    claimedRefund: bool)

  datatype Winner = Winner(gamer: Addr, teamId: string, amount: nat)

  datatype Lobby = Lobby(
    status: Status,
    types: map<string, PoolType>,
    pools: map<string, Pool>,
    poolCount: nat,
    teams: map<(string, Addr), seq<Team>>)
  {
    function TeamsOf(pool: string, gamer: Addr): seq<Team> { Get(teams, (pool, gamer), []) }
  }

  datatype Msg =
    | SetPoolType(name: string, details: PoolType)
    | CancelGame
    | LockGame
    | CreatePool(poolType: string)
    | Bid(gamer: Addr, poolType: string, poolId: string, teamId: string, amount: nat)
    | Distribute(poolId: string, winners: seq<Winner>, isFinal: bool)
    | ClaimReward(gamer: Addr)
    | ClaimRefund(gamer: Addr)

  /** A message with what the contract learns from outside: whether the attached coins cover the
      fees, the pool fee converted by the swap contract's price, whether the running total of a
      pool's rewards takes an addition (its map shares a storage prefix with the exchange rates), and
      whether the messages it sends succeed. */
  datatype Call = Call(sender: Addr, feesPaid: bool, convertedFee: nat, totalFits: bool, delivered: bool, msg: Msg)

  type Outcome = Result<Lobby, Error>

  // Entering.

  function TypeSet(cfg: Config, l: Lobby, c: Call): Outcome
    requires c.msg.SetPoolType?
  {
    if c.sender != cfg.admin then Err(UnauthorizedInvoker) else
    :- Require(c.msg.name !in l.types, PoolTypeAlreadySet);
    Ok(l.(types := l.types[c.msg.name := c.msg.details]))
  }

  predicate TypesKnown(l: Lobby) {
    forall id :: id in l.pools ==> l.pools[id].poolType in l.types
  }

  predicate TypesKnownIn(l: Lobby, ids: seq<string>) {
    forall id :: id in ids && id in l.pools ==> l.pools[id].poolType in l.types
  }

  predicate ToFlag(l: Lobby, id: string, onlyUnderfilled: bool)
    requires id in l.pools
  {
    && l.pools[id].poolType in l.types
    && (onlyUnderfilled ==> l.pools[id].teamsCount < l.types[l.pools[id].poolType].minTeams)
  }

  /** The pools after the walk over `done` that flags them for refund: all of them when the game
      is cancelled, the underfilled ones when it is locked. */
  function Flagged(l: Lobby, done: seq<string>, onlyUnderfilled: bool): map<string, Pool> {
    map id | id in l.pools ::
      if id in done && ToFlag(l, id, onlyUnderfilled) then l.pools[id].(refundStatus := true) else l.pools[id]
  }

  function Cancelling(cfg: Config, l: Lobby, c: Call): Outcome {
    if c.sender != cfg.admin then Err(UnauthorizedInvoker) else
    :- Require(l.status != Completed, GameOver);
    :- Require(l.status != Cancelled, GameCancelled);
    :- Require(TypesKnown(l), NoPoolType);
    Ok(l.(status := Cancelled, pools := Flagged(l, PoolKeys(l), false)))
  }

  function Locking(cfg: Config, l: Lobby, c: Call): Outcome {
    if c.sender != cfg.admin then Err(UnauthorizedInvoker) else
    :- Require(l.status == Open, GameNotOpen);
    :- Require(TypesKnown(l), NoPoolType);
    Ok(l.(status := Closed, pools := Flagged(l, PoolKeys(l), true)))
  }

  function Creating(cfg: Config, l: Lobby, c: Call): Outcome
    requires c.msg.CreatePool?
  {
    if c.sender != cfg.admin then Err(UnauthorizedInvoker) else
    :- Require(l.status == Open, GameNotOpen);
    :- Require(Fits(l.poolCount + 1), Overflow);
    var id := KeyOrder.Decimal(l.poolCount + 1);
    Ok(l.(poolCount := l.poolCount + 1, pools := l.pools[id := Pool(c.msg.poolType, 0, false, false, false)]))
  }

  /** How many of the teams are the gamer's own. */
  function CountOf(teams: seq<Team>, gamer: Addr): nat {
    if teams == [] then 0 else
      CountOf(teams[..|teams| - 1], gamer) + (if teams[|teams| - 1].gamer == gamer then 1 else 0)
  }

  function Bidding(cfg: Config, l: Lobby, c: Call): Outcome
    requires c.msg.Bid?
  {
    var m := c.msg;
    :- Require(m.gamer == c.sender, UnauthorizedInvoker);
    :- Require(l.status == Open, GameNotOpen);
    :- Require(m.poolType in l.types, NoPoolType);
    :- Require(c.feesPaid, InsufficientFees);
    :- Require(Fits(c.convertedFee * NINETY_NINE_NINE_PERCENT), Overflow);
    :- Require(m.amount >= c.convertedFee * NINETY_NINE_NINE_PERCENT / HUNDRED_PERCENT, AmountTooLow);
    var kind := l.types[m.poolType];
    :- Require(CountOf(l.TeamsOf(m.poolId, m.gamer), m.gamer) < kind.maxTeamsPerGamer, GamerTeamLimit);
    :- Require(m.poolId in l.pools, NoPool);
    var pool := l.pools[m.poolId];
    :- Require(pool.teamsCount < kind.maxTeams, PoolTeamLimit);
    :- Require(c.delivered, SubmessageFailed);
    var team := Team(m.gamer, m.teamId, cfg.gameId, 0, false, 0, false);
    Ok(l.(pools := l.pools[m.poolId := Pool(m.poolType, pool.teamsCount + 1, pool.distributed, false, false)],
          teams := l.teams[(m.poolId, m.gamer) := l.TeamsOf(m.poolId, m.gamer) + [team]]))
  }

  // Distributing.

  predicate Matches(cfg: Config, t: Team, w: Winner) {
    t.gamer == w.gamer && t.teamId == w.teamId && t.gameId == cfg.gameId
  }

  /** The team after the inner loop: every matching entry overwrites the reward. */
  function Awarded(cfg: Config, t: Team, winners: seq<Winner>): Team {
    if winners == [] then t else
      var n := |winners| - 1;
      var earlier := Awarded(cfg, t, winners[..n]);
      if Matches(cfg, t, winners[n]) then earlier.(reward := winners[n].amount) else earlier
  }

  function AwardedList(cfg: Config, teams: seq<Team>, winners: seq<Winner>): (r: seq<Team>) {
    seq(|teams|, i requires 0 <= i < |teams| => Awarded(cfg, teams[i], winners))
  }

  predicate Mentions(winners: seq<Winner>, gamer: Addr) {
    exists i :: 0 <= i < |winners| && winners[i].gamer == gamer
  }

  /** One pass over the pool: each list of a gamer that `visited` mentions gets its awards. */
  function AwardPass(cfg: Config, teams: map<(string, Addr), seq<Team>>, pool: string,
                     winners: seq<Winner>, visited: seq<Winner>): map<(string, Addr), seq<Team>> {
    map k | k in teams ::
      if k.0 == pool && Mentions(visited, k.1) then AwardedList(cfg, teams[k], winners) else teams[k]
  }

  /** What a batch lists, and what its loops add up: every match of a visited list counts. */
  function Listed(winners: seq<Winner>): nat {
    if winners == [] then 0 else Listed(winners[..|winners| - 1]) + winners[|winners| - 1].amount
  }

  function Matched(cfg: Config, t: Team, winners: seq<Winner>): nat {
    if winners == [] then 0 else
      var n := |winners| - 1;
      Matched(cfg, t, winners[..n]) + (if Matches(cfg, t, winners[n]) then winners[n].amount else 0)
  }

  function MatchedIn(cfg: Config, teams: seq<Team>, winners: seq<Winner>): nat {
    if teams == [] then 0 else
      MatchedIn(cfg, teams[..|teams| - 1], winners) + Matched(cfg, teams[|teams| - 1], winners)
  }

  function GivenByPass(cfg: Config, teams: map<(string, Addr), seq<Team>>, pool: string,
                       winners: seq<Winner>, visited: seq<Winner>): nat {
    if visited == [] then 0 else
      var n := |visited| - 1;
      GivenByPass(cfg, teams, pool, winners, visited[..n]) +
      MatchedIn(cfg, Get(teams, (pool, visited[n].gamer), []), winners)
  }

  /** `query_platform_fees`: both percentages of an amount. */
  function FeesOf(cfg: Config, amount: nat): Result<nat, Error> {
    if !Fits(amount * cfg.platformFee) || !Fits(amount * cfg.transactionFee) then Err(Overflow) else
    var fee := Floor(amount * cfg.platformFee, HUNDRED_PERCENT) + Floor(amount * cfg.transactionFee, HUNDRED_PERCENT);
    :- Require(Fits(fee), Overflow);
    Ok(fee)
  }

  function Distributing(cfg: Config, l: Lobby, c: Call): Outcome
    requires c.msg.Distribute?
  {
    var m := c.msg;
    :- Require(c.sender == cfg.admin, UnauthorizedInvoker);
    :- Require(l.status != Cancelled, GameCancelled);
    :- Require(l.status != Open, GameNotStarted);
    :- Require(m.poolId in l.pools, NoPool);
    var pool := l.pools[m.poolId];
    :- Require(!pool.distributed, RewardsAlreadyDistributed);
    :- Require(pool.poolType in l.types, NoPoolType);
    var _ :- FeesOf(cfg, l.types[pool.poolType].fee);
    :- Require(Fits(Listed(m.winners)) && Fits(GivenByPass(cfg, l.teams, m.poolId, m.winners, m.winners)), Overflow);
    :- Require(c.totalFits, Overflow);
    :- Require(c.delivered, SubmessageFailed);
    Ok(l.(status := if m.isFinal then Completed else Closed,
          pools := l.pools[m.poolId := Pool(pool.poolType, pool.teamsCount, m.isFinal, false, true)],
          teams := AwardPass(cfg, l.teams, m.poolId, m.winners, m.winners)))
  }

  // Claiming.

  /** Rewards of a list that are still to be claimed. */
  function Unclaimed(teams: seq<Team>): nat {
    if teams == [] then 0 else
      Unclaimed(teams[..|teams| - 1]) +
      (if teams[|teams| - 1].claimedReward then 0 else teams[|teams| - 1].reward)
  }

  function RewardMarked(teams: seq<Team>): (r: seq<Team>) {
    seq(|teams|, i requires 0 <= i < |teams| => teams[i].(claimedReward := true))
  }

  function RefundMarked(teams: seq<Team>, fee: nat): (r: seq<Team>) {
    seq(|teams|, i requires 0 <= i < |teams| => teams[i].(refund := fee, claimedRefund := true))
  }

  function RewardIn(l: Lobby, id: string, gamer: Addr): nat {
    if id in l.pools && l.pools[id].rewardStatus then Unclaimed(l.TeamsOf(id, gamer)) else 0
  }

  /** What a gamer collects in the pools `keys`. */
  function RewardDue(l: Lobby, keys: seq<string>, gamer: Addr): nat {
    if keys == [] then 0 else RewardDue(l, keys[..|keys| - 1], gamer) + RewardIn(l, keys[|keys| - 1], gamer)
  }

  function RewardSweep(l: Lobby, done: seq<string>, gamer: Addr): map<(string, Addr), seq<Team>> {
    map k | k in l.teams ::
      if k.1 == gamer && k.0 in done && k.0 in l.pools && l.pools[k.0].rewardStatus
      then RewardMarked(l.teams[k]) else l.teams[k]
  }

  /** The team lists after the reward loop has handled one pool. */
  function Collected(l: Lobby, id: string, gamer: Addr): map<(string, Addr), seq<Team>> {
    if id in l.pools && l.pools[id].rewardStatus && l.TeamsOf(id, gamer) != []
    then l.teams[(id, gamer) := RewardMarked(l.TeamsOf(id, gamer))] else l.teams
  }

  function PoolKeys(l: Lobby): seq<string> { KeyOrder.Ascending(l.pools.Keys) }

  /** The amount a reward claim pays, and the storage it leaves. */
  function Rewarding(cfg: Config, l: Lobby, c: Call): Result<(nat, Lobby), Error>
    requires c.msg.ClaimReward?
  {
    var gamer := c.msg.gamer;
    :- Require(gamer == c.sender, UnauthorizedInvoker);
    var due := RewardDue(l, PoolKeys(l), gamer);
    :- Require(Fits(due), Overflow);
    :- Require(due != 0, NoReward);
    :- Require(c.feesPaid, InsufficientFees);
    :- Require(c.delivered, SubmessageFailed);
    Ok((due, l.(teams := RewardSweep(l, PoolKeys(l), gamer))))
  }

  predicate AnyRefunded(teams: seq<Team>) {
    exists i :: 0 <= i < |teams| && teams[i].claimedRefund
  }

  function RefundFee(l: Lobby, pool: string): nat
    requires pool in l.pools
  {
    Get(l.types, l.pools[pool].poolType, PoolType(0, 0, 0, 0)).fee
  }

  /** The refund of a gamer in one pool: a pool fee for every team, and an error if one of them
      has been refunded before. */
  function RefundIn(l: Lobby, id: string, gamer: Addr): Result<nat, Error> {
    if id !in l.pools || !l.pools[id].refundStatus then Ok(0) else
      :- Require(l.pools[id].poolType in l.types, NoPoolType);
      :- Require(!AnyRefunded(l.TeamsOf(id, gamer)), RefundAlreadyClaimed);
      Ok(|l.TeamsOf(id, gamer)| * RefundFee(l, id))
  }

  /** The refunds of a gamer in the pools `keys`, or the first error on the way. */
  function RefundDue(l: Lobby, keys: seq<string>, gamer: Addr): Result<nat, Error> {
    if keys == [] then Ok(0) else
      var n := |keys| - 1;
      var earlier :- RefundDue(l, keys[..n], gamer);
      var here :- RefundIn(l, keys[n], gamer);
      Ok(earlier + here)
  }

  function RefundSweep(l: Lobby, done: seq<string>, gamer: Addr): map<(string, Addr), seq<Team>> {
    map k | k in l.teams ::
      if k.1 == gamer && k.0 in done && k.0 in l.pools && l.pools[k.0].refundStatus
      then RefundMarked(l.teams[k], RefundFee(l, k.0)) else l.teams[k]
  }

  /** The team lists after the refund loop has handled one pool. */
  function Refunded(l: Lobby, id: string, gamer: Addr): map<(string, Addr), seq<Team>> {
    if id in l.pools && l.pools[id].refundStatus && l.TeamsOf(id, gamer) != []
    then l.teams[(id, gamer) := RefundMarked(l.TeamsOf(id, gamer), RefundFee(l, id))] else l.teams
  }

  /** The amount a refund claim settles, the coins it sends to the gamer, and the storage it leaves. */
  function Refunding(cfg: Config, l: Lobby, c: Call): Result<(nat, nat, Lobby), Error>
    requires c.msg.ClaimRefund?
  {
    var gamer := c.msg.gamer;
    :- Require(gamer == c.sender, UnauthorizedInvoker);
    var due :- RefundDue(l, PoolKeys(l), gamer);
    :- Require(Fits(due), Overflow);
    :- Require(due != 0, NoRefund);
    var sent :- FeesOf(cfg, due);
    :- Require(c.delivered, SubmessageFailed);
    Ok((due, sent, l.(teams := RefundSweep(l, PoolKeys(l), gamer))))
  }

  // The two queries.

  function RewardsShown(teams: seq<Team>, gamer: Addr): nat {
    if teams == [] then 0 else
      var t := teams[|teams| - 1];
      RewardsShown(teams[..|teams| - 1], gamer) + (if gamer == t.gamer && !t.claimedReward then t.reward else 0)
  }

  function QueryReward(l: Lobby, keys: seq<string>, gamer: Addr): nat {
    if keys == [] then 0 else
      QueryReward(l, keys[..|keys| - 1], gamer) + RewardsShown(l.TeamsOf(keys[|keys| - 1], gamer), gamer)
  }

  /** Teams of the gamer that the refund query counts. */
  function RefundsShown(teams: seq<Team>, gamer: Addr): nat {
    if teams == [] then 0 else
      var t := teams[|teams| - 1];
      RefundsShown(teams[..|teams| - 1], gamer) + (if gamer == t.gamer && !t.claimedRefund then 1 else 0)
  }

  function RefundShownIn(l: Lobby, id: string, gamer: Addr): Result<nat, Error> {
    if id !in l.pools || !l.pools[id].refundStatus then Ok(0) else
      :- Require(l.pools[id].poolType in l.types, NoPoolType);
      Ok(RefundsShown(l.TeamsOf(id, gamer), gamer) * RefundFee(l, id))
  }

  function QueryRefund(l: Lobby, keys: seq<string>, gamer: Addr): Result<nat, Error> {
    if keys == [] then Ok(0) else
      var n := |keys| - 1;
      var earlier :- QueryRefund(l, keys[..n], gamer);
      var here :- RefundShownIn(l, keys[n], gamer);
      Ok(earlier + here)
  }

  // Messages.

  function Exec(cfg: Config, l: Lobby, c: Call): Outcome {
    match c.msg
    case SetPoolType(_, _) => TypeSet(cfg, l, c)
    case CancelGame => Cancelling(cfg, l, c)
    case LockGame => Locking(cfg, l, c)
    case CreatePool(_) => Creating(cfg, l, c)
    case Bid(_, _, _, _, _) => Bidding(cfg, l, c)
    case Distribute(_, _, _) => Distributing(cfg, l, c)
    case ClaimReward(_) =>
      var paid :- Rewarding(cfg, l, c);
      Ok(paid.1)
    case ClaimRefund(_) =>
      var paid :- Refunding(cfg, l, c);
      Ok(paid.2)
  }

  function Run(cfg: Config, l: Lobby, calls: seq<Call>): Lobby {
    if calls == [] then l else
      var before := Run(cfg, l, calls[..|calls| - 1]);
      var r := Exec(cfg, before, calls[|calls| - 1]);
      if r.Ok? then r.value else before
  }

  const GENESIS := Lobby(Open, map[], map[], 0, map[])

  ghost predicate Commits(before: Lobby, spec: Outcome, after: Lobby, r: Result<nat, Error>) {
    match spec
    case Ok(l) => r.Ok? && after == l
    case Err(e) => r == Err(e) && after == before
  }

  class GamingContract {
    const config: Config
    var status: Status
    var types: map<string, PoolType>
    var pools: map<string, Pool>
    var poolCount: nat
    var teams: map<(string, Addr), seq<Team>>

    function View(): Lobby
      reads this
    {
      Lobby(status, types, pools, poolCount, teams)
    }

    constructor (config: Config)
      ensures View() == GENESIS && this.config == config
    {
      this.config := config;
      status, types, pools, poolCount, teams := Open, map[], map[], 0, map[];
    }

    method ExecuteCancelGame(c: Call) returns (r: Result<nat, Error>)
      modifies this
      ensures match Cancelling(config, old(View()), c)
              case Ok(l) => r == Ok(0) && View() == l
              case Err(e) => r == Err(e)
    {
      if c.sender != config.admin { return Err(UnauthorizedInvoker); }
      if status == Completed { return Err(GameOver); }
      if status == Cancelled { return Err(GameCancelled); }
      status := Cancelled;
      r := FlagForRefund(false);
    }

    method ExecuteLockGame(c: Call) returns (r: Result<nat, Error>)
      modifies this
      ensures match Locking(config, old(View()), c)
              case Ok(l) => r == Ok(0) && View() == l
              case Err(e) => r == Err(e)
    {
      if c.sender != config.admin { return Err(UnauthorizedInvoker); }
      if status != Open { return Err(GameNotOpen); }
      status := Closed;
      r := FlagForRefund(true);
    }

    /** One pool of the walk that cancelling and locking share. */
    method FlagPool(id: string, onlyUnderfilled: bool) returns (r: Result<nat, Error>)
      requires id in pools
      modifies `pools
      ensures r == if old(pools)[id].poolType in types then Ok(0) else Err(NoPoolType)
      ensures pools == if ToFlag(old(View()), id, onlyUnderfilled)
                       then old(pools)[id := old(pools)[id].(refundStatus := true)] else old(pools)
    {
      var pool := pools[id];
      if pool.poolType !in types {
        return Err(NoPoolType);
      }
      if !(onlyUnderfilled && pool.teamsCount >= types[pool.poolType].minTeams) {
        pools := pools[id := pool.(refundStatus := true)];
      }
      return Ok(0);
    }

    /** The walk over all pools. */
    method FlagForRefund(onlyUnderfilled: bool) returns (r: Result<nat, Error>)
      modifies `pools
      ensures if TypesKnown(old(View()))
              then r == Ok(0) && pools == Flagged(old(View()), PoolKeys(old(View())), onlyUnderfilled)
              else r == Err(NoPoolType)
    {
      ghost var start := View();
      var keys := KeyOrder.Ascending(pools.Keys);
      for i := 0 to |keys|
        invariant View() == start.(pools := Flagged(start, keys[..i], onlyUnderfilled))
        invariant TypesKnownIn(start, keys[..i])
      {
        TypesKnownNext(start, keys, i);
        KeyOrder.AscendingFresh(start.pools.Keys, i);
        FlaggedNext(start, keys, i, onlyUnderfilled);
        var flagged := FlagPool(keys[i], onlyUnderfilled);
        if flagged.Err? {
          return flagged;
        }
      }
      assert keys[..|keys|] == keys;
      return Ok(0);
    }

    method ExecuteCreatePool(c: Call) returns (r: Result<nat, Error>)
      requires c.msg.CreatePool?
      modifies this
      ensures match Creating(config, old(View()), c)
              case Ok(l) => r == Ok(0) && View() == l
              case Err(e) => r == Err(e)
    {
      if c.sender != config.admin { return Err(UnauthorizedInvoker); }
      if status != Open { return Err(GameNotOpen); }
      if !Fits(poolCount + 1) { return Err(Overflow); }
      poolCount := poolCount + 1;
      pools := pools[KeyOrder.Decimal(poolCount) := Pool(c.msg.poolType, 0, false, false, false)];
      return Ok(0);
    }

    method CountTeams(list: seq<Team>, gamer: Addr) returns (count: nat)
      ensures count == CountOf(list, gamer)
    {
      count := 0;
      for i := 0 to |list|
        invariant count == CountOf(list[..i], gamer)
      {
        assert list[..i + 1][..i] == list[..i];
        if list[i].gamer == gamer {
          count := count + 1;
        }
      }
      assert list[..|list|] == list;
    }

    method ExecuteBid(c: Call) returns (r: Result<nat, Error>)
      requires c.msg.Bid?
      modifies this
      ensures match Bidding(config, old(View()), c)
              case Ok(l) => r == Ok(0) && View() == l
              case Err(e) => r == Err(e)
    {
      var m := c.msg;
      if m.gamer != c.sender { return Err(UnauthorizedInvoker); }
      if status != Open { return Err(GameNotOpen); }
      if m.poolType !in types { return Err(NoPoolType); }
      if !c.feesPaid { return Err(InsufficientFees); }
      if !Fits(c.convertedFee * NINETY_NINE_NINE_PERCENT) { return Err(Overflow); }
      if m.amount < c.convertedFee * NINETY_NINE_NINE_PERCENT / HUNDRED_PERCENT { return Err(AmountTooLow); }
      var kind := types[m.poolType];
      var owned := CountTeams(Get(teams, (m.poolId, m.gamer), []), m.gamer);
      if owned >= kind.maxTeamsPerGamer { return Err(GamerTeamLimit); }
      if m.poolId !in pools { return Err(NoPool); }
      var pool := pools[m.poolId];
      if pool.teamsCount >= kind.maxTeams { return Err(PoolTeamLimit); }
      pools := pools[m.poolId := Pool(m.poolType, pool.teamsCount + 1, pool.distributed, false, false)];
      SaveTeam(m.gamer, m.poolId, m.teamId);
      if !c.delivered { return Err(SubmessageFailed); }
      return Ok(0);
    }

    method SaveTeam(gamer: Addr, poolId: string, teamId: string)
      modifies `teams
      ensures teams == old(teams)[(poolId, gamer) := old(View()).TeamsOf(poolId, gamer) +
                                  [Team(gamer, teamId, config.gameId, 0, false, 0, false)]]
    {
      var list := Get(teams, (poolId, gamer), []);
      list := list + [Team(gamer, teamId, config.gameId, 0, false, 0, false)];
      teams := teams[(poolId, gamer) := list];
    }

    /** The innermost loop of a distribution: one team against every winner entry. */
    method AwardTeam(team: Team, winners: seq<Winner>) returns (next: Team, given: nat)
      ensures next == Awarded(config, team, winners) && given == Matched(config, team, winners)
    {
      next, given := team, 0;
      for j := 0 to |winners|
        invariant next == Awarded(config, team, winners[..j]) && given == Matched(config, team, winners[..j])
      {
        assert winners[..j + 1][..j] == winners[..j];
        if team.gamer == winners[j].gamer && team.teamId == winners[j].teamId && team.gameId == config.gameId {
          next := next.(reward := winners[j].amount);
          given := given + winners[j].amount;
        }
      }
      assert winners[..|winners|] == winners;
    }

    method AwardTeams(list: seq<Team>, winners: seq<Winner>) returns (updated: seq<Team>, given: nat)
      ensures updated == AwardedList(config, list, winners) && given == MatchedIn(config, list, winners)
    {
      updated, given := [], 0;
      for i := 0 to |list|
        invariant updated == AwardedList(config, list[..i], winners)
        invariant given == MatchedIn(config, list[..i], winners)
      {
        assert list[..i + 1][..i] == list[..i];
        var next, matched := AwardTeam(list[i], winners);
        updated, given := updated + [next], given + matched;
      }
      assert list[..|list|] == list;
    }

    method SumWinners(winners: seq<Winner>) returns (sum: nat)
      ensures sum == Listed(winners)
    {
      sum := 0;
      for i := 0 to |winners|
        invariant sum == Listed(winners[..i])
      {
        assert winners[..i + 1][..i] == winners[..i];
        sum := sum + winners[i].amount;
      }
      assert winners[..|winners|] == winners;
    }

    /** The outer loop: one reload and rewrite per winner entry, also when gamers repeat. */
    method AwardWinners(poolId: string, winners: seq<Winner>) returns (given: nat)
      modifies `teams
      ensures teams == AwardPass(config, old(teams), poolId, winners, winners)
      ensures given == GivenByPass(config, old(teams), poolId, winners, winners)
    {
      given := 0;
      ghost var start := teams;
      for i := 0 to |winners|
        invariant teams == AwardPass(config, start, poolId, winners, winners[..i])
        invariant given == GivenByPass(config, start, poolId, winners, winners[..i])
      {
        var key := (poolId, winners[i].gamer);
        AwardPassNext(config, start, poolId, winners, i);
        GivenNext(config, start, poolId, winners, i);
        if key !in teams {
          continue;
        }
        var updated, matched := AwardTeams(teams[key], winners);
        teams := teams[key := updated];
        given := given + matched;
      }
      assert winners[..|winners|] == winners;
    }

    method ExecuteDistribute(c: Call) returns (r: Result<nat, Error>)
      requires c.msg.Distribute?
      modifies this
      ensures match Distributing(config, old(View()), c)
              case Ok(l) => r == Ok(0) && View() == l
              case Err(e) => r == Err(e)
    {
      var m := c.msg;
      if c.sender != config.admin { return Err(UnauthorizedInvoker); }
      if status == Cancelled { return Err(GameCancelled); }
      if status == Open { return Err(GameNotStarted); }
      status := if m.isFinal then Completed else Closed;
      if m.poolId !in pools { return Err(NoPool); }
      var pool := pools[m.poolId];
      if pool.distributed { return Err(RewardsAlreadyDistributed); }
      pools := pools[m.poolId := Pool(pool.poolType, pool.teamsCount, m.isFinal, false, true)];
      if pool.poolType !in types { return Err(NoPoolType); }
      var _ :- FeesOf(config, types[pool.poolType].fee);
      // both sums only grow, so their last values tell whether an addition has aborted
      var listed := SumWinners(m.winners);
      if !Fits(listed) { return Err(Overflow); }
      var given := AwardWinners(m.poolId, m.winners);
      if !Fits(given) || !c.totalFits { return Err(Overflow); }
      if !c.delivered { return Err(SubmessageFailed); }
      return Ok(0);
    }

    method MarkRewards(list: seq<Team>) returns (updated: seq<Team>, sum: nat)
      ensures updated == RewardMarked(list) && sum == Unclaimed(list)
    {
      updated, sum := [], 0;
      for i := 0 to |list|
        invariant updated == RewardMarked(list[..i]) && sum == Unclaimed(list[..i])
      {
        assert list[..i + 1][..i] == list[..i];
        if !list[i].claimedReward {
          sum := sum + list[i].reward;
          updated := updated + [list[i].(claimedReward := true)];
        } else {
          updated := updated + [list[i]];
        }
      }
      assert list[..|list|] == list;
    }

    /** What the reward loop does for one pool. */
    method CollectInPool(id: string, gamer: Addr) returns (earned: nat)
      requires id in pools
      modifies `teams
      ensures earned == RewardIn(old(View()), id, gamer)
      ensures teams == Collected(old(View()), id, gamer)
    {
      if !pools[id].rewardStatus || (id, gamer) !in teams {
        return 0;
      }
      var updated;
      updated, earned := MarkRewards(teams[(id, gamer)]);
      if updated != [] {
        teams := teams[(id, gamer) := updated];
      }
    }

    /** The reward loop over all pools. */
    method SweepRewards(gamer: Addr) returns (userReward: nat)
      modifies `teams
      ensures userReward == RewardDue(old(View()), PoolKeys(old(View())), gamer)
      ensures teams == RewardSweep(old(View()), PoolKeys(old(View())), gamer)
    {
      userReward := 0;
      ghost var start := View();
      var keys := KeyOrder.Ascending(pools.Keys);
      for i := 0 to |keys|
        invariant userReward == RewardDue(start, keys[..i], gamer)
        invariant View() == start.(teams := RewardSweep(start, keys[..i], gamer))
      {
        KeyOrder.AscendingFresh(start.pools.Keys, i);
        RewardNext(start, keys, i, gamer);
        var earned := CollectInPool(keys[i], gamer);
        userReward := userReward + earned;
      }
      assert keys[..|keys|] == keys;
    }

    method ExecuteClaimReward(c: Call) returns (r: Result<nat, Error>)
      requires c.msg.ClaimReward?
      modifies `teams
      ensures match Rewarding(config, old(View()), c)
              case Ok(paid) => r == Ok(paid.0) && View() == paid.1
              case Err(e) => r == Err(e)
    {
      if c.msg.gamer != c.sender { return Err(UnauthorizedInvoker); }
      var userReward := SweepRewards(c.msg.gamer);
      if !Fits(userReward) { return Err(Overflow); }
      if userReward == 0 { return Err(NoReward); }
      if !c.feesPaid { return Err(InsufficientFees); }
      if !c.delivered { return Err(SubmessageFailed); }
      return Ok(userReward);
    }

    method MarkRefunds(list: seq<Team>, fee: nat) returns (r: Result<(seq<Team>, nat), Error>)
      ensures r == if AnyRefunded(list) then Err(RefundAlreadyClaimed)
                   else Ok((RefundMarked(list, fee), |list| * fee))
    {
      var updated, sum := [], 0;
      for i := 0 to |list|
        invariant updated == RefundMarked(list[..i], fee) && sum == i * fee
        invariant !AnyRefunded(list[..i])
      {
        if list[i].claimedRefund {
          return Err(RefundAlreadyClaimed);
        }
        sum := sum + fee;
        updated := updated + [list[i].(refund := fee, claimedRefund := true)];
      }
      assert list[..|list|] == list;
      return Ok((updated, sum));
    }

    /** What the refund loop does for one pool. */
    method RefundInPool(id: string, gamer: Addr) returns (r: Result<nat, Error>)
      requires id in pools
      modifies `teams
      ensures r == RefundIn(old(View()), id, gamer)
      ensures r.Ok? ==> teams == Refunded(old(View()), id, gamer)
    {
      if !pools[id].refundStatus {
        return Ok(0);
      }
      if pools[id].poolType !in types {
        return Err(NoPoolType);
      }
      if (id, gamer) !in teams {
        return Ok(0);
      }
      var marked :- MarkRefunds(teams[(id, gamer)], types[pools[id].poolType].fee);
      if marked.0 != [] {
        teams := teams[(id, gamer) := marked.0];
      }
      return Ok(marked.1);
    }

    /** The refund loop over all pools. */
    method SweepRefunds(gamer: Addr) returns (r: Result<nat, Error>)
      modifies `teams
      ensures r == RefundDue(old(View()), PoolKeys(old(View())), gamer)
      ensures r.Ok? ==> teams == RefundSweep(old(View()), PoolKeys(old(View())), gamer)
    {
      var total := 0;
      ghost var start := View();
      var keys := KeyOrder.Ascending(pools.Keys);
      for i := 0 to |keys|
        invariant RefundDue(start, keys[..i], gamer).Ok? && RefundDue(start, keys[..i], gamer).value == total
        invariant View() == start.(teams := RefundSweep(start, keys[..i], gamer))
      {
        KeyOrder.AscendingFresh(start.pools.Keys, i);
        RefundSweepNext(start, keys, i, gamer);
        var refunded := RefundInPool(keys[i], gamer);
        RefundDueNext(start, keys, i, gamer);
        if refunded.Err? {
          RefundDueStops(start, keys, i + 1, gamer);
          return Err(refunded.error);
        }
        total := total + refunded.value;
      }
      assert keys[..|keys|] == keys;
      return Ok(total);
    }

    method ExecuteClaimRefund(c: Call) returns (r: Result<(nat, nat), Error>)
      requires c.msg.ClaimRefund?
      modifies `teams
      ensures match Refunding(config, old(View()), c)
              case Ok(paid) => r == Ok((paid.0, paid.1)) && View() == paid.2
              case Err(e) => r == Err(e)
    {
      if c.msg.gamer != c.sender { return Err(UnauthorizedInvoker); }
      var total :- SweepRefunds(c.msg.gamer);
      if !Fits(total) { return Err(Overflow); }
      if total == 0 { return Err(NoRefund); }
      var sent :- FeesOf(config, total);
      if !c.delivered { return Err(SubmessageFailed); }
      return Ok((total, sent));
    }

    method QueryGamerReward(gamer: Addr) returns (userReward: nat)
      ensures userReward == QueryReward(View(), PoolKeys(View()), gamer)
    {
      userReward := 0;
      var keys := KeyOrder.Ascending(pools.Keys);
      for i := 0 to |keys|
        invariant userReward == QueryReward(View(), keys[..i], gamer)
      {
        assert keys[..i + 1][..i] == keys[..i];
        var list := Get(teams, (keys[i], gamer), []);
        for j := 0 to |list|
          invariant userReward == QueryReward(View(), keys[..i], gamer) + RewardsShown(list[..j], gamer)
        {
          assert list[..j + 1][..j] == list[..j];
          if gamer == list[j].gamer && !list[j].claimedReward {
            userReward := userReward + list[j].reward;
          }
        }
        assert list[..|list|] == list;
      }
      assert keys[..|keys|] == keys;
    }

    method ShowRefunds(list: seq<Team>, gamer: Addr, fee: nat) returns (sum: nat)
      ensures sum == RefundsShown(list, gamer) * fee
    {
      sum := 0;
      for i := 0 to |list|
        invariant sum == RefundsShown(list[..i], gamer) * fee
      {
        assert list[..i + 1][..i] == list[..i];
        if gamer == list[i].gamer && !list[i].claimedRefund {
          sum := sum + fee;
        }
      }
      assert list[..|list|] == list;
    }

    method ShowRefundsIn(id: string, gamer: Addr) returns (r: Result<nat, Error>)
      requires id in pools
      ensures r == RefundShownIn(View(), id, gamer)
    {
      if !pools[id].refundStatus {
        return Ok(0);
      }
      if pools[id].poolType !in types {
        return Err(NoPoolType);
      }
      var shown := ShowRefunds(Get(teams, (id, gamer), []), gamer, types[pools[id].poolType].fee);
      return Ok(shown);
    }

    method QueryGamerRefund(gamer: Addr) returns (r: Result<nat, Error>)
      ensures r == QueryRefund(View(), PoolKeys(View()), gamer)
    {
      var userRefund := 0;
      var keys := KeyOrder.Ascending(pools.Keys);
      for i := 0 to |keys|
        invariant QueryRefund(View(), keys[..i], gamer).Ok?
        invariant QueryRefund(View(), keys[..i], gamer).value == userRefund
      {
        KeyOrder.AscendingFresh(pools.Keys, i);
        var shown := ShowRefundsIn(keys[i], gamer);
        QueryRefundNext(View(), keys, i, gamer);
        if shown.Err? {
          QueryRefundStops(View(), keys, i + 1, gamer);
          return Err(shown.error);
        }
        userRefund := userRefund + shown.value;
      }
      assert keys[..|keys|] == keys;
      return Ok(userRefund);
    }

    method Dispatch(c: Call) returns (r: Result<nat, Error>)
      modifies this
      ensures match Exec(config, old(View()), c)
              case Ok(l) => r.Ok? && View() == l
              case Err(e) => r == Err(e)
    {
      match c.msg {
        case SetPoolType(name, details) =>
          if c.sender != config.admin { return Err(UnauthorizedInvoker); }
          if name in types { return Err(PoolTypeAlreadySet); }
          types := types[name := details];
          return Ok(0);
        case CancelGame => r := ExecuteCancelGame(c);
        case LockGame => r := ExecuteLockGame(c);
        case CreatePool(_) => r := ExecuteCreatePool(c);
        case Bid(_, _, _, _, _) => r := ExecuteBid(c);
        case Distribute(_, _, _) => r := ExecuteDistribute(c);
        case ClaimReward(_) => r := ExecuteClaimReward(c);
        case ClaimRefund(_) =>
          var paid :- ExecuteClaimRefund(c);
          return Ok(paid.0);
      }
    }

    method Execute(c: Call) returns (r: Result<nat, Error>)
      modifies this
      ensures Commits(old(View()), Exec(config, old(View()), c), View(), r)
    {
      var before := View();
      r := Dispatch(c);
      if r.Err? {
        status, types, pools, poolCount, teams :=
          before.status, before.types, before.pools, before.poolCount, before.teams;
      }
    }
  }

  // Lemmas the loops use.

  lemma TypesKnownNext(l: Lobby, keys: seq<string>, i: nat)
    requires i < |keys| && keys[i] in l.pools
    ensures TypesKnownIn(l, keys[..i + 1]) <==> TypesKnownIn(l, keys[..i]) && l.pools[keys[i]].poolType in l.types
  {
    assert keys[..i + 1] == keys[..i] + [keys[i]];
  }

  lemma FlaggedNext(l: Lobby, keys: seq<string>, i: nat, onlyUnderfilled: bool)
    requires i < |keys| && keys[i] !in keys[..i] && keys[i] in l.pools
    ensures Flagged(l, keys[..i], onlyUnderfilled)[keys[i]] == l.pools[keys[i]]
    ensures Flagged(l, keys[..i + 1], onlyUnderfilled) ==
              if ToFlag(l, keys[i], onlyUnderfilled)
              then Flagged(l, keys[..i], onlyUnderfilled)[keys[i] := l.pools[keys[i]].(refundStatus := true)]
              else Flagged(l, keys[..i], onlyUnderfilled)
  {
    assert keys[..i + 1] == keys[..i] + [keys[i]];
  }

  lemma RewardSweepNext(l: Lobby, keys: seq<string>, i: nat, gamer: Addr)
    requires i < |keys| && keys[i] !in keys[..i] && keys[i] in l.pools
    ensures var reached := l.(teams := RewardSweep(l, keys[..i], gamer));
            && RewardIn(reached, keys[i], gamer) == RewardIn(l, keys[i], gamer)
            && Collected(reached, keys[i], gamer) == RewardSweep(l, keys[..i + 1], gamer)
  {
    assert keys[..i + 1] == keys[..i] + [keys[i]];
    var reached := l.(teams := RewardSweep(l, keys[..i], gamer));
    assert reached.TeamsOf(keys[i], gamer) == l.TeamsOf(keys[i], gamer);
  }

  lemma {:induction false} RefundSweepNext(l: Lobby, keys: seq<string>, i: nat, gamer: Addr)
    requires i < |keys| && keys[i] !in keys[..i] && keys[i] in l.pools
    ensures var reached := l.(teams := RefundSweep(l, keys[..i], gamer));
            && RefundIn(reached, keys[i], gamer) == RefundIn(l, keys[i], gamer)
            && Refunded(reached, keys[i], gamer) == RefundSweep(l, keys[..i + 1], gamer)
  {
    assert keys[..i + 1] == keys[..i] + [keys[i]];
    var reached := l.(teams := RefundSweep(l, keys[..i], gamer));
    assert reached.TeamsOf(keys[i], gamer) == l.TeamsOf(keys[i], gamer);
  }

  lemma RewardNext(l: Lobby, keys: seq<string>, i: nat, gamer: Addr)
    requires i < |keys| && keys[i] !in keys[..i] && keys[i] in l.pools
    ensures var reached := l.(teams := RewardSweep(l, keys[..i], gamer));
            && RewardDue(l, keys[..i + 1], gamer) == RewardDue(l, keys[..i], gamer) + RewardIn(reached, keys[i], gamer)
            && Collected(reached, keys[i], gamer) == RewardSweep(l, keys[..i + 1], gamer)
  {
    RewardDueNext(l, keys, i, gamer);
    RewardSweepNext(l, keys, i, gamer);
  }

  lemma RewardDueNext(l: Lobby, keys: seq<string>, i: nat, gamer: Addr)
    requires i < |keys|
    ensures RewardDue(l, keys[..i + 1], gamer) == RewardDue(l, keys[..i], gamer) + RewardIn(l, keys[i], gamer)
  {
    assert keys[..i + 1][..i] == keys[..i];
  }

  lemma RefundDueNext(l: Lobby, keys: seq<string>, i: nat, gamer: Addr)
    requires i < |keys| && RefundDue(l, keys[..i], gamer).Ok?
    ensures var here := RefundIn(l, keys[i], gamer);
            RefundDue(l, keys[..i + 1], gamer) ==
              if here.Err? then Err(here.error) else Ok(RefundDue(l, keys[..i], gamer).value + here.value)
  {
    assert keys[..i + 1][..i] == keys[..i];
  }

  lemma QueryRefundNext(l: Lobby, keys: seq<string>, i: nat, gamer: Addr)
    requires i < |keys| && QueryRefund(l, keys[..i], gamer).Ok?
    ensures var here := RefundShownIn(l, keys[i], gamer);
            QueryRefund(l, keys[..i + 1], gamer) ==
              if here.Err? then Err(here.error) else Ok(QueryRefund(l, keys[..i], gamer).value + here.value)
  {
    assert keys[..i + 1][..i] == keys[..i];
  }

  lemma {:induction false} AwardPassNext(cfg: Config, teams: map<(string, Addr), seq<Team>>, pool: string,
                      winners: seq<Winner>, i: nat)
    requires i < |winners|
    ensures var before := AwardPass(cfg, teams, pool, winners, winners[..i]);
            var k := (pool, winners[i].gamer);
            && (k in before <==> k in teams)
            && AwardPass(cfg, teams, pool, winners, winners[..i + 1]) ==
                 if k in teams then before[k := AwardedList(cfg, before[k], winners)] else before
  {
    var k := (pool, winners[i].gamer);
    forall g ensures Mentions(winners[..i + 1], g) <==> Mentions(winners[..i], g) || g == winners[i].gamer {
      MentionsNext(winners, i, g);
    }
    if k in teams {
      AwardingTwice(cfg, teams[k], winners);
    }
  }

  /** Awards do not change which entries match. */
  lemma {:induction false} MatchedSame(cfg: Config, t: Team, u: Team, winners: seq<Winner>)
    requires u == t.(reward := u.reward)
    ensures Matched(cfg, u, winners) == Matched(cfg, t, winners)
  {
    if winners != [] {
      MatchedSame(cfg, t, u, winners[..|winners| - 1]);
    }
  }

  lemma {:induction false} MatchedInSame(cfg: Config, teams: seq<Team>, winners: seq<Winner>)
    ensures MatchedIn(cfg, AwardedList(cfg, teams, winners), winners) == MatchedIn(cfg, teams, winners)
  {
    if teams != [] {
      var n := |teams| - 1;
      MatchedInSame(cfg, teams[..n], winners);
      AwardedIdentity(cfg, teams[n], winners);
      MatchedSame(cfg, teams[n], Awarded(cfg, teams[n], winners), winners);
      assert AwardedList(cfg, teams, winners)[..n] == AwardedList(cfg, teams[..n], winners);
    }
  }

  lemma GivenNext(cfg: Config, teams: map<(string, Addr), seq<Team>>, pool: string, winners: seq<Winner>, i: nat)
    requires i < |winners|
    ensures var reached := AwardPass(cfg, teams, pool, winners, winners[..i]);
            var k := (pool, winners[i].gamer);
            && (k in reached <==> k in teams)
            && GivenByPass(cfg, teams, pool, winners, winners[..i + 1])
               == GivenByPass(cfg, teams, pool, winners, winners[..i]) + MatchedIn(cfg, Get(reached, k, []), winners)
  {
    assert winners[..i + 1][..i] == winners[..i];
    var k := (pool, winners[i].gamer);
    if k in teams {
      MatchedInSame(cfg, teams[k], winners);
    }
  }

  lemma MentionsNext(winners: seq<Winner>, i: nat, g: Addr)
    requires i < |winners|
    ensures Mentions(winners[..i + 1], g) <==> Mentions(winners[..i], g) || g == winners[i].gamer
  {
    var longer, shorter := winners[..i + 1], winners[..i];
    assert longer[i] == winners[i];
    assert forall j :: 0 <= j < i ==> longer[j] == shorter[j];
  }

  lemma {:induction false} AwardedIdentity(cfg: Config, t: Team, winners: seq<Winner>)
    ensures Awarded(cfg, t, winners) == t.(reward := Awarded(cfg, t, winners).reward)
  {
    if winners != [] {
      AwardedIdentity(cfg, t, winners[..|winners| - 1]);
    }
  }

  /** Awarding is idempotent: the entries that matched still match, and the last one wins again. */
  lemma {:induction false} AwardedTwice(cfg: Config, t: Team, winners: seq<Winner>, u: Team, entries: seq<Winner>)
    requires u == t.(reward := Awarded(cfg, t, winners).reward)
    requires entries <= winners
    ensures var again := Awarded(cfg, u, entries);
            again == u.(reward := again.reward)
            && (again.reward == Awarded(cfg, t, entries).reward
                || (again == u && Awarded(cfg, t, entries) == t))
  {
    if entries != [] {
      AwardedTwice(cfg, t, winners, u, entries[..|entries| - 1]);
    }
  }

  lemma AwardingTwice(cfg: Config, teams: seq<Team>, winners: seq<Winner>)
    ensures AwardedList(cfg, AwardedList(cfg, teams, winners), winners) == AwardedList(cfg, teams, winners)
  {
    forall i | 0 <= i < |teams|
      ensures Awarded(cfg, Awarded(cfg, teams[i], winners), winners) == Awarded(cfg, teams[i], winners)
    {
      AwardedIdentity(cfg, teams[i], winners);
      AwardedTwice(cfg, teams[i], winners, Awarded(cfg, teams[i], winners), winners);
    }
  }

  /** An error at a key of the walk is the error of the whole walk. */
  lemma {:induction false} RefundDueStops(l: Lobby, keys: seq<string>, i: nat, gamer: Addr)
    requires i <= |keys|
    ensures RefundDue(l, keys[..i], gamer).Err? ==> RefundDue(l, keys, gamer) == RefundDue(l, keys[..i], gamer)
    decreases |keys|
  {
    if i < |keys| {
      RefundDueStops(l, keys[..|keys| - 1], i, gamer);
      assert keys[..|keys| - 1][..i] == keys[..i];
    } else {
      assert keys[..i] == keys;
    }
  }

  lemma {:induction false} QueryRefundStops(l: Lobby, keys: seq<string>, i: nat, gamer: Addr)
    requires i <= |keys|
    ensures QueryRefund(l, keys[..i], gamer).Err? ==> QueryRefund(l, keys, gamer) == QueryRefund(l, keys[..i], gamer)
    decreases |keys|
  {
    if i < |keys| {
      QueryRefundStops(l, keys[..|keys| - 1], i, gamer);
      assert keys[..|keys| - 1][..i] == keys[..i];
    } else {
      assert keys[..i] == keys;
    }
  }
}
