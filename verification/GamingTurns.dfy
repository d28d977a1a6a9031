/** Two turns a game can take: a completed game that is cancelled after all, and a pool whose type a bid
    changes under the teams that are in it. Each with a run, and with the exact condition. */
module GamingTurns {
  import opened Chain
  import opened GamingPool
  import opened GamingLaws
  import opened GamingClaims
  import opened GamingCourse
  import KeyOrder

  // A completed game.

  /** Completion is undone exactly by a distribution that is not final. */
  lemma CompletionIsUndoneExactlyBy(cfg: Config, l: Lobby, c: Call)
    requires l.status == Completed && Exec(cfg, l, c).Ok?
    ensures Exec(cfg, l, c).value.status != Completed <==> c.msg.Distribute? && !c.msg.isFinal
  {
    StatusStep(cfg, l, c);
  }

  lemma {:induction false} LockedEmpty(cfg: Config, l: Lobby, g: Addr, first: string, second: string)
    requires Desk(l, Open, g, first, second, Pool("full", 0, false, false, false), Pool("thin", 0, false, false, false),
                  [], [])
    ensures var r := Exec(cfg, l, By(cfg.admin, LockGame));
            r.Ok? && Desk(r.value, Closed, g, first, second, Pool("full", 0, false, true, false),
                          Pool("thin", 0, false, true, false), [], [])
  {
    assert "full"[0] != "thin"[0];
    AdminCallsSucceedExactlyWhen(cfg, l, By(cfg.admin, LockGame));
    BothAreFlagged(cfg, l, By(cfg.admin, LockGame), first, second);
    StatusStep(cfg, l, By(cfg.admin, LockGame));
  }

  lemma {:induction false} BothAreFlagged(cfg: Config, l: Lobby, c: Call, first: string, second: string)
    requires first != second && l.pools.Keys == {first, second} && Exec(cfg, l, c).Ok?
    requires c.msg.CancelGame? || (c.msg.LockGame? && TypesKnown(l) && Underfilled(l, first) && Underfilled(l, second))
    ensures var m := Exec(cfg, l, c).value;
            && m.types == l.types && m.teams == l.teams
            && m.pools == map[first := l.pools[first].(refundStatus := true)]
                             [second := l.pools[second].(refundStatus := true)]
  {
    LockAndCancelFlag(cfg, l, c, first);
    LockAndCancelFlag(cfg, l, c, second);
  }

  lemma DistributedEmpty(cfg: Config, l: Lobby, poolId: string, isFinal: bool)
    requires cfg.platformFee <= 10000 && cfg.transactionFee <= 10000
    requires poolId in l.pools && !l.pools[poolId].distributed && (l.status == Closed || l.status == Completed)
    requires l.pools[poolId].poolType in l.types && l.types[l.pools[poolId].poolType].fee == 10
    ensures var r := Exec(cfg, l, By(cfg.admin, Distribute(poolId, [], isFinal)));
            && r.Ok? && r.value.status == (if isFinal then Completed else Closed)
            && r.value.types == l.types && r.value.teams == l.teams
            && r.value.pools == l.pools[poolId := l.pools[poolId].(distributed := isFinal, refundStatus := false,
                                                                   rewardStatus := true)]
  {
    assert AwardPass(cfg, l.teams, poolId, [], []) == l.teams;
  }

  lemma {:induction false} DeskCancelled(cfg: Config, l: Lobby, g: Addr, first: string, second: string)
    requires Desk(l, Closed, g, first, second, Pool("full", 0, true, false, true), Pool("thin", 0, false, false, true),
                  [], [])
    ensures var r := Exec(cfg, l, By(cfg.admin, CancelGame));
            r.Ok? && Desk(r.value, Cancelled, g, first, second, Pool("full", 0, true, true, true),
                          Pool("thin", 0, false, true, true), [], [])
  {
    assert "full"[0] != "thin"[0];
    AdminCallsSucceedExactlyWhen(cfg, l, By(cfg.admin, CancelGame));
    BothAreFlagged(cfg, l, By(cfg.admin, CancelGame), first, second);
    StatusStep(cfg, l, By(cfg.admin, CancelGame));
  }

  /** One pool has its final distribution, another one a first batch, and the game is cancelled. */
  function UndoneRun(cfg: Config): seq<Call> {
    Opening(cfg)
    + [By(cfg.admin, LockGame)]
    + [By(cfg.admin, Distribute(KeyOrder.Decimal(1), [], true))]
    + [By(cfg.admin, Distribute(KeyOrder.Decimal(2), [], false))]
    + [By(cfg.admin, CancelGame)]
  }

  /** After this run the game is cancelled, and the pool that has its rewards is refundable as well. */
  lemma ACompletedGameCanBeCancelled(cfg: Config)
    requires cfg.platformFee <= 10000 && cfg.transactionFee <= 10000
    ensures var l, id := Run(cfg, GENESIS, UndoneRun(cfg)), KeyOrder.Decimal(1);
            && l.status == Cancelled
            && id in l.pools && l.pools[id].distributed && l.pools[id].rewardStatus && l.pools[id].refundStatus
  {
    var p, q := KeyOrder.Decimal(1), KeyOrder.Decimal(2);
    assert "full"[0] != "thin"[0];
    DeskIsSet(cfg, "", p, q);
    var r1 := Opening(cfg) + [By(cfg.admin, LockGame)];
    LockedEmpty(cfg, Run(cfg, GENESIS, Opening(cfg)), "", p, q);
    OneMoreCall(cfg, Opening(cfg), By(cfg.admin, LockGame));
    DistributedEmpty(cfg, Run(cfg, GENESIS, r1), p, true);
    OneMoreCall(cfg, r1, By(cfg.admin, Distribute(p, [], true)));
    var r2 := r1 + [By(cfg.admin, Distribute(p, [], true))];
    DistributedEmpty(cfg, Run(cfg, GENESIS, r2), q, false);
    OneMoreCall(cfg, r2, By(cfg.admin, Distribute(q, [], false)));
    var r3 := r2 + [By(cfg.admin, Distribute(q, [], false))];
    DeskCancelled(cfg, Run(cfg, GENESIS, r3), "", p, q);
    OneMoreCall(cfg, r3, By(cfg.admin, CancelGame));
  }

  // A pool that changes its type.

  /** No gamer has more teams in the pool than its type allows. */
  ghost predicate WithinGamerLimit(l: Lobby, id: string)
    requires id in l.pools
  {
    forall g :: |l.TeamsOf(id, g)| > 0 ==> && l.pools[id].poolType in l.types
                                           && |l.TeamsOf(id, g)| <= l.types[l.pools[id].poolType].maxTeamsPerGamer
  }

  /** A bid names a type, and its pool is of that type from then on: all gamers are within the limit after
      it exactly when all others were within that type's limit before. */
  lemma BidsKeepTheGamerLimitExactlyWhen(cfg: Config, l: Lobby, c: Call)
    requires c.msg.Bid? && WellFiled(cfg, l) && Exec(cfg, l, c).Ok?
    ensures c.msg.poolId in Exec(cfg, l, c).value.pools && c.msg.poolType in l.types
    ensures WithinGamerLimit(Exec(cfg, l, c).value, c.msg.poolId) <==>
              forall g :: g != c.msg.gamer ==>
                            |l.TeamsOf(c.msg.poolId, g)| <= l.types[c.msg.poolType].maxTeamsPerGamer
  {
    var m, id := Exec(cfg, l, c).value, c.msg.poolId;
    TeamsOwned(cfg, l, id, c.msg.gamer);
    OwnTeamsCount(l.TeamsOf(id, c.msg.gamer), c.msg.gamer);
    forall g ensures g != c.msg.gamer ==> m.TeamsOf(id, g) == l.TeamsOf(id, g) {
      BidsAddOneTeam(cfg, l, c, (id, g), id);
    }
    BidsAddOneTeam(cfg, l, c, ("", ""), id);
  }

  /** Every accepted bid of the run names the type its pool has. */
  predicate KeepsTypes(cfg: Config, l: Lobby, calls: seq<Call>) {
    forall i :: 0 <= i < |calls| && calls[i].msg.Bid? ==>
      var before := Run(cfg, l, calls[..i]);
      Exec(cfg, before, calls[i]).Ok? && calls[i].msg.poolId in before.pools ==>
        before.pools[calls[i].msg.poolId].poolType == calls[i].msg.poolType
  }

  ghost predicate AllWithinGamerLimit(l: Lobby) {
    forall id :: id in l.pools ==> WithinGamerLimit(l, id)
  }

  lemma SameSizesSameLimits(l: Lobby, m: Lobby)
    requires AllWithinGamerLimit(l) && SameEntries(l.teams, m.teams) && m.pools.Keys == l.pools.Keys
    requires forall id :: id in l.pools ==> m.pools[id].poolType == l.pools[id].poolType
    requires forall t :: t in l.types ==> t in m.types && m.types[t] == l.types[t]
    ensures AllWithinGamerLimit(m)
  {
    forall id, g | id in m.pools && |m.TeamsOf(id, g)| > 0
      ensures && m.pools[id].poolType in m.types
              && |m.TeamsOf(id, g)| <= m.types[m.pools[id].poolType].maxTeamsPerGamer
    {
      assert WithinGamerLimit(l, id) && |l.TeamsOf(id, g)| == |m.TeamsOf(id, g)|;
    }
  }

  lemma {:induction false} BidStaysWithin(cfg: Config, l: Lobby, c: Call)
    requires c.msg.Bid? && WellFiled(cfg, l) && AllWithinGamerLimit(l) && Exec(cfg, l, c).Ok?
    requires c.msg.poolId in l.pools ==> l.pools[c.msg.poolId].poolType == c.msg.poolType
    ensures AllWithinGamerLimit(Exec(cfg, l, c).value)
  {
    var m := Exec(cfg, l, c).value;
    BidsAddOneTeam(cfg, l, c, ("", ""), c.msg.poolId);
    assert WithinGamerLimit(l, c.msg.poolId);
    BidsKeepTheGamerLimitExactlyWhen(cfg, l, c);
    forall id | id in m.pools && id != c.msg.poolId ensures WithinGamerLimit(m, id) {
      BidsAddOneTeam(cfg, l, c, ("", ""), id);
      assert WithinGamerLimit(l, id);
      forall g ensures m.TeamsOf(id, g) == l.TeamsOf(id, g) {
        BidsAddOneTeam(cfg, l, c, (id, g), id);
      }
    }
  }

  lemma {:induction false} CreationStaysWithin(cfg: Config, l: Lobby, c: Call)
    requires c.msg.CreatePool? && Coherent(cfg, l) && AllWithinGamerLimit(l) && Exec(cfg, l, c).Ok?
    ensures AllWithinGamerLimit(Exec(cfg, l, c).value)
  {
    var m := Exec(cfg, l, c).value;
    CreatedPoolsAreEmpty(cfg, l, c);
    NextNameIsFresh(l);
    forall id | id in m.pools ensures WithinGamerLimit(m, id) {
      if id in l.pools {
        assert WithinGamerLimit(l, id);
        assert forall g :: m.TeamsOf(id, g) == l.TeamsOf(id, g);
      }
    }
  }

  lemma {:induction false} FlaggingKeepsSizes(cfg: Config, l: Lobby, c: Call)
    requires (c.msg.LockGame? || c.msg.CancelGame?) && Exec(cfg, l, c).Ok?
    ensures var m := Exec(cfg, l, c).value;
            && SameEntries(l.teams, m.teams) && m.pools.Keys == l.pools.Keys
            && forall id :: id in l.pools ==> m.pools[id].poolType == l.pools[id].poolType
  {
  }

  lemma {:induction false} OthersKeepSizes(cfg: Config, l: Lobby, c: Call)
    requires !c.msg.Bid? && !c.msg.CreatePool? && Exec(cfg, l, c).Ok?
    ensures var m := Exec(cfg, l, c).value;
            && SameEntries(l.teams, m.teams) && m.pools.Keys == l.pools.Keys
            && forall id :: id in l.pools ==> m.pools[id].poolType == l.pools[id].poolType
  {
    match c.msg
    case Distribute(_, _, _) =>
      DistributionKeepsEntries(cfg, l, c);
      forall id | id in l.pools ensures Exec(cfg, l, c).value.pools[id].poolType == l.pools[id].poolType {
        DistributionSettlesThePool(cfg, l, c, id);
      }
      DistributionSettlesThePool(cfg, l, c, c.msg.poolId);
    case LockGame => FlaggingKeepsSizes(cfg, l, c);
    case CancelGame => FlaggingKeepsSizes(cfg, l, c);
    case ClaimReward(gamer) => SweepsKeepEntries(l, PoolKeys(l), gamer);
    case ClaimRefund(gamer) => SweepsKeepEntries(l, PoolKeys(l), gamer);
    case SetPoolType(_, _) =>
  }

  lemma StepStaysWithin(cfg: Config, l: Lobby, c: Call)
    requires Coherent(cfg, l) && AllWithinGamerLimit(l) && Exec(cfg, l, c).Ok?
    requires c.msg.Bid? && c.msg.poolId in l.pools ==> l.pools[c.msg.poolId].poolType == c.msg.poolType
    ensures AllWithinGamerLimit(Exec(cfg, l, c).value)
  {
    if c.msg.Bid? {
      BidStaysWithin(cfg, l, c);
    } else if c.msg.CreatePool? {
      CreationStaysWithin(cfg, l, c);
    } else {
      OthersKeepSizes(cfg, l, c);
      TypesStep(cfg, l, c);
      SameSizesSameLimits(l, Exec(cfg, l, c).value);
    }
  }

  /** Over every run whose bids name the type their pool has, no gamer is over the limit anywhere. */
  lemma {:induction false} GamersStayWithinTheirLimits(cfg: Config, calls: seq<Call>)
    requires KeepsTypes(cfg, GENESIS, calls)
    ensures AllWithinGamerLimit(Run(cfg, GENESIS, calls))
  {
    if calls != [] {
      var n := |calls| - 1;
      forall i | 0 <= i < n ensures calls[..n][..i] == calls[..i] {
      }
      GamersStayWithinTheirLimits(cfg, calls[..n]);
      EveryReachableStateIsCoherent(cfg, calls[..n]);
      if Exec(cfg, Run(cfg, GENESIS, calls[..n]), calls[n]).Ok? {
        StepStaysWithin(cfg, Run(cfg, GENESIS, calls[..n]), calls[n]);
      }
    }
  }

  /** A wide type and a tight one, two teams of one gamer under the wide one, and a bid of another gamer
      that names the tight one. */
  function RetypingRun(cfg: Config, g: Addr, h: Addr): seq<Call> {
    Wide(cfg) + [Enter(g, "wide")] + [Enter(g, "wide")] + [Enter(h, "tight")]
  }

  function Wide(cfg: Config): seq<Call> {
    [By(cfg.admin, SetPoolType("wide", PoolType(10, 1, 5, 2)))]
    + [By(cfg.admin, SetPoolType("tight", PoolType(10, 1, 5, 1)))]
    + [By(cfg.admin, CreatePool("wide"))]
  }

  function Enter(g: Addr, poolType: string): Call { By(g, Bid(g, poolType, KeyOrder.Decimal(1), "team", 10)) }

  /** One pool with some teams of one gamer in it. */
  predicate Board(l: Lobby, g: Addr, h: Addr, pool: Pool, teams: nat) {
    && l.status == Open
    && l.types == map["wide" := PoolType(10, 1, 5, 2)]["tight" := PoolType(10, 1, 5, 1)]
    && l.pools == map[KeyOrder.Decimal(1) := pool]
    && |l.TeamsOf(KeyOrder.Decimal(1), g)| == teams && l.TeamsOf(KeyOrder.Decimal(1), h) == []
    && forall i :: 0 <= i < teams ==> l.TeamsOf(KeyOrder.Decimal(1), g)[i].gamer == g
  }

  lemma {:induction false} BoardIsSet(cfg: Config, g: Addr, h: Addr)
    ensures Board(Run(cfg, GENESIS, Wide(cfg)), g, h, Pool("wide", 0, false, false, false), 0)
  {
    var a, b := [By(cfg.admin, SetPoolType("wide", PoolType(10, 1, 5, 2)))],
                By(cfg.admin, SetPoolType("tight", PoolType(10, 1, 5, 1)));
    assert "wide"[0] != "tight"[0];
    assert a[..0] == [] && Run(cfg, GENESIS, []) == GENESIS;
    OneMoreCall(cfg, a, b);
    OneMoreCall(cfg, a + [b], By(cfg.admin, CreatePool("wide")));
  }

  lemma {:induction false} Entered(cfg: Config, l: Lobby, g: Addr, h: Addr, teams: nat)
    requires Board(l, g, h, Pool("wide", teams, false, false, false), teams) && teams < 2 && g != h
    ensures var r := Exec(cfg, l, Enter(g, "wide"));
            r.Ok? && Board(r.value, g, h, Pool("wide", teams + 1, false, false, false), teams + 1)
  {
    assert "wide"[0] != "tight"[0];
    OwnTeamsCount(l.TeamsOf(KeyOrder.Decimal(1), g), g);
  }

  lemma {:induction false} Retyped(cfg: Config, l: Lobby, g: Addr, h: Addr)
    requires Board(l, g, h, Pool("wide", 2, false, false, false), 2) && g != h
    ensures var r := Exec(cfg, l, Enter(h, "tight"));
            && r.Ok? && r.value.pools == map[KeyOrder.Decimal(1) := Pool("tight", 3, false, false, false)]
            && |r.value.TeamsOf(KeyOrder.Decimal(1), g)| == 2 && r.value.types == l.types
  {
    assert "wide"[0] != "tight"[0];
    assert CountOf([], h) == 0;
  }

  /** After this run the pool allows one team to a gamer, and a gamer has two in it. */
  lemma {:induction false} ABidCanRetypeAPool(cfg: Config, g: Addr, h: Addr)
    requires g != h
    ensures var l, id := Run(cfg, GENESIS, RetypingRun(cfg, g, h)), KeyOrder.Decimal(1);
            && id in l.pools && l.pools[id].poolType == "tight" && "tight" in l.types
            && l.types["tight"].maxTeamsPerGamer == 1 && |l.TeamsOf(id, g)| == 2
  {
    BoardIsSet(cfg, g, h);
    Entered(cfg, Run(cfg, GENESIS, Wide(cfg)), g, h, 0);
    OneMoreCall(cfg, Wide(cfg), Enter(g, "wide"));
    var r1 := Wide(cfg) + [Enter(g, "wide")];
    Entered(cfg, Run(cfg, GENESIS, r1), g, h, 1);
    OneMoreCall(cfg, r1, Enter(g, "wide"));
    var r2 := r1 + [Enter(g, "wide")];
    Retyped(cfg, Run(cfg, GENESIS, r2), g, h);
    OneMoreCall(cfg, r2, Enter(h, "tight"));
  }
}
