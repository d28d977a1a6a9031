/** The course of a game: what each message does to the status, the pools and the entries, when it is
    accepted, and what therefore holds in every reachable state. */
module GamingCourse {
  import opened Chain
  import opened GamingPool
  import opened GamingLaws
  import opened GamingClaims
  import KeyOrder

  // The status.

  /** The status after an accepted message. */
  function StatusAfter(status: Status, m: Msg): Status {
    match m
    case LockGame => Closed
    case CancelGame => Cancelled
    case Distribute(_, _, isFinal) => if isFinal then Completed else Closed
    case _ => status
  }

  /** Entering goes on while the game is open, distributing after that, and cancelling until it is
      completed; only a distribution leads out of the completed state and none out of the cancelled. */
  predicate MayFollow(status: Status, m: Msg) {
    match m
    case LockGame => status == Open
    case CancelGame => status == Open || status == Closed
    case CreatePool(_) => status == Open
    case Bid(_, _, _, _, _) => status == Open
    case Distribute(_, _, _) => status == Closed || status == Completed
    case _ => true
  }

  lemma StatusStep(cfg: Config, l: Lobby, c: Call)
    requires Exec(cfg, l, c).Ok?
    ensures MayFollow(l.status, c.msg) && Exec(cfg, l, c).value.status == StatusAfter(l.status, c.msg)
  {
  }

  // The pools.

  /** An accepted distribution completes the game exactly when it is final, and then the pool is done;
      the pool's teams have rewards from now on and no refund; every other pool stays. */
  lemma DistributionSettlesThePool(cfg: Config, l: Lobby, c: Call, id: string)
    requires c.msg.Distribute? && Exec(cfg, l, c).Ok? && id in l.pools
    ensures var m := Exec(cfg, l, c).value;
            && (m.status == Completed <==> c.msg.isFinal) && (m.status == Closed <==> !c.msg.isFinal)
            && c.msg.poolId in l.pools && !l.pools[c.msg.poolId].distributed
            && m.pools.Keys == l.pools.Keys && m.types == l.types
            && (id != c.msg.poolId ==> m.pools[id] == l.pools[id])
            && (id == c.msg.poolId ==>
                  && (m.pools[id].distributed <==> c.msg.isFinal)
                  && m.pools[id].rewardStatus && !m.pools[id].refundStatus
                  && m.pools[id].teamsCount == l.pools[id].teamsCount && m.pools[id].poolType == l.pools[id].poolType)
  {
  }

  predicate Underfilled(l: Lobby, id: string)
    requires id in l.pools && l.pools[id].poolType in l.types
  {
    l.pools[id].teamsCount < l.types[l.pools[id].poolType].minTeams
  }

  /** The lock makes the underfilled pools refundable and the cancellation all of them; nothing else about
      a pool changes. */
  lemma LockAndCancelFlag(cfg: Config, l: Lobby, c: Call, id: string)
    requires (c.msg.LockGame? || c.msg.CancelGame?) && Exec(cfg, l, c).Ok? && id in l.pools
    ensures l.pools[id].poolType in l.types
    ensures var m := Exec(cfg, l, c).value;
            && m.pools.Keys == l.pools.Keys && m.types == l.types && m.teams == l.teams && m.poolCount == l.poolCount
            && m.pools[id] == l.pools[id].(refundStatus := m.pools[id].refundStatus)
            && (m.pools[id].refundStatus
                <==> l.pools[id].refundStatus || c.msg.CancelGame? || Underfilled(l, id))
  {
    assert id in PoolKeys(l);
  }

  /** A bid adds one team, the gamer's own and without any reward, at the end of the gamer's list, and
      counts it. */
  lemma BidsAddOneTeam(cfg: Config, l: Lobby, c: Call, k: (string, Addr), id: string)
    requires c.msg.Bid? && Exec(cfg, l, c).Ok?
    ensures var m, list := Exec(cfg, l, c).value, l.TeamsOf(c.msg.poolId, c.msg.gamer);
            && m.TeamsOf(c.msg.poolId, c.msg.gamer)
               == list + [Team(c.sender, c.msg.teamId, cfg.gameId, 0, false, 0, false)]
            && (k != (c.msg.poolId, c.msg.gamer) ==> m.TeamsOf(k.0, k.1) == l.TeamsOf(k.0, k.1))
            && c.msg.poolId in l.pools && m.pools.Keys == l.pools.Keys && m.types == l.types
            && (id in l.pools && id != c.msg.poolId ==> m.pools[id] == l.pools[id])
            && m.pools[c.msg.poolId]
               == l.pools[c.msg.poolId].(poolType := c.msg.poolType, refundStatus := false, rewardStatus := false,
                                         teamsCount := l.pools[c.msg.poolId].teamsCount + 1)
  {
  }

  /** A created pool is empty, of the type asked for, under the next number. */
  lemma CreatedPoolsAreEmpty(cfg: Config, l: Lobby, c: Call)
    requires c.msg.CreatePool? && Exec(cfg, l, c).Ok?
    ensures var m, id := Exec(cfg, l, c).value, KeyOrder.Decimal(l.poolCount + 1);
            && m.poolCount == l.poolCount + 1 && m.types == l.types && m.teams == l.teams
            && m.pools.Keys == l.pools.Keys + {id}
            && m.pools[id].poolType == c.msg.poolType && m.pools[id].teamsCount == 0
            && !m.pools[id].distributed && !m.pools[id].refundStatus && !m.pools[id].rewardStatus
            && forall other :: other in l.pools && other != id ==> m.pools[other] == l.pools[other]
  {
  }

  /** A type is set under a new name, to the details sent, and by nothing else. */
  lemma TypesStep(cfg: Config, l: Lobby, c: Call)
    requires Exec(cfg, l, c).Ok?
    ensures Exec(cfg, l, c).value.types
            == if c.msg.SetPoolType? then l.types[c.msg.name := c.msg.details] else l.types
    ensures c.msg.SetPoolType? ==> c.msg.name !in l.types
  {
    match c.msg
    case ClaimReward(_) =>
    case ClaimRefund(_) =>
    case Bid(_, _, _, _, _) => BidsAddOneTeam(cfg, l, c, ("", ""), "");
    case Distribute(_, _, _) => DistributionSettlesThePool(cfg, l, c, c.msg.poolId);
    case _ =>
  }

  /** Over every run a type, once set, never changes. */
  lemma {:induction false} TypesAreSetOnce(cfg: Config, l: Lobby, calls: seq<Call>, name: string)
    requires name in l.types
    ensures name in Run(cfg, l, calls).types && Run(cfg, l, calls).types[name] == l.types[name]
  {
    if calls != [] {
      var n := |calls| - 1;
      TypesAreSetOnce(cfg, l, calls[..n], name);
      if Exec(cfg, Run(cfg, l, calls[..n]), calls[n]).Ok? {
        TypesStep(cfg, Run(cfg, l, calls[..n]), calls[n]);
      }
    }
  }

  // Acceptance.

  /** When the messages of the admin are accepted. */
  lemma AdminCallsSucceedExactlyWhen(cfg: Config, l: Lobby, c: Call)
    ensures c.msg.SetPoolType? ==> (Exec(cfg, l, c).Ok? <==> c.sender == cfg.admin && c.msg.name !in l.types)
    ensures c.msg.CreatePool? ==>
              (Exec(cfg, l, c).Ok? <==> c.sender == cfg.admin && MayFollow(l.status, c.msg) && Fits(l.poolCount + 1))
    ensures c.msg.LockGame? || c.msg.CancelGame? ==>
              (Exec(cfg, l, c).Ok? <==>
                && c.sender == cfg.admin && MayFollow(l.status, c.msg)
                && forall id :: id in l.pools ==> l.pools[id].poolType in l.types)
  {
  }

  lemma {:induction false} OwnTeamsCount(list: seq<Team>, gamer: Addr)
    requires Owned(list, gamer)
    ensures CountOf(list, gamer) == |list|
  {
    if list != [] {
      OwnTeamsCount(list[..|list| - 1], gamer);
    }
  }

  /** When a bid is accepted: an open game, room in the pool and for the gamer under the type that the bid
      names, and an amount that is not short of 99.9% of the converted fee by a whole unit. */
  lemma BidsSucceedExactlyWhen(cfg: Config, l: Lobby, c: Call)
    requires c.msg.Bid? && WellFiled(cfg, l) && Fits(c.convertedFee * 9990)
    ensures var m := c.msg;
            Exec(cfg, l, c).Ok? <==>
              && m.gamer == c.sender && l.status == Open && c.feesPaid && c.delivered
              && m.poolType in l.types && m.poolId in l.pools
              && c.convertedFee * 9990 < 10000 * (m.amount + 1)
              && |l.TeamsOf(m.poolId, m.gamer)| < l.types[m.poolType].maxTeamsPerGamer
              && l.pools[m.poolId].teamsCount < l.types[m.poolType].maxTeams
  {
    TeamsOwned(cfg, l, c.msg.poolId, c.msg.gamer);
    OwnTeamsCount(l.TeamsOf(c.msg.poolId, c.msg.gamer), c.msg.gamer);
  }

  /** The coins for both percentages of an amount, two roundings short of them at most. */
  lemma FeesAreThePercentages(cfg: Config, amount: nat)
    requires FeesOf(cfg, amount).Ok?
    ensures var fee, exact := FeesOf(cfg, amount).value, amount * (cfg.platformFee + cfg.transactionFee);
            10000 * fee <= exact < 10000 * (fee + 2)
  {
    assert amount * (cfg.platformFee + cfg.transactionFee) == amount * cfg.platformFee + amount * cfg.transactionFee;
  }

  // Every reachable state.

  /** A pool's place in the course of the game: its count is within the limit of its type; while the game
      is open nothing has been decided about it; afterwards it is refundable exactly when it is underfilled
      and has no rewards, and in a cancelled game in any case. */
  predicate PoolInCourse(l: Lobby, id: string)
    requires id in l.pools
  {
    var pool := l.pools[id];
    && (pool.teamsCount > 0 || l.status != Open ==> pool.poolType in l.types)
    && (pool.teamsCount > 0 ==> pool.teamsCount <= l.types[pool.poolType].maxTeams)
    && (pool.distributed ==> l.status != Open && (l.status != Cancelled ==> pool.rewardStatus))
    && (l.status == Open ==> !pool.refundStatus && !pool.rewardStatus)
    && (l.status == Closed || l.status == Completed ==>
          (pool.refundStatus <==> !pool.rewardStatus && Underfilled(l, id)))
    && (l.status == Cancelled ==> pool.refundStatus)
  }

  predicate InCourse(l: Lobby) {
    && (forall id :: id in l.pools ==> PoolInCourse(l, id))
    && (l.status == Completed ==> exists id :: id in l.pools && l.pools[id].distributed)
  }

  lemma {:induction false} FlaggingKeepsCourse(cfg: Config, l: Lobby, c: Call)
    requires InCourse(l) && (c.msg.LockGame? || c.msg.CancelGame?) && Exec(cfg, l, c).Ok?
    ensures InCourse(Exec(cfg, l, c).value)
  {
    var m := Exec(cfg, l, c).value;
    StatusStep(cfg, l, c);
    forall id | id in m.pools ensures PoolInCourse(m, id) {
      assert id in PoolKeys(l);
      LockAndCancelFlag(cfg, l, c, id);
      assert PoolInCourse(l, id);
    }
  }

  lemma {:induction false} DistributingKeepsCourse(cfg: Config, l: Lobby, c: Call)
    requires InCourse(l) && c.msg.Distribute? && Exec(cfg, l, c).Ok?
    ensures InCourse(Exec(cfg, l, c).value)
  {
    var m := Exec(cfg, l, c).value;
    StatusStep(cfg, l, c);
    DistributionSettlesThePool(cfg, l, c, c.msg.poolId);
    forall id | id in m.pools ensures PoolInCourse(m, id) {
      DistributionSettlesThePool(cfg, l, c, id);
      assert PoolInCourse(l, id);
    }
  }

  lemma {:induction false} EnteringKeepsCourse(cfg: Config, l: Lobby, c: Call)
    requires InCourse(l) && (c.msg.Bid? || c.msg.CreatePool?) && Exec(cfg, l, c).Ok?
    ensures InCourse(Exec(cfg, l, c).value)
  {
    var m := Exec(cfg, l, c).value;
    StatusStep(cfg, l, c);
    forall id | id in m.pools ensures PoolInCourse(m, id) {
      if id in l.pools {
        assert PoolInCourse(l, id);
      }
      if c.msg.Bid? {
        BidsAddOneTeam(cfg, l, c, ("", ""), id);
      } else {
        CreatedPoolsAreEmpty(cfg, l, c);
      }
    }
  }

  lemma {:induction false} OthersKeepCourse(cfg: Config, l: Lobby, c: Call)
    requires InCourse(l) && (c.msg.SetPoolType? || c.msg.ClaimReward? || c.msg.ClaimRefund?) && Exec(cfg, l, c).Ok?
    ensures InCourse(Exec(cfg, l, c).value)
  {
    var m := Exec(cfg, l, c).value;
    assert m.pools == l.pools && m.status == l.status;
    forall id | id in m.pools ensures PoolInCourse(m, id) {
      assert PoolInCourse(l, id);
    }
  }

  lemma StepKeepsCourse(cfg: Config, l: Lobby, c: Call)
    requires InCourse(l) && Exec(cfg, l, c).Ok?
    ensures InCourse(Exec(cfg, l, c).value)
  {
    match c.msg
    case LockGame => FlaggingKeepsCourse(cfg, l, c);
    case CancelGame => FlaggingKeepsCourse(cfg, l, c);
    case Distribute(_, _, _) => DistributingKeepsCourse(cfg, l, c);
    case Bid(_, _, _, _, _) => EnteringKeepsCourse(cfg, l, c);
    case CreatePool(_) => EnteringKeepsCourse(cfg, l, c);
    case _ => OthersKeepCourse(cfg, l, c);
  }

  /** So it is in every reachable state. */
  lemma {:induction false} EveryReachableStateIsInCourse(cfg: Config, calls: seq<Call>)
    ensures InCourse(Run(cfg, GENESIS, calls))
  {
    if calls != [] {
      var n := |calls| - 1;
      EveryReachableStateIsInCourse(cfg, calls[..n]);
      if Exec(cfg, Run(cfg, GENESIS, calls[..n]), calls[n]).Ok? {
        StepKeepsCourse(cfg, Run(cfg, GENESIS, calls[..n]), calls[n]);
      }
    }
  }

  // After the final distribution.

  /** The run accepts no distribution. */
  predicate NoDistribution(cfg: Config, l: Lobby, calls: seq<Call>) {
    forall i :: 0 <= i < |calls| && calls[i].msg.Distribute? ==> Exec(cfg, Run(cfg, l, calls[..i]), calls[i]).Err?
  }

  /** A completed game stays completed, and cannot be cancelled, until another distribution is accepted. */
  lemma {:induction false} CompletedGamesAreNotCancelled(cfg: Config, l: Lobby, calls: seq<Call>, c: Call)
    requires l.status == Completed && NoDistribution(cfg, l, calls)
    ensures Run(cfg, l, calls).status == Completed
    ensures c.msg.CancelGame? ==> Exec(cfg, Run(cfg, l, calls), c).Err?
  {
    if calls != [] {
      var n := |calls| - 1;
      forall i | 0 <= i < n && calls[..n][i].msg.Distribute?
        ensures Exec(cfg, Run(cfg, l, calls[..n][..i]), calls[..n][i]).Err?
      {
        assert calls[..n][..i] == calls[..i];
      }
      CompletedGamesAreNotCancelled(cfg, l, calls[..n], c);
      if Exec(cfg, Run(cfg, l, calls[..n]), calls[n]).Ok? {
        StatusStep(cfg, Run(cfg, l, calls[..n]), calls[n]);
      }
    }
    if c.msg.CancelGame? && Exec(cfg, Run(cfg, l, calls), c).Ok? {
      StatusStep(cfg, Run(cfg, l, calls), c);
    }
  }

  lemma DistributedStays(cfg: Config, l: Lobby, c: Call, id: string)
    requires Exec(cfg, l, c).Ok? && id in l.pools && l.pools[id].distributed && l.status != Open
    ensures var m := Exec(cfg, l, c).value;
            m.status != Open && id in m.pools && m.pools[id].distributed
    ensures c.msg.Distribute? ==> c.msg.poolId != id
  {
    StatusStep(cfg, l, c);
    if c.msg.Distribute? {
      DistributionSettlesThePool(cfg, l, c, id);
    }
  }

  /** A pool that has had its final distribution is done: every later distribution of it is refused. */
  lemma {:induction false} PoolsAreDistributedOnce(cfg: Config, l: Lobby, calls: seq<Call>, id: string, c: Call)
    requires id in l.pools && l.pools[id].distributed && l.status != Open
    ensures var m := Run(cfg, l, calls);
            && m.status != Open && id in m.pools && m.pools[id].distributed
            && (c.msg.Distribute? && c.msg.poolId == id ==> Exec(cfg, m, c).Err?)
  {
    if calls != [] {
      var n := |calls| - 1;
      PoolsAreDistributedOnce(cfg, l, calls[..n], id, c);
      if Exec(cfg, Run(cfg, l, calls[..n]), calls[n]).Ok? {
        DistributedStays(cfg, Run(cfg, l, calls[..n]), calls[n], id);
      }
    }
    if c.msg.Distribute? && c.msg.poolId == id && Exec(cfg, Run(cfg, l, calls), c).Ok? {
      DistributedStays(cfg, Run(cfg, l, calls), c, id);
    }
  }
}
