/** Laws of the gaming pool over every run: entry counts are right and freeze when the game leaves
    the open state, rewards exist only in rewarded pools, claims pay what the queries show and
    only once, and a distribution is one pass over the listed teams. */
module GamingLaws {
  import opened Chain
  import opened GamingPool
  import KeyOrder
  import Sums

  // What every reachable state satisfies.

  function CountFor(pool: string): ((string, Addr), seq<Team>) -> int {
    (k: (string, Addr), list: seq<Team>) => if k.0 == pool then |list| else 0
  }

  ghost function TeamsIn(l: Lobby, pool: string): int {
    Sums.Sum<(string, Addr), seq<Team>>(l.teams, CountFor(pool))
  }

  /** Every team is filed under its gamer, in an existing pool. */
  predicate WellFiled(cfg: Config, l: Lobby) {
    forall k :: k in l.teams ==>
      && k.0 in l.pools
      && forall i :: 0 <= i < |l.teams[k]| ==> l.teams[k][i].gamer == k.1 && l.teams[k][i].gameId == cfg.gameId
  }

  /** Pool ids are the counter values handed out so far. */
  ghost predicate Numbered(l: Lobby) {
    forall id :: id in l.pools ==> exists n :: 1 <= n <= l.poolCount && id == KeyOrder.Decimal(n)
  }

  ghost predicate CountsRight(l: Lobby) {
    forall id :: id in l.pools ==> l.pools[id].teamsCount == TeamsIn(l, id)
  }

  predicate RewardsBacked(l: Lobby) {
    forall k, i :: k in l.teams && k.0 in l.pools && 0 <= i < |l.teams[k]| && l.teams[k][i].reward != 0 ==>
      l.pools[k.0].rewardStatus
  }

  predicate OpenIsUnrewarded(l: Lobby) {
    l.status == Open ==> forall id :: id in l.pools ==> !l.pools[id].rewardStatus
  }

  ghost predicate Coherent(cfg: Config, l: Lobby) {
    WellFiled(cfg, l) && Numbered(l) && CountsRight(l) && RewardsBacked(l) && OpenIsUnrewarded(l)
  }

  /** One team later in its life: the same entry, and a claim once made stays made. */
  predicate Later(t: Team, u: Team) {
    && u.gamer == t.gamer && u.teamId == t.teamId && u.gameId == t.gameId
    && (t.claimedReward ==> u.claimedReward)
    && (t.claimedRefund ==> u.claimedRefund)
  }

  /** The same entries, each possibly later in its life. */
  predicate SameEntries(a: map<(string, Addr), seq<Team>>, b: map<(string, Addr), seq<Team>>) {
    && a.Keys == b.Keys
    && forall k :: k in a ==> |a[k]| == |b[k]| && forall i :: 0 <= i < |a[k]| ==> Later(a[k][i], b[k][i])
  }

  /** No entry lost and no claim taken back. */
  predicate EntriesKept(a: map<(string, Addr), seq<Team>>, b: map<(string, Addr), seq<Team>>) {
    forall k :: k in a ==>
      && k in b && |a[k]| <= |b[k]|
      && forall i :: 0 <= i < |a[k]| ==> Later(a[k][i], b[k][i])
  }

  lemma SameEntriesSameCounts(l: Lobby, m: Lobby)
    requires SameEntries(l.teams, m.teams)
    ensures forall id :: TeamsIn(m, id) == TeamsIn(l, id)
  {
    forall id ensures TeamsIn(m, id) == TeamsIn(l, id) {
      Sums.SameTerms<(string, Addr), seq<Team>>(l.teams, m.teams, CountFor(id));
    }
  }

  lemma {:induction false} AwardedKeepsEntry(cfg: Config, t: Team, winners: seq<Winner>)
    ensures Later(t, Awarded(cfg, t, winners))
  {
    AwardedIdentity(cfg, t, winners);
  }

  lemma DistributionKeepsEntries(cfg: Config, l: Lobby, c: Call)
    requires c.msg.Distribute? && Distributing(cfg, l, c).Ok?
    ensures SameEntries(l.teams, Distributing(cfg, l, c).value.teams)
  {
    var m := Distributing(cfg, l, c).value;
    forall k, i | k in l.teams && 0 <= i < |l.teams[k]| ensures Later(l.teams[k][i], m.teams[k][i]) {
      AwardedKeepsEntry(cfg, l.teams[k][i], c.msg.winners);
    }
  }

  /** The same pools with the same counts, in a game that is not open. */
  predicate ClosedLike(l: Lobby, m: Lobby) {
    && m.status != Open && m.pools.Keys == l.pools.Keys
    && forall id :: id in l.pools ==> m.pools[id].teamsCount == l.pools[id].teamsCount
  }

  lemma CancellingKeepsCounts(cfg: Config, l: Lobby, c: Call)
    requires Cancelling(cfg, l, c).Ok?
    ensures ClosedLike(l, Cancelling(cfg, l, c).value)
  {
  }

  lemma DistributingKeepsCounts(cfg: Config, l: Lobby, c: Call)
    requires c.msg.Distribute? && Distributing(cfg, l, c).Ok?
    ensures ClosedLike(l, Distributing(cfg, l, c).value)
  {
  }

  lemma ClosedPoolsKeepCounts(cfg: Config, l: Lobby, c: Call)
    requires l.status != Open && Exec(cfg, l, c).Ok?
    ensures ClosedLike(l, Exec(cfg, l, c).value)
  {
    match c.msg
    case CancelGame => CancellingKeepsCounts(cfg, l, c);
    case Distribute(_, _, _) => DistributingKeepsCounts(cfg, l, c);
    case _ =>
  }

  lemma ClosedTeamsStay(cfg: Config, l: Lobby, c: Call)
    requires l.status != Open && Exec(cfg, l, c).Ok?
    requires !c.msg.Distribute? && !c.msg.ClaimReward? && !c.msg.ClaimRefund?
    ensures Exec(cfg, l, c).value.teams == l.teams
  {
  }

  /** Once the game has left the open state every message keeps the entries. */
  lemma {:induction false} ClosedKeepsEntries(cfg: Config, l: Lobby, c: Call)
    requires l.status != Open && Exec(cfg, l, c).Ok?
    ensures SameEntries(l.teams, Exec(cfg, l, c).value.teams)
    ensures Exec(cfg, l, c).value.status != Open
    ensures Exec(cfg, l, c).value.pools.Keys == l.pools.Keys
    ensures forall id :: id in l.pools ==> Exec(cfg, l, c).value.pools[id].teamsCount == l.pools[id].teamsCount
  {
    ClosedPoolsKeepCounts(cfg, l, c);
    if c.msg.Distribute? {
      DistributionKeepsEntries(cfg, l, c);
    } else if c.msg.ClaimReward? || c.msg.ClaimRefund? {
      SweepsKeepEntries(l, PoolKeys(l), c.msg.gamer);
    } else {
      ClosedTeamsStay(cfg, l, c);
    }
  }

  lemma SameEntriesAreKept(a: map<(string, Addr), seq<Team>>, b: map<(string, Addr), seq<Team>>)
    requires SameEntries(a, b)
    ensures EntriesKept(a, b)
  {
  }

  lemma UntouchedEntriesAreKept(a: map<(string, Addr), seq<Team>>)
    ensures EntriesKept(a, a)
  {
  }

  lemma DistributingKeepsEntries(cfg: Config, l: Lobby, c: Call)
    requires c.msg.Distribute? && Distributing(cfg, l, c).Ok?
    ensures EntriesKept(l.teams, Distributing(cfg, l, c).value.teams)
  {
    DistributionKeepsEntries(cfg, l, c);
    SameEntriesAreKept(l.teams, Distributing(cfg, l, c).value.teams);
  }

  lemma RewardingKeepsEntries(cfg: Config, l: Lobby, c: Call)
    requires c.msg.ClaimReward? && Rewarding(cfg, l, c).Ok?
    ensures EntriesKept(l.teams, Rewarding(cfg, l, c).value.1.teams)
  {
    SweepsKeepEntries(l, PoolKeys(l), c.msg.gamer);
    SameEntriesAreKept(l.teams, RewardSweep(l, PoolKeys(l), c.msg.gamer));
  }

  lemma {:induction false} RefundingKeepsEntries(cfg: Config, l: Lobby, c: Call)
    requires c.msg.ClaimRefund? && Refunding(cfg, l, c).Ok?
    ensures EntriesKept(l.teams, Refunding(cfg, l, c).value.2.teams)
  {
    SweepsKeepEntries(l, PoolKeys(l), c.msg.gamer);
    SameEntriesAreKept(l.teams, RefundSweep(l, PoolKeys(l), c.msg.gamer));
  }

  lemma StepKeepsEntries(cfg: Config, l: Lobby, c: Call)
    requires Exec(cfg, l, c).Ok?
    ensures EntriesKept(l.teams, Exec(cfg, l, c).value.teams)
  {
    match c.msg
    case Bid(_, _, _, _, _) => BiddingKeepsEntries(cfg, l, c);
    case Distribute(_, _, _) => DistributingKeepsEntries(cfg, l, c);
    case ClaimReward(_) => RewardingKeepsEntries(cfg, l, c);
    case ClaimRefund(_) => RefundingKeepsEntries(cfg, l, c);
    case SetPoolType(_, _) => UntouchedEntriesAreKept(l.teams);
    case CancelGame => UntouchedEntriesAreKept(l.teams);
    case LockGame => UntouchedEntriesAreKept(l.teams);
    case CreatePool(_) => UntouchedEntriesAreKept(l.teams);
  }

  lemma BiddingKeepsEntries(cfg: Config, l: Lobby, c: Call)
    requires c.msg.Bid? && Bidding(cfg, l, c).Ok?
    ensures EntriesKept(l.teams, Bidding(cfg, l, c).value.teams)
  {
    var m := Bidding(cfg, l, c).value;
    forall k | k in l.teams
      ensures k in m.teams && |l.teams[k]| <= |m.teams[k]|
      ensures forall i :: 0 <= i < |l.teams[k]| ==> Later(l.teams[k][i], m.teams[k][i])
    {
      assert m.teams[k] == l.teams[k] || m.teams[k][..|l.teams[k]|] == l.teams[k];
    }
  }

  // Coherence, one kind of message at a time.

  lemma CoherentWithSameEntries(cfg: Config, l: Lobby, m: Lobby)
    requires Coherent(cfg, l) && SameEntries(l.teams, m.teams)
    requires m.pools.Keys == l.pools.Keys && m.poolCount == l.poolCount
    requires forall id :: id in l.pools ==> m.pools[id].teamsCount == l.pools[id].teamsCount
    ensures WellFiled(cfg, m) && Numbered(m) && CountsRight(m)
  {
    SameEntriesSameCounts(l, m);
  }

  lemma NextNameIsFresh(l: Lobby)
    requires Numbered(l)
    ensures KeyOrder.Decimal(l.poolCount + 1) !in l.pools
  {
    var id := KeyOrder.Decimal(l.poolCount + 1);
    if id in l.pools {
      var n :| 1 <= n <= l.poolCount && id == KeyOrder.Decimal(n);
      KeyOrder.DecimalInjective(n, l.poolCount + 1);
      assert false;
    }
  }

  lemma CreatingCoherent(cfg: Config, l: Lobby, c: Call)
    requires Coherent(cfg, l) && c.msg.CreatePool? && Creating(cfg, l, c).Ok?
    ensures Coherent(cfg, Creating(cfg, l, c).value)
    ensures KeyOrder.Decimal(l.poolCount + 1) !in l.pools
  {
    var id := KeyOrder.Decimal(l.poolCount + 1);
    var m := Creating(cfg, l, c).value;
    NextNameIsFresh(l);
    Sums.AllZero<(string, Addr), seq<Team>>(l.teams, CountFor(id));
  }

  lemma BiddingCounts(cfg: Config, l: Lobby, c: Call)
    requires CountsRight(l) && c.msg.Bid? && Bidding(cfg, l, c).Ok?
    ensures CountsRight(Bidding(cfg, l, c).value)
  {
    var m := Bidding(cfg, l, c).value;
    var k := (c.msg.poolId, c.msg.gamer);
    forall id | id in m.pools ensures m.pools[id].teamsCount == TeamsIn(m, id) {
      Sums.Update<(string, Addr), seq<Team>>(l.teams, CountFor(id), k, m.teams[k]);
    }
  }

  lemma {:induction false} BiddingFiled(cfg: Config, l: Lobby, c: Call)
    requires WellFiled(cfg, l) && RewardsBacked(l) && OpenIsUnrewarded(l)
    requires c.msg.Bid? && Bidding(cfg, l, c).Ok?
    ensures var m := Bidding(cfg, l, c).value;
            WellFiled(cfg, m) && RewardsBacked(m) && OpenIsUnrewarded(m)
  {
    var m := Bidding(cfg, l, c).value;
    var k := (c.msg.poolId, c.msg.gamer);
    assert forall j :: j in m.teams && j != k ==> j in l.teams && m.teams[j] == l.teams[j];
    assert forall i :: 0 <= i < |l.TeamsOf(k.0, k.1)| ==> m.teams[k][i] == l.TeamsOf(k.0, k.1)[i];
    forall i | 0 <= i < |m.teams[k]|
      ensures m.teams[k][i].gamer == k.1 && m.teams[k][i].gameId == cfg.gameId && m.teams[k][i].reward == 0
    {
      if i < |l.TeamsOf(k.0, k.1)| {
        assert k in l.teams && !l.pools[k.0].rewardStatus;
      }
    }
  }

  lemma BiddingCoherent(cfg: Config, l: Lobby, c: Call)
    requires Coherent(cfg, l) && c.msg.Bid? && Bidding(cfg, l, c).Ok?
    ensures Coherent(cfg, Bidding(cfg, l, c).value)
  {
    BiddingCounts(cfg, l, c);
    BiddingFiled(cfg, l, c);
  }

  lemma {:induction false} DistributingCoherent(cfg: Config, l: Lobby, c: Call)
    requires Coherent(cfg, l) && c.msg.Distribute? && Distributing(cfg, l, c).Ok?
    ensures Coherent(cfg, Distributing(cfg, l, c).value)
  {
    DistributionKeepsEntries(cfg, l, c);
    CoherentWithSameEntries(cfg, l, Distributing(cfg, l, c).value);
  }

  lemma {:induction false} SweepsKeepEntries(l: Lobby, keys: seq<string>, gamer: Addr)
    ensures SameEntries(l.teams, RewardSweep(l, keys, gamer))
    ensures SameEntries(l.teams, RefundSweep(l, keys, gamer))
  {
  }

  lemma SweepKeepsRewards(l: Lobby, keys: seq<string>, gamer: Addr)
    requires RewardsBacked(l)
    ensures RewardsBacked(l.(teams := RewardSweep(l, keys, gamer)))
    ensures RewardsBacked(l.(teams := RefundSweep(l, keys, gamer)))
  {
  }

  lemma RewardingCoherent(cfg: Config, l: Lobby, c: Call)
    requires Coherent(cfg, l) && c.msg.ClaimReward? && Rewarding(cfg, l, c).Ok?
    ensures Coherent(cfg, Rewarding(cfg, l, c).value.1)
  {
    SweptCoherent(cfg, l, l.(teams := RewardSweep(l, PoolKeys(l), c.msg.gamer)), c.msg.gamer);
  }

  lemma {:induction false} RefundingCoherent(cfg: Config, l: Lobby, c: Call)
    requires Coherent(cfg, l) && c.msg.ClaimRefund? && Refunding(cfg, l, c).Ok?
    ensures Coherent(cfg, Refunding(cfg, l, c).value.2)
  {
    SweptCoherent(cfg, l, l.(teams := RefundSweep(l, PoolKeys(l), c.msg.gamer)), c.msg.gamer);
  }

  lemma SweptCoherent(cfg: Config, l: Lobby, m: Lobby, gamer: Addr)
    requires Coherent(cfg, l)
    requires m == l.(teams := RewardSweep(l, PoolKeys(l), gamer)) || m == l.(teams := RefundSweep(l, PoolKeys(l), gamer))
    ensures Coherent(cfg, m)
  {
    SweepsKeepEntries(l, PoolKeys(l), gamer);
    SweepKeepsRewards(l, PoolKeys(l), gamer);
    CoherentWithSameEntries(cfg, l, m);
  }

  lemma {:induction false} FlaggingCoherent(cfg: Config, l: Lobby, status: Status, keys: seq<string>, onlyUnderfilled: bool)
    requires Coherent(cfg, l) && status != Open
    ensures Coherent(cfg, l.(status := status, pools := Flagged(l, keys, onlyUnderfilled)))
  {
    CoherentWithSameEntries(cfg, l, l.(status := status, pools := Flagged(l, keys, onlyUnderfilled)));
  }

  /** Every message keeps the state coherent. */
  lemma {:induction false} ExecCoherent(cfg: Config, l: Lobby, c: Call)
    requires Coherent(cfg, l) && Exec(cfg, l, c).Ok?
    ensures Coherent(cfg, Exec(cfg, l, c).value)
  {
    match c.msg
    case CreatePool(_) => CreatingCoherent(cfg, l, c);
    case Bid(_, _, _, _, _) => BiddingCoherent(cfg, l, c);
    case Distribute(_, _, _) => DistributingCoherent(cfg, l, c);
    case SetPoolType(_, _) => CoherentWithSameEntries(cfg, l, Exec(cfg, l, c).value);
    case CancelGame => FlaggingCoherent(cfg, l, Cancelled, PoolKeys(l), false);
    case LockGame => FlaggingCoherent(cfg, l, Closed, PoolKeys(l), true);
    case ClaimReward(_) => RewardingCoherent(cfg, l, c);
    case ClaimRefund(_) => RefundingCoherent(cfg, l, c);
  }

  lemma {:induction false} EveryReachableStateIsCoherent(cfg: Config, calls: seq<Call>)
    ensures Coherent(cfg, Run(cfg, GENESIS, calls))
  {
    if calls != [] {
      var n := |calls| - 1;
      EveryReachableStateIsCoherent(cfg, calls[..n]);
      if Exec(cfg, Run(cfg, GENESIS, calls[..n]), calls[n]).Ok? {
        ExecCoherent(cfg, Run(cfg, GENESIS, calls[..n]), calls[n]);
      }
    }
  }

  /** Leaving the open state is final, and with it the pools, their counts and their entries. */
  lemma {:induction false} ClosedGamesAreFrozen(cfg: Config, l: Lobby, calls: seq<Call>)
    requires l.status != Open
    ensures var m := Run(cfg, l, calls);
            && m.status != Open
            && SameEntries(l.teams, m.teams)
            && m.pools.Keys == l.pools.Keys
            && forall id :: id in l.pools ==> m.pools[id].teamsCount == l.pools[id].teamsCount
  {
    if calls != [] {
      var n := |calls| - 1;
      ClosedGamesAreFrozen(cfg, l, calls[..n]);
      if Exec(cfg, Run(cfg, l, calls[..n]), calls[n]).Ok? {
        ClosedKeepsEntries(cfg, Run(cfg, l, calls[..n]), calls[n]);
      }
    }
  }

  /** No message ever takes a claim back or loses an entry. */
  lemma {:induction false} ClaimsAreNeverTakenBack(cfg: Config, l: Lobby, calls: seq<Call>)
    ensures EntriesKept(l.teams, Run(cfg, l, calls).teams)
  {
    if calls != [] {
      var n := |calls| - 1;
      ClaimsAreNeverTakenBack(cfg, l, calls[..n]);
      if Exec(cfg, Run(cfg, l, calls[..n]), calls[n]).Ok? {
        StepKeepsEntries(cfg, Run(cfg, l, calls[..n]), calls[n]);
      }
    }
  }

  // Claims against queries.

  predicate Owned(list: seq<Team>, gamer: Addr) {
    forall i :: 0 <= i < |list| ==> list[i].gamer == gamer
  }

  lemma {:induction false} ShownIsUnclaimed(list: seq<Team>, gamer: Addr)
    requires Owned(list, gamer)
    ensures RewardsShown(list, gamer) == Unclaimed(list)
  {
    if list != [] {
      ShownIsUnclaimed(list[..|list| - 1], gamer);
    }
  }

  lemma {:induction false} NothingUnclaimed(list: seq<Team>)
    requires forall i :: 0 <= i < |list| ==> list[i].claimedReward || list[i].reward == 0
    ensures Unclaimed(list) == 0
  {
    if list != [] {
      NothingUnclaimed(list[..|list| - 1]);
    }
  }

  lemma TeamsOwned(cfg: Config, l: Lobby, pool: string, gamer: Addr)
    requires WellFiled(cfg, l)
    ensures Owned(l.TeamsOf(pool, gamer), gamer)
  {
  }

  lemma UnrewardedPoolsShowNothing(l: Lobby, pool: string, gamer: Addr)
    requires RewardsBacked(l) && pool in l.pools && !l.pools[pool].rewardStatus
    ensures Unclaimed(l.TeamsOf(pool, gamer)) == 0
  {
    NothingUnclaimed(l.TeamsOf(pool, gamer));
  }

  /** The query, which looks at every pool, shows what a claim, which looks at rewarded pools
      only, collects. */
  lemma {:induction false} DueIsShown(cfg: Config, l: Lobby, keys: seq<string>, gamer: Addr)
    requires Coherent(cfg, l) && forall i :: 0 <= i < |keys| ==> keys[i] in l.pools
    ensures RewardDue(l, keys, gamer) == QueryReward(l, keys, gamer)
  {
    if keys != [] {
      var n := |keys| - 1;
      DueIsShown(cfg, l, keys[..n], gamer);
      TeamsOwned(cfg, l, keys[n], gamer);
      ShownIsUnclaimed(l.TeamsOf(keys[n], gamer), gamer);
      if !l.pools[keys[n]].rewardStatus {
        UnrewardedPoolsShowNothing(l, keys[n], gamer);
      }
    }
  }

  lemma SweptPoolDueIsZero(l: Lobby, pool: string, gamer: Addr)
    requires pool in l.pools
    ensures RewardIn(l.(teams := RewardSweep(l, PoolKeys(l), gamer)), pool, gamer) == 0
  {
    var m := l.(teams := RewardSweep(l, PoolKeys(l), gamer));
    if l.pools[pool].rewardStatus {
      NothingUnclaimed(m.TeamsOf(pool, gamer));
    }
  }

  lemma {:induction false} SweptDueIsZero(l: Lobby, keys: seq<string>, gamer: Addr)
    requires forall i :: 0 <= i < |keys| ==> keys[i] in l.pools
    ensures RewardDue(l.(teams := RewardSweep(l, PoolKeys(l), gamer)), keys, gamer) == 0
  {
    if keys != [] {
      SweptDueIsZero(l, keys[..|keys| - 1], gamer);
      SweptPoolDueIsZero(l, keys[|keys| - 1], gamer);
    }
  }

  /** A reward claim succeeds exactly when the query shows something and the fees are right; it
      pays exactly what the query showed, and the query then shows nothing. */
  lemma {:induction false} RewardClaimsMatchTheQuery(cfg: Config, l: Lobby, c: Call)
    requires Coherent(cfg, l) && c.msg.ClaimReward?
    ensures var shown := QueryReward(l, PoolKeys(l), c.msg.gamer);
            && (Rewarding(cfg, l, c).Ok? <==>
                  c.sender == c.msg.gamer && 0 < shown <= U128_MAX && c.feesPaid && c.delivered)
            && (Rewarding(cfg, l, c).Ok? ==>
                  && Rewarding(cfg, l, c).value.0 == shown
                  && QueryReward(Exec(cfg, l, c).value, PoolKeys(Exec(cfg, l, c).value), c.msg.gamer) == 0)
  {
    var gamer := c.msg.gamer;
    DueIsShown(cfg, l, PoolKeys(l), gamer);
    if Rewarding(cfg, l, c).Ok? {
      var m := Exec(cfg, l, c).value;
      ExecCoherent(cfg, l, c);
      SweptDueIsZero(l, PoolKeys(l), gamer);
      DueIsShown(cfg, m, PoolKeys(m), gamer);
    }
  }

  lemma {:induction false} RefundsShownCount(list: seq<Team>, gamer: Addr)
    requires Owned(list, gamer)
    ensures RefundsShown(list, gamer) <= |list|
    ensures !AnyRefunded(list) ==> RefundsShown(list, gamer) == |list|
    ensures (forall i :: 0 <= i < |list| ==> list[i].claimedRefund) ==> RefundsShown(list, gamer) == 0
  {
    if list != [] {
      var n := |list| - 1;
      RefundsShownCount(list[..n], gamer);
      assert list[n].claimedRefund ==> AnyRefunded(list);
      if AnyRefunded(list[..n]) {
        var i :| 0 <= i < n && list[..n][i].claimedRefund;
        assert list[i].claimedRefund;
      }
    }
  }

  /** In some refundable pool a team of the gamer has been refunded before. */
  predicate Blocked(l: Lobby, keys: seq<string>, gamer: Addr) {
    exists i :: 0 <= i < |keys| && keys[i] in l.pools && l.pools[keys[i]].refundStatus
                && AnyRefunded(l.TeamsOf(keys[i], gamer))
  }

  /** Where the refund walk gets through, it adds up what the query shows; and where the query gets
      through, the walk fails only on a team refunded before. */
  lemma {:induction false} RefundDueIsShown(cfg: Config, l: Lobby, keys: seq<string>, gamer: Addr)
    requires WellFiled(cfg, l)
    ensures RefundDue(l, keys, gamer).Ok? ==> QueryRefund(l, keys, gamer).Ok?
    ensures RefundDue(l, keys, gamer).Ok? ==> RefundDue(l, keys, gamer).value == QueryRefund(l, keys, gamer).value
    ensures QueryRefund(l, keys, gamer).Ok? ==> (RefundDue(l, keys, gamer).Ok? <==> !Blocked(l, keys, gamer))
  {
    if keys != [] {
      var n := |keys| - 1;
      RefundDueIsShown(cfg, l, keys[..n], gamer);
      TeamsOwned(cfg, l, keys[n], gamer);
      RefundsShownCount(l.TeamsOf(keys[n], gamer), gamer);
      BlockedNext(l, keys, gamer);
    }
  }

  lemma BlockedNext(l: Lobby, keys: seq<string>, gamer: Addr)
    requires keys != []
    ensures var last := keys[|keys| - 1];
            Blocked(l, keys, gamer) <==>
              || Blocked(l, keys[..|keys| - 1], gamer)
              || (last in l.pools && l.pools[last].refundStatus && AnyRefunded(l.TeamsOf(last, gamer)))
  {
    var shorter := keys[..|keys| - 1];
    assert forall i :: 0 <= i < |shorter| ==> shorter[i] == keys[i];
  }

  lemma RefundMarkedTeams(l: Lobby, pool: string, gamer: Addr)
    requires pool in l.pools && l.pools[pool].refundStatus
    ensures l.(teams := RefundSweep(l, PoolKeys(l), gamer)).TeamsOf(pool, gamer)
            == RefundMarked(l.TeamsOf(pool, gamer), RefundFee(l, pool))
  {
  }

  lemma RefundedPoolShowsNothing(cfg: Config, l: Lobby, pool: string, gamer: Addr)
    requires WellFiled(cfg, l) && RefundIn(l, pool, gamer).Ok?
    ensures var m := l.(teams := RefundSweep(l, PoolKeys(l), gamer));
            RefundShownIn(m, pool, gamer) == Ok(0)
  {
    if pool in l.pools && l.pools[pool].refundStatus {
      var m := l.(teams := RefundSweep(l, PoolKeys(l), gamer));
      TeamsOwned(cfg, l, pool, gamer);
      RefundMarkedTeams(l, pool, gamer);
      RefundsShownCount(m.TeamsOf(pool, gamer), gamer);
    }
  }

  lemma {:induction false} RefundedShowsNothing(cfg: Config, l: Lobby, keys: seq<string>, gamer: Addr)
    requires WellFiled(cfg, l) && RefundDue(l, keys, gamer).Ok?
    ensures var m := l.(teams := RefundSweep(l, PoolKeys(l), gamer));
            QueryRefund(m, keys, gamer).Ok? && QueryRefund(m, keys, gamer).value == 0
  {
    if keys != [] {
      RefundedShowsNothing(cfg, l, keys[..|keys| - 1], gamer);
      RefundedPoolShowsNothing(cfg, l, keys[|keys| - 1], gamer);
    }
  }

  lemma SettledRefunds(cfg: Config, l: Lobby, m: Lobby, keys: seq<string>, gamer: Addr)
    requires WellFiled(cfg, l) && keys == PoolKeys(l) && RefundDue(l, keys, gamer).Ok?
    requires m == l.(teams := RefundSweep(l, keys, gamer))
    ensures QueryRefund(l, keys, gamer).Ok?
    ensures RefundDue(l, keys, gamer).value == QueryRefund(l, keys, gamer).value
    ensures QueryRefund(m, keys, gamer).Ok? && QueryRefund(m, keys, gamer).value == 0
  {
    RefundDueIsShown(cfg, l, keys, gamer);
    RefundedShowsNothing(cfg, l, keys, gamer);
  }

  /** A refund claim that succeeds settles exactly what the query showed, and the query then shows
      nothing. What it sends to the gamer is the two fee percentages of it, less than two units below
      the exact share. */
  lemma RefundClaimsMatchTheQuery(cfg: Config, l: Lobby, c: Call)
    requires WellFiled(cfg, l) && c.msg.ClaimRefund? && Refunding(cfg, l, c).Ok?
    ensures QueryRefund(l, PoolKeys(l), c.msg.gamer).Ok?
    ensures var shown, sent := QueryRefund(l, PoolKeys(l), c.msg.gamer).value, Refunding(cfg, l, c).value.1;
            && Refunding(cfg, l, c).value.0 == shown > 0
            && sent * HUNDRED_PERCENT <= shown * (cfg.platformFee + cfg.transactionFee)
            && shown * (cfg.platformFee + cfg.transactionFee) < (sent + 2) * HUNDRED_PERCENT
    ensures var m := Refunding(cfg, l, c).value.2;
            QueryRefund(m, PoolKeys(m), c.msg.gamer).Ok? && QueryRefund(m, PoolKeys(m), c.msg.gamer).value == 0
  {
    var keys, m := PoolKeys(l), Refunding(cfg, l, c).value.2;
    assert m.pools == l.pools;
    SettledRefunds(cfg, l, m, keys, c.msg.gamer);
    FeesAreTheirShare(cfg, Refunding(cfg, l, c).value.0);
  }

  lemma FeesAreTheirShare(cfg: Config, amount: nat)
    requires FeesOf(cfg, amount).Ok?
    ensures var fee := FeesOf(cfg, amount).value;
            && fee * HUNDRED_PERCENT <= amount * (cfg.platformFee + cfg.transactionFee)
            && amount * (cfg.platformFee + cfg.transactionFee) < (fee + 2) * HUNDRED_PERCENT
  {
    assert amount * (cfg.platformFee + cfg.transactionFee) == amount * cfg.platformFee + amount * cfg.transactionFee;
  }

  lemma RefundingNeedsTheDue(cfg: Config, l: Lobby, c: Call)
    requires c.msg.ClaimRefund? && c.sender == c.msg.gamer && c.delivered
    ensures RefundDue(l, PoolKeys(l), c.msg.gamer).Err? ==> Refunding(cfg, l, c).Err?
    ensures match RefundDue(l, PoolKeys(l), c.msg.gamer)
            case Err(_) => true
            case Ok(due) => 0 < due <= U128_MAX && FeesOf(cfg, due).Ok? ==> Refunding(cfg, l, c).Ok?
  {
  }

  /** What the query shows can be claimed exactly when no team of the gamer in a refundable pool
      has been refunded before. */
  lemma {:induction false} RefundsShownAreClaimableUnlessBlocked(cfg: Config, l: Lobby, c: Call)
    requires Coherent(cfg, l) && c.msg.ClaimRefund? && c.sender == c.msg.gamer && c.delivered
    requires QueryRefund(l, PoolKeys(l), c.msg.gamer).Ok?
    requires var shown := QueryRefund(l, PoolKeys(l), c.msg.gamer).value;
             0 < shown <= U128_MAX && FeesOf(cfg, shown).Ok?
    ensures Refunding(cfg, l, c).Ok? <==> !Blocked(l, PoolKeys(l), c.msg.gamer)
    ensures Blocked(l, PoolKeys(l), c.msg.gamer) ==> Exec(cfg, l, c).Err?
  {
    RefundDueIsShown(cfg, l, PoolKeys(l), c.msg.gamer);
    RefundingNeedsTheDue(cfg, l, c);
  }

  // Distribution.

  /** The last entry that matches the team, if any. */
  function LastMatch(cfg: Config, t: Team, winners: seq<Winner>): (r: Option<nat>)
    ensures r.Some? ==> r.value < |winners|
  {
    if winners == [] then None
    else if Matches(cfg, t, winners[|winners| - 1]) then Some(|winners| - 1)
    else LastMatch(cfg, t, winners[..|winners| - 1])
  }

  lemma {:induction false} LastMatchIsLast(cfg: Config, t: Team, winners: seq<Winner>)
    ensures match LastMatch(cfg, t, winners)
            case None => forall i :: 0 <= i < |winners| ==> !Matches(cfg, t, winners[i])
            case Some(k) => k < |winners| && Matches(cfg, t, winners[k])
                            && forall i :: k < i < |winners| ==> !Matches(cfg, t, winners[i])
    ensures Awarded(cfg, t, winners) ==
              match LastMatch(cfg, t, winners)
              case None => t
              case Some(k) => t.(reward := winners[k].amount)
  {
    if winners != [] {
      LastMatchIsLast(cfg, t, winners[..|winners| - 1]);
      AwardedIdentity(cfg, t, winners[..|winners| - 1]);
    }
  }

  lemma AwardPassIsLastMatch(cfg: Config, teams: map<(string, Addr), seq<Team>>, pool: string,
                             winners: seq<Winner>, k: (string, Addr), i: nat)
    requires k in teams && i < |teams[k]| && teams[k][i].gamer == k.1
    ensures var after := AwardPass(cfg, teams, pool, winners, winners);
            var t := teams[k][i];
            && |after[k]| == |teams[k]|
            && after[k][i] ==
                 match (if k.0 == pool then LastMatch(cfg, t, winners) else None)
                 case None => t
                 case Some(j) => t.(reward := winners[j].amount)
  {
    LastMatchIsLast(cfg, teams[k][i], winners);
    if LastMatch(cfg, teams[k][i], winners).Some? {
      assert winners[LastMatch(cfg, teams[k][i], winners).value].gamer == k.1;
      assert Mentions(winners, k.1);
    }
  }

  /** The triple loop is one pass: in the pool it is for, every team gets the amount of its last
      matching entry, also when gamers repeat in the list; nothing else changes. */
  lemma DistributionIsOnePass(cfg: Config, l: Lobby, c: Call, k: (string, Addr), i: nat)
    requires Coherent(cfg, l) && c.msg.Distribute? && Exec(cfg, l, c).Ok?
    requires k in l.teams && i < |l.teams[k]|
    ensures var m := Exec(cfg, l, c).value;
            var t := l.teams[k][i];
            && m.teams.Keys == l.teams.Keys && k in m.teams && |m.teams[k]| == |l.teams[k]|
            && m.teams[k][i] ==
                 match (if k.0 == c.msg.poolId then LastMatch(cfg, t, c.msg.winners) else None)
                 case None => t
                 case Some(j) => t.(reward := c.msg.winners[j].amount)
  {
    DistributedTeams(cfg, l, c);
    AwardPassIsLastMatch(cfg, l.teams, c.msg.poolId, c.msg.winners, k, i);
  }

  lemma DistributedTeams(cfg: Config, l: Lobby, c: Call)
    requires c.msg.Distribute? && Exec(cfg, l, c).Ok?
    ensures Exec(cfg, l, c).value.teams == AwardPass(cfg, l.teams, c.msg.poolId, c.msg.winners, c.msg.winners)
  {
  }
}
