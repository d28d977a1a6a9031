/** What a distribution writes and adds up, and what claims mark, team by team. */
module GamingAwards {
  import opened Chain
  import opened GamingPool
  import opened GamingLaws
  import Sums

  /** The entry of a batch is for this team. */
  predicate Names(w: Winner, t: Team) { w.gamer == t.gamer && w.teamId == t.teamId }

  /** Entry `j` of the batch names the team, and no later one does. */
  predicate NamedLastBy(winners: seq<Winner>, t: Team, j: nat) {
    j < |winners| && Names(winners[j], t) && forall i :: j < i < |winners| ==> !Names(winners[i], t)
  }

  lemma LastMatchNames(cfg: Config, t: Team, winners: seq<Winner>, j: nat)
    requires t.gameId == cfg.gameId
    ensures NamedLastBy(winners, t, j) ==> LastMatch(cfg, t, winners) == Some(j)
    ensures (forall w :: w in winners ==> !Names(w, t)) ==> LastMatch(cfg, t, winners) == None
  {
    LastMatchIsLast(cfg, t, winners);
    var last := LastMatch(cfg, t, winners);
    if last.Some? {
      assert Names(winners[last.value], t);
    }
    if NamedLastBy(winners, t, j) {
      assert Matches(cfg, t, winners[j]);
    }
  }

  /** A distribution writes into a team of its pool the amount of the last entry that names it, and leaves
      every other team as it was. */
  lemma AwardsGoToTheNamed(cfg: Config, l: Lobby, c: Call, k: (string, Addr), i: nat, j: nat)
    requires Coherent(cfg, l) && c.msg.Distribute? && Exec(cfg, l, c).Ok?
    requires k in l.teams && i < |l.teams[k]|
    ensures var m, t := Exec(cfg, l, c).value, l.teams[k][i];
            && m.teams.Keys == l.teams.Keys && |m.teams[k]| == |l.teams[k]|
            && (k.0 == c.msg.poolId && NamedLastBy(c.msg.winners, t, j) ==>
                  m.teams[k][i] == t.(reward := c.msg.winners[j].amount))
            && (k.0 != c.msg.poolId || (forall w :: w in c.msg.winners ==> !Names(w, t)) ==> m.teams[k][i] == t)
  {
    DistributionIsOnePass(cfg, l, c, k, i);
    LastMatchNames(cfg, l.teams[k][i], c.msg.winners, j);
  }

  // The sums that must fit.

  lemma {:induction false} ListedIsTheSum(winners: seq<Winner>)
    ensures Listed(winners) == Sums.SeqSum(winners, (w: Winner) => w.amount)
  {
    if winners != [] {
      ListedIsTheSum(winners[..|winners| - 1]);
    }
  }

  /** What the entries that name a team add up to. */
  function Naming(t: Team): Winner -> int { (w: Winner) => if Names(w, t) then w.amount else 0 }

  function NamedAmount(winners: seq<Winner>): Team -> int { (t: Team) => Sums.SeqSum(winners, Naming(t)) }

  lemma {:induction false} MatchedIsTheSum(cfg: Config, t: Team, winners: seq<Winner>)
    requires t.gameId == cfg.gameId
    ensures Matched(cfg, t, winners) == Sums.SeqSum(winners, Naming(t))
  {
    if winners != [] {
      MatchedIsTheSum(cfg, t, winners[..|winners| - 1]);
    }
  }

  lemma {:induction false} MatchedInIsTheSum(cfg: Config, teams: seq<Team>, winners: seq<Winner>)
    requires forall i :: 0 <= i < |teams| ==> teams[i].gameId == cfg.gameId
    ensures MatchedIn(cfg, teams, winners) == Sums.SeqSum(teams, NamedAmount(winners))
  {
    if teams != [] {
      MatchedInIsTheSum(cfg, teams[..|teams| - 1], winners);
      MatchedIsTheSum(cfg, teams[|teams| - 1], winners);
    }
  }

  /** What a batch counts as given: for every entry, in every team of the entry's gamer, every amount that
      names the team. */
  function CountedFor(l: Lobby, pool: string, winners: seq<Winner>): Winner -> int {
    (w: Winner) => Sums.SeqSum(l.TeamsOf(pool, w.gamer), NamedAmount(winners))
  }

  lemma {:induction false} GivenIsTheSum(cfg: Config, l: Lobby, pool: string, winners: seq<Winner>, visited: seq<Winner>)
    requires WellFiled(cfg, l)
    ensures GivenByPass(cfg, l.teams, pool, winners, visited) == Sums.SeqSum(visited, CountedFor(l, pool, winners))
  {
    if visited != [] {
      var n := |visited| - 1;
      GivenIsTheSum(cfg, l, pool, winners, visited[..n]);
      MatchedInIsTheSum(cfg, l.TeamsOf(pool, visited[n].gamer), winners);
    }
  }

  lemma FeesFit(cfg: Config, amount: nat)
    ensures FeesOf(cfg, amount).Ok? <==> Fits(amount * cfg.platformFee) && Fits(amount * cfg.transactionFee)
  {
  }

  /** When a distribution is accepted: from the admin, in a closed or completed game, for a pool that has not
      had its final batch, when what it lists and what it counts as given fit. */
  lemma DistributionsAreAcceptedExactlyWhen(cfg: Config, l: Lobby, c: Call)
    requires WellFiled(cfg, l) && c.msg.Distribute?
    ensures var m := c.msg;
            Exec(cfg, l, c).Ok? <==>
              && c.sender == cfg.admin && (l.status == Closed || l.status == Completed)
              && m.poolId in l.pools && !l.pools[m.poolId].distributed
              && l.pools[m.poolId].poolType in l.types
              && var fee := l.types[l.pools[m.poolId].poolType].fee;
              && Fits(fee * cfg.platformFee) && Fits(fee * cfg.transactionFee)
              && Fits(Sums.SeqSum(m.winners, (w: Winner) => w.amount))
              && Fits(Sums.SeqSum(m.winners, CountedFor(l, m.poolId, m.winners)))
              && c.totalFits && c.delivered
  {
    ListedIsTheSum(c.msg.winners);
    GivenIsTheSum(cfg, l, c.msg.poolId, c.msg.winners, c.msg.winners);
    if c.msg.poolId in l.pools && l.pools[c.msg.poolId].poolType in l.types {
      FeesFit(cfg, l.types[l.pools[c.msg.poolId].poolType].fee);
    }
  }

  // Claims.

  /** The teams that a claim marks: the gamer's own in the pools with that status. */
  predicate IsMarked(l: Lobby, c: Call, k: (string, Addr))
    requires c.msg.ClaimReward? || c.msg.ClaimRefund?
  {
    && k.1 == c.msg.gamer && k.0 in l.pools
    && if c.msg.ClaimReward? then l.pools[k.0].rewardStatus else l.pools[k.0].refundStatus
  }

  /** An accepted claim of the gamer marks exactly those teams, and changes nothing else: a reward stays
      written where it is paid, and a refund is written as the pool's fee. */
  lemma ClaimsMarkTheirTeams(cfg: Config, l: Lobby, c: Call, k: (string, Addr), i: nat)
    requires (c.msg.ClaimReward? || c.msg.ClaimRefund?) && Exec(cfg, l, c).Ok?
    requires k in l.teams && i < |l.teams[k]|
    ensures var m, t := Exec(cfg, l, c).value, l.teams[k][i];
            && c.sender == c.msg.gamer && c.delivered && (c.msg.ClaimReward? ==> c.feesPaid)
            && m == l.(teams := m.teams) && m.teams.Keys == l.teams.Keys && |m.teams[k]| == |l.teams[k]|
            && m.teams[k][i] == (if !IsMarked(l, c, k) then t
                                 else if c.msg.ClaimReward? then t.(claimedReward := true)
                                 else t.(claimedRefund := true, refund := m.teams[k][i].refund))
            && (c.msg.ClaimRefund? && IsMarked(l, c, k) && l.pools[k.0].poolType in l.types ==>
                  m.teams[k][i].refund == l.types[l.pools[k.0].poolType].fee)
  {
    assert k.0 in l.pools ==> k.0 in PoolKeys(l);
  }
}
