/** No due stake is lost by scheduling: when nobody is listed twice between two final batches, every
    listed stake has started when its batch comes, so no distribution shortens a list. */
module ClubSchedule {
  import opened Chain
  import opened ClubStaking
  import opened ClubDistribution
  import opened ClubOwners
  import opened ClubLedger

  // The window between final batches.

  /** Club and staker of every stake listed since the last final batch. */
  function Listed(cfg: Config, s: Storage, calls: seq<Call>): set<Key> {
    if calls == [] then {} else
      var n := |calls| - 1;
      ListedNext(cfg, Run(cfg, s, calls[..n]), calls[n], Listed(cfg, s, calls[..n]))
  }

  function ListedNext(cfg: Config, s: Storage, c: Call, listed: set<Key>): set<Key> {
    if !c.msg.Distribute? || Exec(cfg, s, c).Err? then listed
    else if c.msg.isFinal then {}
    else if s.reward == 0 then listed
    else listed + set u | u in c.msg.stakers :: (c.msg.club, u)
  }

  predicate ListsFreshly(c: Call, listed: set<Key>)
    requires c.msg.Distribute?
  {
    Distinct(c.msg.stakers) && forall u :: u in c.msg.stakers ==> (c.msg.club, u) !in listed
  }

  /** Nobody is listed twice between final batches. */
  predicate OnceEach(cfg: Config, s: Storage, calls: seq<Call>) {
    calls == [] ||
    var n := |calls| - 1;
    && OnceEach(cfg, s, calls[..n])
    && (PaysBatch(cfg, Run(cfg, s, calls[..n]), calls[n]) ==> ListsFreshly(calls[n], Listed(cfg, s, calls[..n])))
  }

  function Latest(calls: seq<Call>): nat {
    if calls == [] then 0 else calls[|calls| - 1].now
  }

  predicate Ordered(calls: seq<Call>) {
    forall i, j :: 0 <= i < j < |calls| ==> calls[i].now <= calls[j].now
  }

  // When stakes start.

  /** A stake starts by now or by the next reward time; one listed in a late window starts exactly
      one period after it. */
  predicate StartFits(cfg: Config, start: nat, now: nat, nextTime: nat, listed: bool) {
    start <= now || start <= nextTime ||
    (listed && nextTime < now && start == nextTime + cfg.rewardPeriodicity * NANOS)
  }

  predicate ListFits(cfg: Config, list: seq<Stake>, now: nat, nextTime: nat, listed: bool) {
    forall i :: 0 <= i < |list| ==> StartFits(cfg, list[i].start, now, nextTime, listed)
  }

  predicate OnTime(cfg: Config, s: Storage, now: nat, listed: set<Key>) {
    forall k :: k in s.stakes ==> ListFits(cfg, s.stakes[k], now, s.nextTime, k in listed)
  }

  predicate SameStarts(a: seq<Stake>, b: seq<Stake>) {
    |a| == |b| && forall i :: 0 <= i < |a| ==> a[i].start == b[i].start
  }

  lemma {:induction false} UpdatingKeepsStarts(list: seq<Stake>, staker: Addr, amount: nat, auto: bool, increase: bool)
    requires UpdatedStakes(list, staker, amount, auto, increase).Ok?
    ensures SameStarts(list, UpdatedStakes(list, staker, amount, auto, increase).value)
  {
    if list != [] {
      UpdatingKeepsStarts(list[..|list| - 1], staker, amount, auto, increase);
    }
  }

  lemma SavingKeepsTime(cfg: Config, s: Storage, now: nat, staker: Addr, club: string, amount: nat, auto: bool,
                        increase: bool, listed: set<Key>)
    requires OnTime(cfg, s, now, listed) && SaveStaking(s, now, staker, club, amount, auto, increase).Ok?
    ensures var t := SaveStaking(s, now, staker, club, amount, auto, increase).value;
            t.nextTime == s.nextTime && OnTime(cfg, t, now, listed)
  {
    UpdatingKeepsStarts(s.StakesOf(club, staker), staker, amount, auto, increase);
  }

  lemma {:induction false} AssigningKeepsTime(cfg: Config, s: Storage, now: nat, list: seq<Assigned>, club: string,
                                              listed: set<Key>)
    requires OnTime(cfg, s, now, listed) && AssignAll(s, now, list, club).Ok?
    ensures var t := AssignAll(s, now, list, club).value;
            t.nextTime == s.nextTime && OnTime(cfg, t, now, listed)
  {
    if list != [] {
      var n := |list| - 1;
      AssigningKeepsTime(cfg, s, now, list[..n], club, listed);
      var before := AssignAll(s, now, list[..n], club).value;
      SavingKeepsTime(cfg, before, now, list[n].staker, club, list[n].amount, list[n].auto, true, listed);
    }
  }

  // A batch in time.

  predicate AllDue(list: seq<Stake>, now: nat) {
    forall i :: 0 <= i < |list| ==> list[i].start <= now
  }

  predicate AllStart(list: seq<Stake>, start: Option<nat>) {
    forall i :: 0 <= i < |list| ==> start == Some(list[i].start)
  }

  lemma {:induction false} DueListKeepsLength(sh: Shares, list: seq<Stake>, given: nat, added: nat)
    requires AllDue(list, sh.now) && RewardList(sh, list, given, added).Ok?
    ensures var b := RewardList(sh, list, given, added).value;
            |b.list| == |list| && AllStart(b.list, sh.newStart)
    ensures NotDue(list, sh.now) == []
  {
    if list != [] {
      DueListKeepsLength(sh, list[..|list| - 1], given, added);
    }
  }

  /** The lists after a batch, against those before it. */
  predicate Restarted(before: map<Key, seq<Stake>>, after: map<Key, seq<Stake>>, club: string, stakers: seq<Addr>,
                      start: Option<nat>) {
    && (forall k :: k in before ==> k in after)
    && (forall k :: k in after ==>
          && |after[k]| == |Get(before, k, [])|
          && (if k.0 == club && k.1 in stakers then AllStart(after[k], start) else after[k] == Get(before, k, [])))
  }

  lemma RestartedNext(before: map<Key, seq<Stake>>, after: map<Key, seq<Stake>>, club: string, stakers: seq<Addr>,
                      start: Option<nat>, list: seq<Stake>)
    requires stakers != []
    requires Restarted(before, after, club, stakers[..|stakers| - 1], start)
    requires stakers[|stakers| - 1] !in stakers[..|stakers| - 1]
    requires |list| == |Get(before, (club, stakers[|stakers| - 1]), [])| && AllStart(list, start)
    ensures Restarted(before, after[(club, stakers[|stakers| - 1]) := list], club, stakers, start)
  {
    var n := |stakers| - 1;
    assert forall u :: u in stakers <==> u in stakers[..n] || u == stakers[n];
  }

  lemma {:induction false} DueBatchDropsNothing(sh: Shares, stakes: map<Key, seq<Stake>>, club: string, stakers: seq<Addr>)
    requires Distinct(stakers) && RewardStakers(sh, stakes, club, stakers).Ok?
    requires forall u :: u in stakers ==> AllDue(Get(stakes, (club, u), []), sh.now)
    ensures Dropped(sh, stakes, club, stakers) == []
    ensures Restarted(stakes, RewardStakers(sh, stakes, club, stakers).value.stakes, club, stakers, sh.newStart)
  {
    if stakers != [] {
      var n := |stakers| - 1;
      DueBatchDropsNothing(sh, stakes, club, stakers[..n]);
      var p := RewardStakers(sh, stakes, club, stakers[..n]).value;
      var key := (club, stakers[n]);
      assert stakers[n] !in stakers[..n];
      assert stakers[n] in stakers;
      assert Get(p.stakes, key, []) == Get(stakes, key, []);
      DueListKeepsLength(sh, Get(stakes, key, []), p.given, p.added);
      RestartedNext(stakes, p.stakes, club, stakers, sh.newStart,
                    RewardList(sh, Get(stakes, key, []), p.given, p.added).value.list);
    }
  }

  /** Who is listed for the first time in the window is due whenever a batch may come. */
  lemma FreshlyListedAreDue(cfg: Config, s: Storage, now: nat, listed: set<Key>, k: Key)
    requires OnTime(cfg, s, now, listed) && k !in listed && s.nextTime <= now
    ensures AllDue(Get(s.stakes, k, []), now)
  {
    if k in s.stakes {
      assert ListFits(cfg, s.stakes[k], now, s.nextTime, k in listed);
    }
  }

  /** The storage after a paid batch, as far as scheduling goes. */
  lemma BatchKeepsTime(cfg: Config, s: Storage, c: Call, listed: set<Key>)
    requires OnTime(cfg, s, c.now, listed) && PaysBatch(cfg, s, c) && ListsFreshly(c, listed)
    ensures DroppedBy(cfg, s, c) == []
    ensures var start := NewStart(cfg, s.nextTime, c.now);
            Restarted(s.stakes, Exec(cfg, s, c).value.stakes, c.msg.club, c.msg.stakers, start)
  {
    SharesOfABatch(cfg, s, c);
    BatchIsPaid(cfg, s, c);
    var sh := BatchShares(cfg, s, c);
    forall u | u in c.msg.stakers ensures AllDue(Get(s.stakes, (c.msg.club, u), []), c.now) {
      FreshlyListedAreDue(cfg, s, c.now, listed, (c.msg.club, u));
    }
    DueBatchDropsNothing(sh, s.stakes, c.msg.club, c.msg.stakers);
  }

  /** One list after a paid batch. */
  lemma {:induction false} ListKeepsTime(cfg: Config, s: Storage, c: Call, listed: set<Key>, k: Key)
    requires OnTime(cfg, s, c.now, listed) && PaysBatch(cfg, s, c)
    requires k in Exec(cfg, s, c).value.stakes && s.nextTime <= c.now
    requires Restarted(s.stakes, Exec(cfg, s, c).value.stakes, c.msg.club, c.msg.stakers, NewStart(cfg, s.nextTime, c.now))
    requires NextTime(cfg, s, c.now, c.msg.isFinal) == Ok(Exec(cfg, s, c).value.nextTime)
    ensures var t := Exec(cfg, s, c).value;
            ListFits(cfg, t.stakes[k], c.now, t.nextTime, k in ListedNext(cfg, s, c, listed))
  {
    var list := Exec(cfg, s, c).value.stakes[k];
    if k.0 == c.msg.club && k.1 in c.msg.stakers {
      assert c.msg.isFinal || k in ListedNext(cfg, s, c, listed);
      assert AllStart(list, NewStart(cfg, s.nextTime, c.now));
    } else {
      assert list == Get(s.stakes, k, []);
      assert k in s.stakes ==> ListFits(cfg, s.stakes[k], c.now, s.nextTime, k in listed);
    }
  }

  lemma PayingKeepsTime(cfg: Config, s: Storage, c: Call, listed: set<Key>)
    requires OnTime(cfg, s, c.now, listed) && PaysBatch(cfg, s, c) && ListsFreshly(c, listed)
    ensures OnTime(cfg, Exec(cfg, s, c).value, c.now, ListedNext(cfg, s, c, listed))
  {
    BatchKeepsTime(cfg, s, c, listed);
    BatchSettles(cfg, s, c);
    SharesOfABatch(cfg, s, c);
    var t := Exec(cfg, s, c).value;
    forall k | k in t.stakes
      ensures ListFits(cfg, t.stakes[k], c.now, t.nextTime, k in ListedNext(cfg, s, c, listed))
    {
      ListKeepsTime(cfg, s, c, listed, k);
    }
  }

  lemma EmptyBatchKeepsTime(cfg: Config, s: Storage, c: Call, listed: set<Key>)
    requires OnTime(cfg, s, c.now, listed) && c.msg.Distribute? && Exec(cfg, s, c).Ok? && s.reward == 0
    ensures OnTime(cfg, Exec(cfg, s, c).value, c.now, ListedNext(cfg, s, c, listed))
  {
    EmptyBatch(cfg, s, c);
  }

  lemma DistributingKeepsTime(cfg: Config, s: Storage, c: Call, listed: set<Key>)
    requires OnTime(cfg, s, c.now, listed) && c.msg.Distribute? && Exec(cfg, s, c).Ok?
    requires PaysBatch(cfg, s, c) ==> ListsFreshly(c, listed)
    ensures OnTime(cfg, Exec(cfg, s, c).value, c.now, ListedNext(cfg, s, c, listed))
    ensures DroppedBy(cfg, s, c) == []
  {
    if s.reward == 0 {
      EmptyBatchKeepsTime(cfg, s, c, listed);
    } else {
      PayingKeepsTime(cfg, s, c, listed);
      BatchKeepsTime(cfg, s, c, listed);
    }
  }

  lemma {:induction false} OthersKeepTime(cfg: Config, s: Storage, c: Call, listed: set<Key>)
    requires OnTime(cfg, s, c.now, listed) && !c.msg.Distribute? && Exec(cfg, s, c).Ok?
    ensures OnTime(cfg, Exec(cfg, s, c).value, c.now, listed)
  {
    match c.msg
    case StakeOnAClub(staker, club, amount, auto) =>
      SavingKeepsTime(cfg, s, c.now, staker, club, amount, auto, true, listed);
    case AssignStakes(list, club) => AssigningKeepsTime(cfg, s, c.now, list, club, listed);
    case BuyAClub(_, _, _, _) => TakingOverKeepsTime(cfg, s, c, listed);
    case AssignAClub(_, _, _, _) => TakingOverKeepsTime(cfg, s, c, listed);
    case Withdraw(_, _, _, _) => WithdrawingKeepsTime(cfg, s, c, listed);
    case ClaimStakerRewards(_, _) => ClaimsChangeNothing(s, c);
    case _ =>
  }

  lemma TakingOverKeepsTime(cfg: Config, s: Storage, c: Call, listed: set<Key>)
    requires OnTime(cfg, s, c.now, listed) && TakesOver(c) && Exec(cfg, s, c).Ok?
    ensures OnTime(cfg, Exec(cfg, s, c).value, c.now, listed)
  {
    TakeOverEffect(cfg, s, c);
    var m := c.msg;
    if !HasStake(s.StakesOf(m.club, m.buyer), m.buyer) {
      var total := if m.club in s.clubs then s.clubs[m.club].total else 0;
      var owned := s.(clubs := s.clubs[m.club := Club(m.buyer, c.now, cfg.releaseLocking, false, total)]);
      SavingKeepsTime(cfg, owned, c.now, m.buyer, m.club, 0, m.auto, true, listed);
    }
  }

  lemma WithdrawingKeepsTime(cfg: Config, s: Storage, c: Call, listed: set<Key>)
    requires OnTime(cfg, s, c.now, listed) && c.msg.Withdraw? && Withdrawing(cfg, s, c).Ok?
    ensures OnTime(cfg, Withdrawing(cfg, s, c).value, c.now, listed)
  {
    var m := c.msg;
    if m.immediate {
      var drained := Drain(NewestFirst(s.BondsOf(m.club, m.staker)), m.staker, c.now, m.amount).value;
      var bonded := s.(bonds := s.bonds[(m.club, m.staker) := drained.kept]);
      SavingKeepsTime(cfg, bonded, c.now, m.staker, m.club, drained.remaining, false, false, listed);
    } else {
      SavingKeepsTime(cfg, s, c.now, m.staker, m.club, m.amount, false, false, listed);
    }
  }

  lemma DepositsDropNothing(cfg: Config, s: Storage, c: Call, club: string)
    requires !c.msg.Distribute? && Exec(cfg, s, c).Ok?
    ensures FlowsOf(cfg, s, c, club).lost == []
  {
    if c.msg.AssignStakes? {
      DepositsLoseNothing(s, c.now, c.msg.list, c.msg.club, club);
    }
  }

  lemma OnTimeLater(cfg: Config, s: Storage, now: nat, later: nat, listed: set<Key>)
    requires OnTime(cfg, s, now, listed) && now <= later
    ensures OnTime(cfg, s, later, listed)
  {
    forall k | k in s.stakes ensures ListFits(cfg, s.stakes[k], later, s.nextTime, k in listed) {
      assert ListFits(cfg, s.stakes[k], now, s.nextTime, k in listed);
    }
  }

  /** In every run with ordered times that lists nobody twice between final batches, no
      distribution drops a stake. */
  lemma {:induction false} NoDueStakeIsLost(cfg: Config, nextTime: nat, calls: seq<Call>, club: string)
    requires Ordered(calls) && OnceEach(cfg, Genesis(nextTime), calls)
    ensures History(cfg, Genesis(nextTime), calls, club).lost == []
    ensures OnTime(cfg, Run(cfg, Genesis(nextTime), calls), Latest(calls), Listed(cfg, Genesis(nextTime), calls))
  {
    if calls != [] {
      var n := |calls| - 1;
      var s, listed := Run(cfg, Genesis(nextTime), calls[..n]), Listed(cfg, Genesis(nextTime), calls[..n]);
      NoDueStakeIsLost(cfg, nextTime, calls[..n], club);
      OnTimeLater(cfg, s, Latest(calls[..n]), calls[n].now, listed);
      if Exec(cfg, s, calls[n]).Ok? {
        if calls[n].msg.Distribute? {
          DistributingKeepsTime(cfg, s, calls[n], listed);
        } else {
          OthersKeepTime(cfg, s, calls[n], listed);
          DepositsDropNothing(cfg, s, calls[n], club);
        }
      }
    }
  }

  /** No batch of such a run shortens a list. */
  lemma {:induction false} NoBatchShortensAList(cfg: Config, nextTime: nat, calls: seq<Call>, k: Key)
    requires calls != [] && Ordered(calls) && OnceEach(cfg, Genesis(nextTime), calls)
    requires calls[|calls| - 1].msg.Distribute?
    ensures |Run(cfg, Genesis(nextTime), calls).StakesOf(k.0, k.1)|
            == |Run(cfg, Genesis(nextTime), calls[..|calls| - 1]).StakesOf(k.0, k.1)|
  {
    var n := |calls| - 1;
    var s, listed := Run(cfg, Genesis(nextTime), calls[..n]), Listed(cfg, Genesis(nextTime), calls[..n]);
    NoDueStakeIsLost(cfg, nextTime, calls[..n], k.0);
    OnTimeLater(cfg, s, Latest(calls[..n]), calls[n].now, listed);
    if PaysBatch(cfg, s, calls[n]) {
      BatchKeepsTime(cfg, s, calls[n], listed);
    } else if Exec(cfg, s, calls[n]).Ok? {
      Distributed(cfg, s, calls[n]);
    }
  }

  /** The ledger law of such runs has no losses. */
  lemma FairLedger(cfg: Config, nextTime: nat, calls: seq<Call>, club: string)
    requires Ordered(calls) && OnceEach(cfg, Genesis(nextTime), calls)
    ensures var t := Run(cfg, Genesis(nextTime), calls);
            var h := History(cfg, Genesis(nextTime), calls, club);
            && Staked(t.stakes, club) + Pending(t.stakes, club) == h.deposited - h.unstaked + h.given
            && Staked(t.stakes, club) == TotalOf(t, club) + h.compounded
  {
    NoDueStakeIsLost(cfg, nextTime, calls, club);
    StakeLedger(cfg, nextTime, calls, club);
  }
}
