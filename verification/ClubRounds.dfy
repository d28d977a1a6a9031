/** Reward rounds over their batches: what a round has given is exactly what its lines are paid, so
    it never gives more than the reward, and a complete round leaves only dust. */
module ClubRounds {
  import opened Chain
  import opened ClubStaking
  import opened ClubWinners
  import opened ClubDistribution
  import opened ClubOwners
  import opened ClubLedger
  import opened ClubSchedule
  import opened ClubRewards
  import Sums

  // The stakes that a batch pays.

  function DueLines(list: seq<Stake>, club: string, now: nat): seq<Line> {
    if list == [] then [] else
      var n := |list| - 1;
      var before := DueLines(list[..n], club, now);
      if list[n].start <= now then before + [Line((club, list[n].staker), list[n].amount)] else before
  }

  function Receipts(sh: Shares, stakes: map<Key, seq<Stake>>, club: string, stakers: seq<Addr>): seq<Line>
    requires RewardStakers(sh, stakes, club, stakers).Ok?
  {
    if stakers == [] then [] else
      var n := |stakers| - 1;
      Receipts(sh, stakes, club, stakers[..n]) +
      DueLines(Get(RewardStakers(sh, stakes, club, stakers[..n]).value.stakes, (club, stakers[n]), []), club, sh.now)
  }

  function PayBy(sh: Shares): Line -> int { (l: Line) => sh.Pay(Stake(l.key.1, 0, l.amount, 0, false)) }

  lemma {:induction false} ListGives(sh: Shares, list: seq<Stake>, club: string, given: nat, added: nat)
    requires RewardList(sh, list, given, added).Ok?
    ensures RewardList(sh, list, given, added).value.given
            == given + Sums.SeqSum(DueLines(list, club, sh.now), PayBy(sh))
  {
    if list != [] {
      var n := |list| - 1;
      ListGives(sh, list[..n], club, given, added);
      OneMoreTerm(DueLines(list[..n], club, sh.now), Line((club, list[n].staker), list[n].amount), PayBy(sh));
    }
  }

  /** A batch gives what its lines are paid. */
  lemma {:induction false} BatchGives(sh: Shares, stakes: map<Key, seq<Stake>>, club: string, stakers: seq<Addr>)
    requires RewardStakers(sh, stakes, club, stakers).Ok?
    ensures RewardStakers(sh, stakes, club, stakers).value.given
            == Sums.SeqSum(Receipts(sh, stakes, club, stakers), PayBy(sh))
  {
    if stakers != [] {
      var n := |stakers| - 1;
      BatchGives(sh, stakes, club, stakers[..n]);
      var p := RewardStakers(sh, stakes, club, stakers[..n]).value;
      var list := Get(p.stakes, (club, stakers[n]), []);
      ListGives(sh, list, club, p.given, p.added);
      Sums.SeqSumAppend<Line>(Receipts(sh, stakes, club, stakers[..n]), DueLines(list, club, sh.now), PayBy(sh));
    }
  }

  function KeysOf(club: string, stakers: seq<Addr>): set<Key> { set u | u in stakers :: (club, u) }

  /** Lists outside a set of keys are as they were. */
  ghost predicate SameOutside(before: map<Key, seq<Stake>>, after: map<Key, seq<Stake>>, keys: set<Key>) {
    forall k: Key :: k !in keys ==> Get(after, k, []) == Get(before, k, [])
  }

  lemma SameOutsideMore(before: map<Key, seq<Stake>>, after: map<Key, seq<Stake>>, keys: set<Key>, key: Key,
                        list: seq<Stake>)
    requires SameOutside(before, after, keys)
    ensures SameOutside(before, after[key := list], keys + {key})
  {
    forall k: Key | k !in keys + {key} ensures Get(after[key := list], k, []) == Get(before, k, []) {
      assert Get(after, k, []) == Get(before, k, []);
    }
  }

  lemma KeysOfNext(club: string, stakers: seq<Addr>)
    requires stakers != []
    ensures KeysOf(club, stakers) == KeysOf(club, stakers[..|stakers| - 1]) + {(club, stakers[|stakers| - 1])}
  {
    assert stakers == stakers[..|stakers| - 1] + [stakers[|stakers| - 1]];
  }

  lemma {:induction false} BatchTouchesItsOwn(sh: Shares, stakes: map<Key, seq<Stake>>, club: string, stakers: seq<Addr>)
    requires RewardStakers(sh, stakes, club, stakers).Ok?
    ensures SameOutside(stakes, RewardStakers(sh, stakes, club, stakers).value.stakes, KeysOf(club, stakers))
  {
    if stakers != [] {
      var n := |stakers| - 1;
      BatchTouchesItsOwn(sh, stakes, club, stakers[..n]);
      KeysOfNext(club, stakers);
      var p := RewardStakers(sh, stakes, club, stakers[..n]).value;
      var b := RewardList(sh, Get(p.stakes, (club, stakers[n]), []), p.given, p.added).value;
      SameOutsideMore(stakes, p.stakes, KeysOf(club, stakers[..n]), (club, stakers[n]), b.list);
    }
  }

  /** Lines for stakes of a set of keys, once each, for the amount that is staked there. */
  predicate LinesFrom(stakes: map<Key, seq<Stake>>, lines: seq<Line>, keys: set<Key>) {
    && DistinctLines(lines)
    && forall i :: 0 <= i < |lines| ==>
         && lines[i].key in keys && lines[i].key in stakes && stakes[lines[i].key] != []
         && Amounts(stakes[lines[i].key]) == lines[i].amount
  }

  lemma LinesFromBoth(stakes: map<Key, seq<Stake>>, a: seq<Line>, akeys: set<Key>, b: seq<Line>, bkeys: set<Key>)
    requires LinesFrom(stakes, a, akeys) && LinesFrom(stakes, b, bkeys) && akeys !! bkeys
    ensures LinesFrom(stakes, a + b, akeys + bkeys)
  {
  }

  lemma LinesFromSame(before: map<Key, seq<Stake>>, after: map<Key, seq<Stake>>, lines: seq<Line>, keys: set<Key>,
                      touched: set<Key>)
    requires LinesFrom(after, lines, keys) && SameOutside(before, after, touched) && keys !! touched
    ensures LinesFrom(before, lines, keys)
  {
    forall i | 0 <= i < |lines|
      ensures lines[i].key in before && before[lines[i].key] == after[lines[i].key]
    {
      assert lines[i].key !in touched;
      assert Get(after, lines[i].key, []) == Get(before, lines[i].key, []);
    }
  }

  lemma NeatLine(list: seq<Stake>, club: string, staker: Addr, now: nat)
    requires NeatList(list, staker)
    ensures DueLines(list, club, now)
            == if list != [] && list[0].start <= now then [Line((club, staker), Amounts(list))] else []
  {
    if list != [] {
      assert list == [list[0]] && list[..0] == [];
      OneHolds(list[0]);
    }
  }

  lemma OneList(stakes: map<Key, seq<Stake>>, club: string, staker: Addr, now: nat)
    requires Neat(stakes)
    ensures LinesFrom(stakes, DueLines(Get(stakes, (club, staker), []), club, now), {(club, staker)})
  {
    var list := Get(stakes, (club, staker), []);
    NeatLine(list, club, staker, now);
    if list != [] && list[0].start <= now {
      assert (club, staker) in stakes;
    }
  }

  lemma {:induction false} ReceiptsFrom(sh: Shares, stakes: map<Key, seq<Stake>>, club: string, stakers: seq<Addr>)
    requires Neat(stakes) && Distinct(stakers) && RewardStakers(sh, stakes, club, stakers).Ok?
    ensures LinesFrom(stakes, Receipts(sh, stakes, club, stakers), KeysOf(club, stakers))
  {
    if stakers != [] {
      var n := |stakers| - 1;
      var key := (club, stakers[n]);
      ReceiptsFrom(sh, stakes, club, stakers[..n]);
      BatchTouchesItsOwn(sh, stakes, club, stakers[..n]);
      KeysOfNext(club, stakers);
      assert key !in KeysOf(club, stakers[..n]);
      assert Get(RewardStakers(sh, stakes, club, stakers[..n]).value.stakes, key, []) == Get(stakes, key, []);
      OneList(stakes, club, stakers[n], sh.now);
      LinesFromBoth(stakes, Receipts(sh, stakes, club, stakers[..n]), KeysOf(club, stakers[..n]),
                    DueLines(Get(stakes, key, []), club, sh.now), {key});
    }
  }

  // Batches of a round.

  /** The lines of an accepted message. */
  function ReceiptsOf(cfg: Config, s: Storage, c: Call): seq<Line> {
    if !PaysBatch(cfg, s, c) then [] else
      BatchIsPaid(cfg, s, c);
      Receipts(BatchShares(cfg, s, c), s.stakes, c.msg.club, c.msg.stakers)
  }

  /** The terms of a batch are those of its round: they depend on the reward, the winners and the
      owner only. */
  lemma TermsOfABatch(cfg: Config, d: Storage, s: Storage, now: nat, saved: nat, club: string)
    requires d.reward == s.reward && d.winning == s.winning && SameOwnership(d.clubs, s.clubs)
    requires SharesFor(cfg, s, now, saved, club).Ok?
    ensures club in d.clubs && SharesFor(cfg, d, 0, 0, club).Ok?
    ensures var sh := SharesFor(cfg, s, now, saved, club).value;
            Terms(cfg, d, club) == sh.(now := Terms(cfg, d, club).now, newStart := Terms(cfg, d, club).newStart)
  {
  }

  lemma PaidByTerms(cfg: Config, d: Storage, sh: Shares, club: string, lines: seq<Line>)
    requires Terms(cfg, d, club) == sh.(now := Terms(cfg, d, club).now, newStart := Terms(cfg, d, club).newStart)
    requires AllIn(lines, club)
    ensures Sums.SeqSum(lines, PayBy(sh)) == Sums.SeqSum(lines, Paying(cfg, d))
  {
    forall l | l in lines ensures PayBy(sh)(l) == Paying(cfg, d)(l) {
      assert l.key.0 == club;
    }
    Sums.SeqSumSame<Line>(lines, PayBy(sh), Paying(cfg, d));
  }

  lemma {:induction false} DueLinesAreIn(list: seq<Stake>, club: string, now: nat)
    ensures AllIn(DueLines(list, club, now), club)
  {
    if list != [] {
      DueLinesAreIn(list[..|list| - 1], club, now);
    }
  }

  lemma {:induction false} ReceiptsAreIn(sh: Shares, stakes: map<Key, seq<Stake>>, club: string, stakers: seq<Addr>)
    requires RewardStakers(sh, stakes, club, stakers).Ok?
    ensures AllIn(Receipts(sh, stakes, club, stakers), club)
  {
    if stakers != [] {
      var n := |stakers| - 1;
      ReceiptsAreIn(sh, stakes, club, stakers[..n]);
      DueLinesAreIn(Get(RewardStakers(sh, stakes, club, stakers[..n]).value.stakes, (club, stakers[n]), []), club, sh.now);
    }
  }

  /** A batch gives what its lines are paid by the terms of its round, where `d` holds what the round is
      settled by. */
  lemma BatchAdds(cfg: Config, s: Storage, c: Call, d: Storage)
    requires PaysBatch(cfg, s, c)
    requires d.reward == s.reward && d.winning == Exec(cfg, s, c).value.winning && SameOwnership(d.clubs, s.clubs)
    ensures Exec(cfg, s, c).value.given == s.given + Sums.SeqSum(ReceiptsOf(cfg, s, c), Paying(cfg, d))
    ensures InClubs(cfg, d, ReceiptsOf(cfg, s, c))
  {
    var sh, club := BatchShares(cfg, s, c), c.msg.club;
    BatchIsPaid(cfg, s, c);
    SharesOfABatch(cfg, s, c);
    BatchGives(sh, s.stakes, club, c.msg.stakers);
    ReceiptsAreIn(sh, s.stakes, club, c.msg.stakers);
    TermsOfABatch(cfg, d, s.(winning := Exec(cfg, s, c).value.winning), c.now, s.nextTime, club);
    PaidByTerms(cfg, d, sh, club, ReceiptsOf(cfg, s, c));
  }

  /** Its lines are for the lists it touches. */
  lemma BatchTouches(cfg: Config, s: Storage, c: Call)
    requires Neat(s.stakes) && PaysBatch(cfg, s, c) && Distinct(c.msg.stakers)
    ensures LinesFrom(s.stakes, ReceiptsOf(cfg, s, c), KeysOf(c.msg.club, c.msg.stakers))
    ensures SameOutside(s.stakes, Exec(cfg, s, c).value.stakes, KeysOf(c.msg.club, c.msg.stakers))
  {
    BatchIsPaid(cfg, s, c);
    BatchTouchesItsOwn(BatchShares(cfg, s, c), s.stakes, c.msg.club, c.msg.stakers);
    ReceiptsFrom(BatchShares(cfg, s, c), s.stakes, c.msg.club, c.msg.stakers);
  }

  lemma BatchKeepsOwnership(cfg: Config, s: Storage, c: Call)
    requires PaysBatch(cfg, s, c)
    ensures SameOwnership(s.clubs, Exec(cfg, s, c).value.clubs)
  {
    BatchIsPaid(cfg, s, c);
  }

  // Rounds.

  /** Club and staker of everything a sequence of batches lists. */
  function AllListed(calls: seq<Call>): set<Key> {
    if calls == [] then {} else
      var n := |calls| - 1;
      AllListed(calls[..n]) +
      if calls[n].msg.Distribute? then KeysOf(calls[n].msg.club, calls[n].msg.stakers) else {}
  }

  predicate ListsOnce(calls: seq<Call>) {
    calls == [] ||
    var n := |calls| - 1;
    && ListsOnce(calls[..n])
    && (calls[n].msg.Distribute? ==>
          Distinct(calls[n].msg.stakers) && KeysOf(calls[n].msg.club, calls[n].msg.stakers) !! AllListed(calls[..n]))
  }

  /** A batch in its place: accepted, first if and only if at the start, final only at the end. */
  predicate IsBatch(cfg: Config, s: Storage, calls: seq<Call>, i: nat)
    requires i < |calls|
  {
    && calls[i].msg.Distribute?
    && Exec(cfg, Run(cfg, s, calls[..i]), calls[i]).Ok?
    && (calls[i].msg.isFirst <==> i == 0)
    && (calls[i].msg.isFinal ==> i == |calls| - 1)
  }

  /** A reward round: accepted batches that list nobody twice, with a reward to give and nothing
      given yet. */
  predicate IsRound(cfg: Config, s: Storage, calls: seq<Call>) {
    && calls != [] && s.reward > 0 && s.given == 0
    && ListsOnce(calls)
    && forall i :: 0 <= i < |calls| ==> IsBatch(cfg, s, calls, i)
  }

  predicate EndsFinal(calls: seq<Call>) {
    calls != [] && calls[|calls| - 1].msg.Distribute? && calls[|calls| - 1].msg.isFinal
  }

  function Lines(cfg: Config, s: Storage, calls: seq<Call>): seq<Line> {
    if calls == [] then [] else
      var n := |calls| - 1;
      Lines(cfg, s, calls[..n]) + ReceiptsOf(cfg, Run(cfg, s, calls[..n]), calls[n])
  }

  function ClubTotal(): (string, Club) -> int { (_: string, c: Club) => c.total }

  /** The winners are those of the clubs and the snapshot, and so is the winning stake. */
  ghost predicate Elected(s: Storage, w: Winning) {
    if NotCollapsed(s) then (forall c :: c in w.winners <==> WinsIn(s, c)) && LargestLead(s, w.winningStake)
    else w.winners == []
  }

  /** What the walk over the clubs at the start of a round has found. */
  ghost predicate Judged(s: Storage, w: Winning) {
    && Settled(s.(winning := w)) && Elected(s, w)
    && w.totalStake == Sums.Sum<string, Club>(s.clubs, ClubTotal())
    && forall c :: c in w.winners ==> s.clubs[c].total <= w.winningStake
  }

  lemma TotalStakeNext(s: Storage, keys: seq<string>)
    requires keys != [] && forall k :: k in keys ==> k in s.clubs
    ensures var n := |keys| - 1;
            TotalStake(Entries(s, keys)) == TotalStake(Entries(s, keys[..n])) + s.clubs[keys[n]].total
  {
    assert Entries(s, keys)[..|keys| - 1] == Entries(s, keys[..|keys| - 1]);
  }

  lemma {:induction false} TotalOfKeys(s: Storage, keys: seq<string>, clubs: map<string, Club>)
    requires Distinct(keys) && forall k :: k in keys <==> k in clubs
    requires forall k :: k in clubs ==> k in s.clubs && s.clubs[k] == clubs[k]
    ensures TotalStake(Entries(s, keys)) == Sums.Sum<string, Club>(clubs, ClubTotal())
  {
    if keys == [] {
      assert clubs == map[];
    } else {
      var n := |keys| - 1;
      assert keys == keys[..n] + [keys[n]] && keys[n] !in keys[..n];
      TotalOfKeys(s, keys[..n], clubs - {keys[n]});
      TotalStakeNext(s, keys);
      Sums.Split<string, Club>(clubs, ClubTotal(), keys[n]);
    }
  }

  lemma FindingElects(s: Storage)
    requires FindWinners(s).Ok?
    ensures Elected(s, FindWinners(s).value.winning)
  {
    var w := FindWinners(s).value.winning;
    if NotCollapsed(s) {
      StoredStakeIsTheLargest(s);
      forall c ensures c in w.winners <==> WinsIn(s, c) {
        StoredWinnersAreExact(s, c);
      }
    } else {
      CollapsedHaveNoWinners(s);
    }
  }

  lemma CollapsedHaveNoWinners(s: Storage)
    requires FindWinners(s).Ok? && !NotCollapsed(s)
    ensures FindWinners(s).value.winning.winners == []
  {
    var es := Entries(s, ClubKeys(s));
    EntriesInOrder(s);
    NoWinnersExactlyWhenAllCollapsed(es);
    forall i | 0 <= i < |es| ensures es[i].Increase() < -MAX_UFURY_COUNT {
      assert Growth(s, ClubKeys(s)[i]) == es[i].Increase();
    }
  }

  /** An election depends on the clubs and the snapshot only. */
  lemma SameElection(s: Storage, t: Storage, w: Winning)
    requires s.clubs == t.clubs && s.snapshot == t.snapshot && Elected(t, w)
    ensures Elected(s, w)
  {
    assert forall c :: c in s.clubs ==> Growth(s, c) == Growth(t, c);
    assert forall c :: Leads(s, c) <==> Leads(t, c);
    assert forall c :: WinsIn(s, c) <==> WinsIn(t, c);
    assert NotCollapsed(s) <==> NotCollapsed(t);
  }

  lemma FindingJudges(s: Storage)
    requires FindWinners(s).Ok?
    ensures Judged(s, FindWinners(s).value.winning)
  {
    FindingElects(s);
    FoundWinners(s);
    KeysAreDistinct(s);
    TotalOfKeys(s, ClubKeys(s), s.clubs);
  }

  /** When the walk over the clubs is accepted: the totals add up to 128 bits, and every difference to the
      snapshot, after the casts, fits in 128 bits with a sign. */
  lemma WinnersAreFoundExactlyWhen(s: Storage)
    ensures FindWinners(s).Ok? <==>
              && Fits(Sums.Sum<string, Club>(s.clubs, ClubTotal()))
              && forall c :: c in s.clubs ==> -I128_LIMIT <= Growth(s, c) < I128_LIMIT
  {
    KeysAreDistinct(s);
    TotalOfKeys(s, ClubKeys(s), s.clubs);
    AllGrowthFits(s, ClubKeys(s));
  }

  lemma AllGrowthFits(s: Storage, keys: seq<string>)
    requires forall k :: k in keys <==> k in s.clubs
    ensures (forall i :: 0 <= i < |keys| ==> IncreaseFits(Entries(s, keys)[i]))
            <==> forall c :: c in s.clubs ==> -I128_LIMIT <= Growth(s, c) < I128_LIMIT
  {
    forall i | 0 <= i < |keys|
      ensures IncreaseFits(Entries(s, keys)[i]) <==> -I128_LIMIT <= Growth(s, keys[i]) < I128_LIMIT
    {
      assert Entries(s, keys)[i] == EntryOf(s, keys[i]);
    }
    if forall i :: 0 <= i < |keys| ==> IncreaseFits(Entries(s, keys)[i]) {
      forall c | c in s.clubs ensures -I128_LIMIT <= Growth(s, c) < I128_LIMIT {
        var i :| 0 <= i < |keys| && keys[i] == c;
        assert IncreaseFits(Entries(s, keys)[i]);
      }
    }
  }

  /** What the casts do not touch grows by the difference, and is never refused. */
  lemma GrowthIsTheDifference(s: Storage, c: string)
    requires c in s.clubs && s.clubs[c].total < I128_LIMIT && Get(s.snapshot, c, 0) < I128_LIMIT
    ensures Growth(s, c) == s.clubs[c].total - Get(s.snapshot, c, 0)
    ensures -I128_LIMIT <= Growth(s, c) < I128_LIMIT
  {
  }

  /** What a round has done so far: `d` holds what it is settled by. */
  ghost predicate SoFar(cfg: Config, s: Storage, calls: seq<Call>, t: Storage) {
    var d, lines := s.(winning := t.winning), Lines(cfg, s, calls);
    && Judged(s, t.winning)
    && Neat(t.stakes) && SameOwnership(s.clubs, t.clubs)
    && t.given == Sums.SeqSum(lines, Paying(cfg, d))
    && InClubs(cfg, d, lines)
    && LinesFrom(s.stakes, lines, AllListed(calls))
    && SameOutside(s.stakes, t.stakes, AllListed(calls))
  }

  lemma {:induction false} FirstBatch(cfg: Config, s: Storage, c: Call)
    requires Neat(s.stakes) && s.given == 0 && PaysBatch(cfg, s, c) && c.msg.isFirst && Distinct(c.msg.stakers)
    ensures SoFar(cfg, s, [c], Exec(cfg, s, c).value)
  {
    var t := Exec(cfg, s, c).value;
    assert [c][..0] == [];
    assert Run(cfg, s, []) == s;
    BatchKeepsOwnership(cfg, s, c);
    BatchAdds(cfg, s, c, s.(winning := t.winning));
    BatchTouches(cfg, s, c);
    StepFollows(cfg, s, c, "");
    assert AllListed([c]) == KeysOf(c.msg.club, c.msg.stakers);
    assert Lines(cfg, s, [c]) == ReceiptsOf(cfg, s, c);
    FirstBatchJudges(cfg, s, c);
  }

  lemma FirstBatchJudges(cfg: Config, s: Storage, c: Call)
    requires PaysBatch(cfg, s, c) && c.msg.isFirst
    ensures Judged(s, Exec(cfg, s, c).value.winning)
  {
    Distributed(cfg, s, c);
    var timed := s.(nextTime := NextTime(cfg, s, c.now, c.msg.isFinal).value);
    FindingJudges(timed);
    SameElection(s, timed, Exec(cfg, s, c).value.winning);
  }

  /** The batch after a part of a round. */
  ghost predicate Continues(cfg: Config, s: Storage, calls: seq<Call>) {
    && |calls| > 1
    && var n := |calls| - 1;
    && SoFar(cfg, s, calls[..n], Run(cfg, s, calls[..n]))
    && Run(cfg, s, calls[..n]).reward == s.reward
    && PaysBatch(cfg, Run(cfg, s, calls[..n]), calls[n]) && !calls[n].msg.isFirst
    && Distinct(calls[n].msg.stakers)
    && KeysOf(calls[n].msg.club, calls[n].msg.stakers) !! AllListed(calls[..n])
  }

  lemma NextLines(cfg: Config, s: Storage, calls: seq<Call>)
    requires Continues(cfg, s, calls)
    ensures LinesFrom(s.stakes, Lines(cfg, s, calls), AllListed(calls))
    ensures SameOutside(s.stakes, Run(cfg, s, calls).stakes, AllListed(calls))
  {
    var n := |calls| - 1;
    var u, c := Run(cfg, s, calls[..n]), calls[n];
    BatchTouches(cfg, u, c);
    var keys, before := KeysOf(c.msg.club, c.msg.stakers), AllListed(calls[..n]);
    LinesFromSame(s.stakes, u.stakes, ReceiptsOf(cfg, u, c), keys, before);
    LinesFromBoth(s.stakes, Lines(cfg, s, calls[..n]), before, ReceiptsOf(cfg, u, c), keys);
  }

  lemma {:induction false} NextGiven(cfg: Config, s: Storage, calls: seq<Call>)
    requires Continues(cfg, s, calls)
    ensures Run(cfg, s, calls).given
            == Sums.SeqSum(Lines(cfg, s, calls), Paying(cfg, s.(winning := Run(cfg, s, calls).winning)))
  {
    var n := |calls| - 1;
    var u, c := Run(cfg, s, calls[..n]), calls[n];
    var d := s.(winning := u.winning);
    BatchSettles(cfg, u, c);
    BatchAdds(cfg, u, c, d);
    Sums.SeqSumAppend<Line>(Lines(cfg, s, calls[..n]), ReceiptsOf(cfg, u, c), Paying(cfg, d));
  }

  lemma {:induction false} NextInClubs(cfg: Config, s: Storage, calls: seq<Call>)
    requires Continues(cfg, s, calls)
    ensures InClubs(cfg, s.(winning := Run(cfg, s, calls).winning), Lines(cfg, s, calls))
  {
    var n := |calls| - 1;
    var u, c := Run(cfg, s, calls[..n]), calls[n];
    BatchSettles(cfg, u, c);
    BatchAdds(cfg, u, c, s.(winning := u.winning));
  }

  lemma {:induction false} NextBatch(cfg: Config, s: Storage, calls: seq<Call>)
    requires Continues(cfg, s, calls)
    ensures SoFar(cfg, s, calls, Run(cfg, s, calls))
  {
    var n := |calls| - 1;
    NextLines(cfg, s, calls);
    NextGiven(cfg, s, calls);
    NextInClubs(cfg, s, calls);
    BatchSettles(cfg, Run(cfg, s, calls[..n]), calls[n]);
    BatchKeepsOwnership(cfg, Run(cfg, s, calls[..n]), calls[n]);
    StepFollows(cfg, Run(cfg, s, calls[..n]), calls[n], "");
  }

  lemma RoundPrefix(cfg: Config, s: Storage, calls: seq<Call>)
    requires IsRound(cfg, s, calls) && |calls| > 1
    ensures var n := |calls| - 1;
            IsRound(cfg, s, calls[..n]) && !EndsFinal(calls[..n])
  {
    var n := |calls| - 1;
    forall i | 0 <= i < n ensures IsBatch(cfg, s, calls[..n], i) && !calls[i].msg.isFinal {
      assert IsBatch(cfg, s, calls, i);
      assert calls[..n][..i] == calls[..i];
    }
  }

  lemma {:induction false} RoundSoFar(cfg: Config, s: Storage, calls: seq<Call>)
    requires Neat(s.stakes) && IsRound(cfg, s, calls)
    ensures var t := Run(cfg, s, calls);
            && SoFar(cfg, s, calls, t)
            && t.reward == (if !EndsFinal(calls) then s.reward
                            else if s.reward > t.given then s.reward - t.given else 0)
            && (!EndsFinal(calls) ==> t.nextTime == s.nextTime)
  {
    var n := |calls| - 1;
    var u := Run(cfg, s, calls[..n]);
    assert IsBatch(cfg, s, calls, n);
    if n == 0 {
      assert calls == [calls[0]] && calls[..0] == [];
      FirstBatch(cfg, s, calls[0]);
    } else {
      RoundPrefix(cfg, s, calls);
      RoundSoFar(cfg, s, calls[..n]);
      NextBatch(cfg, s, calls);
    }
    BatchSettles(cfg, u, calls[n]);
  }

  // Lines against stakes.

  /** Stakes of one club that lines are for, against all stakes of the club. */
  lemma {:induction false} LinesWithinStakes(stakes: map<Key, seq<Stake>>, lines: seq<Line>, keys: set<Key>, club: string)
    requires LinesFrom(stakes, lines, keys) && AllIn(lines, club)
    ensures Sums.SeqSum(lines, Amount()) <= Staked(stakes, club)
    decreases |lines|
  {
    if lines == [] {
      forall k | k in stakes ensures AmountsIn(club)(k, stakes[k]) >= 0 {
        assert Amounts(stakes[k]) >= 0;
      }
      Sums.NonNegative<Key, seq<Stake>>(stakes, AmountsIn(club));
    } else {
      var n := |lines| - 1;
      var key := lines[n].key;
      Sums.Split<Key, seq<Stake>>(stakes, AmountsIn(club), key);
      LinesWithinStakes(stakes - {key}, lines[..n], keys, club);
    }
  }

  lemma LinesInFrom(stakes: map<Key, seq<Stake>>, lines: seq<Line>, keys: set<Key>, club: string)
    requires LinesFrom(stakes, lines, keys)
    ensures LinesFrom(stakes, LinesIn(lines, club), keys) && AllIn(LinesIn(lines, club), club)
  {
    LinesInAreIn(lines, club);
    LinesInStayDistinct(lines, club);
    var own := LinesIn(lines, club);
    forall i | 0 <= i < |own| ensures own[i] in lines {
      LinesInAreThose(lines, club, own[i]);
    }
  }

  /** The stakes of every club are within its total. */
  ghost predicate StakesWithinTotals(s: Storage) {
    forall c :: c in s.clubs ==> Staked(s.stakes, c) <= s.clubs[c].total
  }

  // Counting.

  function LineKeys(lines: seq<Line>): set<Key> { set i | 0 <= i < |lines| :: lines[i].key }

  function StakeKeys(s: Storage): set<Key> { set k | k in s.stakes && s.stakes[k] != [] }

  /** Those of the keys that belong to one of the clubs. */
  function KeysIn(keys: set<Key>, clubs: set<string>): set<Key> { set k | k in keys && k.0 in clubs }

  lemma LineKeysNext(lines: seq<Line>)
    requires lines != [] && DistinctLines(lines)
    ensures var n := |lines| - 1;
            LineKeys(lines) == LineKeys(lines[..n]) + {lines[n].key} && lines[n].key !in LineKeys(lines[..n])
  {
    var n := |lines| - 1;
    forall k ensures k in LineKeys(lines) <==> k in LineKeys(lines[..n]) + {lines[n].key} {
      if k in LineKeys(lines) && k != lines[n].key {
        var i :| 0 <= i < |lines| && lines[i].key == k;
        assert lines[..n][i].key == k;
      }
      if k in LineKeys(lines[..n]) {
        var i :| 0 <= i < n && lines[..n][i].key == k;
        assert lines[i].key == k;
      }
      assert lines[n].key in LineKeys(lines);
    }
  }

  lemma {:induction false} LineCount(lines: seq<Line>)
    requires DistinctLines(lines)
    ensures |lines| == |LineKeys(lines)|
  {
    if lines == [] {
      assert LineKeys(lines) == {};
    } else {
      LineCount(lines[..|lines| - 1]);
      LineKeysNext(lines);
    }
  }

  lemma KeysInNext(keys: set<Key>, key: Key, clubs: set<string>)
    requires key !in keys
    ensures |KeysIn(keys + {key}, clubs)| == |KeysIn(keys, clubs)| + if key.0 in clubs then 1 else 0
  {
    if key.0 in clubs {
      assert KeysIn(keys + {key}, clubs) == KeysIn(keys, clubs) + {key};
    } else {
      assert KeysIn(keys + {key}, clubs) == KeysIn(keys, clubs);
    }
  }

  lemma {:induction false} WinnerCount(lines: seq<Line>, d: Storage, clubs: set<string>)
    requires DistinctLines(lines) && forall c :: c in clubs <==> c in d.winning.winners
    ensures Sums.SeqSum(lines, InWinningClub(d)) == |KeysIn(LineKeys(lines), clubs)|
  {
    if lines == [] {
      assert LineKeys(lines) == {} && KeysIn({}, clubs) == {};
    } else {
      var n := |lines| - 1;
      WinnerCount(lines[..n], d, clubs);
      LineKeysNext(lines);
      KeysInNext(LineKeys(lines[..n]), lines[n].key, clubs);
    }
  }

  /** Lines for all the stakes of a club add up to what is staked there. */
  lemma {:induction false} LinesCoverStakes(stakes: map<Key, seq<Stake>>, lines: seq<Line>, keys: set<Key>, club: string)
    requires LinesFrom(stakes, lines, keys) && AllIn(lines, club)
    requires forall k :: k in stakes && k.0 == club && stakes[k] != [] ==> k in LineKeys(lines)
    ensures Sums.SeqSum(lines, Amount()) == Staked(stakes, club)
    decreases |lines|
  {
    if lines == [] {
      Sums.AllZero<Key, seq<Stake>>(stakes, AmountsIn(club));
    } else {
      var n := |lines| - 1;
      var key := lines[n].key;
      Sums.Split<Key, seq<Stake>>(stakes, AmountsIn(club), key);
      LineKeysNext(lines);
      LinesCoverStakes(stakes - {key}, lines[..n], keys, club);
    }
  }

  /** A batch of stakes that are due has a line for each of them. */
  lemma {:induction false} ReceiptsCover(sh: Shares, stakes: map<Key, seq<Stake>>, club: string, stakers: seq<Addr>,
                                        u: Addr)
    requires Neat(stakes) && Distinct(stakers) && RewardStakers(sh, stakes, club, stakers).Ok?
    requires u in stakers && Get(stakes, (club, u), []) != [] && AllDue(Get(stakes, (club, u), []), sh.now)
    ensures (club, u) in LineKeys(Receipts(sh, stakes, club, stakers))
  {
    var n := |stakers| - 1;
    var before := Receipts(sh, stakes, club, stakers[..n]);
    var key := (club, stakers[n]);
    BatchTouchesItsOwn(sh, stakes, club, stakers[..n]);
    var list := Get(RewardStakers(sh, stakes, club, stakers[..n]).value.stakes, key, []);
    var lines := before + DueLines(list, club, sh.now);
    if u == stakers[n] {
      assert key !in KeysOf(club, stakers[..n]);
      assert list == Get(stakes, key, []);
      NeatLine(list, club, u, sh.now);
      assert lines[|before|].key == key;
    } else {
      assert u in stakers[..n] by {
        assert stakers == stakers[..n] + [stakers[n]];
      }
      ReceiptsCover(sh, stakes, club, stakers[..n], u);
      var i :| 0 <= i < |before| && before[i].key == (club, u);
      assert lines[i].key == (club, u);
    }
  }

  /** Everybody with a stake at the start of the round was listed, and due. */
  ghost predicate ListsEverybody(cfg: Config, s: Storage, calls: seq<Call>, started: nat) {
    && OnTime(cfg, s, started, {})
    && (forall i :: 0 <= i < |calls| ==> started <= calls[i].now)
    && StakeKeys(s) <= AllListed(calls)
  }

  lemma StakesAreDue(cfg: Config, s: Storage, started: nat, now: nat, k: Key)
    requires OnTime(cfg, s, started, {}) && started <= now && s.nextTime <= now
    ensures AllDue(Get(s.stakes, k, []), now)
  {
    if k in s.stakes {
      assert ListFits(cfg, s.stakes[k], started, s.nextTime, false);
    }
  }

  lemma BatchCovers(cfg: Config, s: Storage, c: Call, u: Addr)
    requires Neat(s.stakes) && PaysBatch(cfg, s, c) && Distinct(c.msg.stakers) && u in c.msg.stakers
    requires s.StakesOf(c.msg.club, u) != [] && AllDue(s.StakesOf(c.msg.club, u), c.now)
    ensures (c.msg.club, u) in LineKeys(ReceiptsOf(cfg, s, c))
  {
    BatchIsPaid(cfg, s, c);
    SharesOfABatch(cfg, s, c);
    ReceiptsCover(BatchShares(cfg, s, c), s.stakes, c.msg.club, c.msg.stakers, u);
  }

  lemma LineKeysOfBoth(a: seq<Line>, b: seq<Line>, k: Key)
    requires k in LineKeys(a) || k in LineKeys(b)
    ensures k in LineKeys(a + b)
  {
    if k in LineKeys(a) {
      var i :| 0 <= i < |a| && a[i].key == k;
      assert (a + b)[i].key == k;
    } else {
      var i :| 0 <= i < |b| && b[i].key == k;
      assert (a + b)[|a| + i].key == k;
    }
  }

  /** The state a batch of a round starts from. */
  lemma BeforeBatch(cfg: Config, s: Storage, calls: seq<Call>)
    requires Neat(s.stakes) && IsRound(cfg, s, calls)
    ensures var u := Run(cfg, s, calls[..|calls| - 1]);
            && Neat(u.stakes) && PaysBatch(cfg, u, calls[|calls| - 1]) && u.nextTime == s.nextTime
            && SameOutside(s.stakes, u.stakes, AllListed(calls[..|calls| - 1]))
  {
    var n := |calls| - 1;
    assert IsBatch(cfg, s, calls, n);
    if n > 0 {
      RoundPrefix(cfg, s, calls);
      RoundSoFar(cfg, s, calls[..n]);
    }
  }

  /** Whoever is listed with a due stake has a line. */
  lemma {:induction false} RoundCovers(cfg: Config, s: Storage, calls: seq<Call>, started: nat, k: Key)
    requires Neat(s.stakes) && IsRound(cfg, s, calls)
    requires OnTime(cfg, s, started, {}) && forall i :: 0 <= i < |calls| ==> started <= calls[i].now
    requires k in AllListed(calls) && Get(s.stakes, k, []) != []
    ensures k in LineKeys(Lines(cfg, s, calls))
  {
    var n := |calls| - 1;
    var u, c := Run(cfg, s, calls[..n]), calls[n];
    BeforeBatch(cfg, s, calls);
    if k in KeysOf(c.msg.club, c.msg.stakers) {
      assert Get(u.stakes, k, []) == Get(s.stakes, k, []);
      SharesOfABatch(cfg, u, c);
      StakesAreDue(cfg, s, started, c.now, k);
      BatchCovers(cfg, u, c, k.1);
    } else {
      assert n > 0;
      RoundPrefix(cfg, s, calls);
      RoundCovers(cfg, s, calls[..n], started, k);
    }
    LineKeysOfBoth(Lines(cfg, s, calls[..n]), ReceiptsOf(cfg, u, c), k);
  }

  lemma {:induction false} LineKeysAreStakes(stakes: map<Key, seq<Stake>>, lines: seq<Line>, keys: set<Key>, k: Key)
    requires LinesFrom(stakes, lines, keys) && k in LineKeys(lines)
    ensures k in stakes && stakes[k] != []
  {
    var i :| 0 <= i < |lines| && lines[i].key == k;
  }

  /** The lines of a complete round are the stakes there were, each once. */
  lemma LinesAreTheStakes(cfg: Config, s: Storage, calls: seq<Call>, started: nat)
    requires Neat(s.stakes) && IsRound(cfg, s, calls) && ListsEverybody(cfg, s, calls, started)
    ensures LineKeys(Lines(cfg, s, calls)) == StakeKeys(s)
  {
    RoundSoFar(cfg, s, calls);
    forall k ensures k in LineKeys(Lines(cfg, s, calls)) <==> k in StakeKeys(s) {
      if k in StakeKeys(s) {
        RoundCovers(cfg, s, calls, started, k);
      } else if k in LineKeys(Lines(cfg, s, calls)) {
        LineKeysAreStakes(s.stakes, Lines(cfg, s, calls), AllListed(calls), k);
      }
    }
  }

  /** Every club's total is what is staked on it. */
  ghost predicate TotalsAreStakes(s: Storage) {
    forall c :: c in s.clubs ==> Staked(s.stakes, c) == s.clubs[c].total
  }

  /** Every owner holds an entry in the own club. */
  predicate OwnersHoldStakes(s: Storage) {
    forall c :: c in s.clubs ==> s.StakesOf(c, s.clubs[c].owner) != []
  }

  lemma ClubIsCovered(cfg: Config, s: Storage, calls: seq<Call>, started: nat, club: string)
    requires Neat(s.stakes) && IsRound(cfg, s, calls) && ListsEverybody(cfg, s, calls, started)
    ensures Sums.SeqSum(LinesIn(Lines(cfg, s, calls), club), Amount()) == Staked(s.stakes, club)
  {
    var lines := Lines(cfg, s, calls);
    var own := LinesIn(lines, club);
    RoundSoFar(cfg, s, calls);
    LinesAreTheStakes(cfg, s, calls, started);
    LinesInFrom(s.stakes, lines, AllListed(calls), club);
    forall k | k in s.stakes && k.0 == club && s.stakes[k] != [] ensures k in LineKeys(own) {
      assert k in LineKeys(lines);
      var i :| 0 <= i < |lines| && lines[i].key == k;
      LinesInAreThose(lines, club, lines[i]);
      var j :| 0 <= j < |own| && own[j] == lines[i];
    }
    LinesCoverStakes(s.stakes, own, AllListed(calls), club);
  }
}
