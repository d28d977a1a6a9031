/** Who owns a club: nobody owns two, and an owned club changes hands only after its owner has
    released it, within the locking period, with its stake. */
module ClubOwners {
  import opened Chain
  import opened ClubStaking
  import opened ClubDistribution

  /** Owner, release and its time are as they were; only totals may differ. */
  predicate SameOwnership(a: map<string, Club>, b: map<string, Club>) {
    && a.Keys == b.Keys
    && forall c :: c in a ==> b[c] == a[c].(total := b[c].total)
  }

  lemma SavingKeepsOwnership(s: Storage, now: nat, staker: Addr, club: string, amount: nat, auto: bool, increase: bool)
    requires SaveStaking(s, now, staker, club, amount, auto, increase).Ok?
    ensures SameOwnership(s.clubs, SaveStaking(s, now, staker, club, amount, auto, increase).value.clubs)
  {
  }

  lemma {:induction false} AssigningKeepsOwnership(s: Storage, now: nat, list: seq<Assigned>, club: string)
    requires AssignAll(s, now, list, club).Ok?
    ensures SameOwnership(s.clubs, AssignAll(s, now, list, club).value.clubs)
  {
    if list != [] {
      var n := |list| - 1;
      AssigningKeepsOwnership(s, now, list[..n], club);
      var before := AssignAll(s, now, list[..n], club).value;
      SavingKeepsOwnership(before, now, list[n].staker, club, list[n].amount, list[n].auto, true);
    }
  }

  lemma EncashingKeepsOwnership(s: Storage, c: Call)
    requires c.msg.Withdraw? && Encashing(s, c).Ok?
    ensures SameOwnership(s.clubs, Encashing(s, c).value.clubs)
  {
    var m := c.msg;
    var drained := Drain(NewestFirst(s.BondsOf(m.club, m.staker)), m.staker, c.now, m.amount).value;
    SavingKeepsOwnership(s.(bonds := s.bonds[(m.club, m.staker) := drained.kept]), c.now, m.staker, m.club,
                         drained.remaining, false, false);
  }

  lemma UnstakingKeepsOwnership(cfg: Config, s: Storage, c: Call)
    requires c.msg.Withdraw? && Unstaking(cfg, s, c).Ok?
    ensures SameOwnership(s.clubs, Unstaking(cfg, s, c).value.clubs)
  {
    SavingKeepsOwnership(s, c.now, c.msg.staker, c.msg.club, c.msg.amount, false, false);
  }

  lemma WithdrawingKeepsOwnership(cfg: Config, s: Storage, c: Call)
    requires c.msg.Withdraw? && Withdrawing(cfg, s, c).Ok?
    ensures SameOwnership(s.clubs, Withdrawing(cfg, s, c).value.clubs)
  {
    if c.msg.immediate {
      EncashingKeepsOwnership(s, c);
    } else {
      UnstakingKeepsOwnership(cfg, s, c);
    }
  }

  lemma DistributingKeepsOwnership(cfg: Config, s: Storage, c: Call)
    requires c.msg.Distribute? && Exec(cfg, s, c).Ok?
    ensures SameOwnership(s.clubs, Exec(cfg, s, c).value.clubs)
  {
    if s.reward == 0 {
      EmptyBatch(cfg, s, c);
    } else {
      BatchIsPaid(cfg, s, c);
    }
  }

  /** Every message except the three about owners keeps ownership. */
  lemma OthersKeepOwnership(cfg: Config, s: Storage, c: Call)
    requires Exec(cfg, s, c).Ok? && !c.msg.BuyAClub? && !c.msg.AssignAClub? && !c.msg.ReleaseClub?
    ensures SameOwnership(s.clubs, Exec(cfg, s, c).value.clubs)
  {
    match c.msg
    case StakeOnAClub(staker, club, amount, auto) => SavingKeepsOwnership(s, c.now, staker, club, amount, auto, true);
    case AssignStakes(list, club) => AssigningKeepsOwnership(s, c.now, list, club);
    case Withdraw(_, _, _, _) => WithdrawingKeepsOwnership(cfg, s, c);
    case Distribute(_, _, _, _) => DistributingKeepsOwnership(cfg, s, c);
    case _ =>
  }

  predicate TakesOver(c: Call) { c.msg.BuyAClub? || c.msg.AssignAClub? }

  /** Buying and assigning: the club, new or old, belongs to the buyer from now on, with the total
      it had; every other club is as it was. */
  lemma TakingOver(cfg: Config, s: Storage, now: nat, buyer: Addr, seller: Addr, club: string, auto: bool)
    requires HandOver(cfg, s, now, buyer, seller, club, auto).Ok?
    ensures var t := HandOver(cfg, s, now, buyer, seller, club, auto).value;
            && buyer != "" && !OwnsAClub(s, buyer)
            && (club in s.clubs ==> MayChangeHands(s.clubs[club], now, seller).Ok?)
            && t.clubs == s.clubs[club := Club(buyer, now, cfg.releaseLocking, false,
                                               if club in s.clubs then s.clubs[club].total else 0)]
  {
  }

  lemma TakeOverEffect(cfg: Config, s: Storage, c: Call)
    requires TakesOver(c) && Exec(cfg, s, c).Ok?
    ensures HandOver(cfg, s, c.now, c.msg.buyer, c.msg.seller, c.msg.club, c.msg.auto).Ok?
    ensures Exec(cfg, s, c).value == HandOver(cfg, s, c.now, c.msg.buyer, c.msg.seller, c.msg.club, c.msg.auto).value
  {
  }

  /** What every reachable state satisfies: owners have a name, own one club each, and every club
      has the configured locking period. */
  predicate OwnersSound(cfg: Config, clubs: map<string, Club>) {
    && (forall c :: c in clubs ==> clubs[c].owner != "" && clubs[c].lockingPeriod == cfg.releaseLocking)
    && (forall c, d :: c in clubs && d in clubs && clubs[c].owner == clubs[d].owner ==> c == d)
  }

  lemma {:induction false} ExecKeepsOwnersSound(cfg: Config, s: Storage, c: Call)
    requires OwnersSound(cfg, s.clubs) && Exec(cfg, s, c).Ok?
    ensures OwnersSound(cfg, Exec(cfg, s, c).value.clubs)
  {
    if TakesOver(c) {
      TakeOverEffect(cfg, s, c);
      TakingOver(cfg, s, c.now, c.msg.buyer, c.msg.seller, c.msg.club, c.msg.auto);
    } else if !c.msg.ReleaseClub? {
      OthersKeepOwnership(cfg, s, c);
    }
  }

  /** In every reachable state no address owns two clubs. */
  lemma {:induction false} NobodyOwnsTwoClubs(cfg: Config, nextTime: nat, calls: seq<Call>)
    ensures OwnersSound(cfg, Run(cfg, Genesis(nextTime), calls).clubs)
  {
    if calls != [] {
      var n := |calls| - 1;
      NobodyOwnsTwoClubs(cfg, nextTime, calls[..n]);
      if Exec(cfg, Run(cfg, Genesis(nextTime), calls[..n]), calls[n]).Ok? {
        ExecKeepsOwnersSound(cfg, Run(cfg, Genesis(nextTime), calls[..n]), calls[n]);
      }
    }
  }

  /** The call at position `j` of a run is an accepted release of the club by `owner`, and the
      owner has been the same ever since. */
  ghost predicate ReleasedAt(cfg: Config, s: Storage, calls: seq<Call>, j: nat, club: string, owner: Addr) {
    && j < |calls|
    && calls[j].msg == ReleaseClub(owner, club) && calls[j].sender == owner
    && Exec(cfg, Run(cfg, s, calls[..j]), calls[j]).Ok?
    && forall i :: j < i <= |calls| ==>
         club in Run(cfg, s, calls[..i]).clubs && Run(cfg, s, calls[..i]).clubs[club].owner == owner
  }

  lemma ReleaseOutlasts(cfg: Config, s: Storage, calls: seq<Call>, j: nat, club: string, owner: Addr)
    requires calls != [] && ReleasedAt(cfg, s, calls[..|calls| - 1], j, club, owner)
    requires club in Run(cfg, s, calls).clubs && Run(cfg, s, calls).clubs[club].owner == owner
    ensures ReleasedAt(cfg, s, calls, j, club, owner)
  {
    var n := |calls| - 1;
    assert calls[..n][..j] == calls[..j];
    forall i | j < i <= |calls|
      ensures club in Run(cfg, s, calls[..i]).clubs && Run(cfg, s, calls[..i]).clubs[club].owner == owner
    {
      if i <= n {
        assert calls[..n][..i] == calls[..i];
      } else {
        assert calls[..i] == calls;
      }
    }
  }

  lemma ReleaseJustHappened(cfg: Config, s: Storage, calls: seq<Call>, club: string)
    requires calls != [] && calls[|calls| - 1].msg.ReleaseClub? && calls[|calls| - 1].msg.club == club
    requires Exec(cfg, Run(cfg, s, calls[..|calls| - 1]), calls[|calls| - 1]).Ok?
    ensures club in Run(cfg, s, calls).clubs
    ensures ReleasedAt(cfg, s, calls, |calls| - 1, club, Run(cfg, s, calls).clubs[club].owner)
  {
    assert calls[..|calls|] == calls;
  }

  /** A released club was released by its present owner, at the time it records. */
  lemma {:induction false} ReleaseHasAWitness(cfg: Config, s: Storage, calls: seq<Call>, club: string) returns (j: nat)
    requires s.clubs == map[]
    requires club in Run(cfg, s, calls).clubs && Run(cfg, s, calls).clubs[club].released
    ensures ReleasedAt(cfg, s, calls, j, club, Run(cfg, s, calls).clubs[club].owner)
    ensures calls[j].now == Run(cfg, s, calls).clubs[club].start
  {
    var n := |calls| - 1;
    var before, c := Run(cfg, s, calls[..n]), calls[n];
    if Exec(cfg, before, c).Ok? && c.msg.ReleaseClub? && c.msg.club == club {
      ReleaseJustHappened(cfg, s, calls, club);
      j := n;
    } else {
      if Exec(cfg, before, c).Ok? {
        if TakesOver(c) {
          TakeOverEffect(cfg, before, c);
          TakingOver(cfg, before, c.now, c.msg.buyer, c.msg.seller, c.msg.club, c.msg.auto);
        } else if !c.msg.ReleaseClub? {
          OthersKeepOwnership(cfg, before, c);
        }
      }
      j := ReleaseHasAWitness(cfg, s, calls[..n], club);
      ReleaseOutlasts(cfg, s, calls, j, club, Run(cfg, s, calls).clubs[club].owner);
    }
  }

  /** Whenever an owned club changes hands, in any run from an empty contract: its owner had
      released it, had been its owner ever since, is the one named as the seller, the release is
      no older than the configured locking period, and the club keeps its stake. */
  lemma {:induction false} OwnersChangeOnlyAfterRelease(cfg: Config, nextTime: nat, calls: seq<Call>, c: Call, club: string)
    returns (j: nat)
    requires Exec(cfg, Run(cfg, Genesis(nextTime), calls), c).Ok?
    requires club in Run(cfg, Genesis(nextTime), calls).clubs
    requires var t := Exec(cfg, Run(cfg, Genesis(nextTime), calls), c).value;
             club !in t.clubs || t.clubs[club].owner != Run(cfg, Genesis(nextTime), calls).clubs[club].owner
    ensures var s := Run(cfg, Genesis(nextTime), calls);
            var t := Exec(cfg, s, c).value;
            && ReleasedAt(cfg, Genesis(nextTime), calls, j, club, s.clubs[club].owner)
            && c.now <= calls[j].now + cfg.releaseLocking * NANOS
            && TakesOver(c) && c.msg.club == club && c.msg.seller == s.clubs[club].owner
            && club in t.clubs && t.clubs[club].owner == c.msg.buyer
            && t.clubs[club].total == s.clubs[club].total
  {
    var s := Run(cfg, Genesis(nextTime), calls);
    NobodyOwnsTwoClubs(cfg, nextTime, calls);
    if TakesOver(c) {
      TakeOverEffect(cfg, s, c);
      TakingOver(cfg, s, c.now, c.msg.buyer, c.msg.seller, c.msg.club, c.msg.auto);
    } else if !c.msg.ReleaseClub? {
      OthersKeepOwnership(cfg, s, c);
    }
    j := ReleaseHasAWitness(cfg, Genesis(nextTime), calls, club);
  }
}
