/** The reward over every run, whatever is called: it is what was raised less what final batches took
    out of it, and each of these takes out what has been paid to stakes since the last raise. */
module ClubPot {
  import opened Chain
  import opened ClubStaking
  import opened ClubDistribution
  import opened ClubOwners
  import opened ClubLedger
  import opened ClubSchedule
  import opened ClubRewards
  import opened ClubRounds
  import Sums

  /** What a message pays to stakes, stake by stake. */
  function PaidToStakes(cfg: Config, s: Storage, c: Call): int {
    if !PaysBatch(cfg, s, c) then 0
    else Sums.SeqSum(ReceiptsOf(cfg, s, c), Paying(cfg, s.(winning := Exec(cfg, s, c).value.winning)))
  }

  /** What was paid to stakes since the reward was raised last. */
  function PaidSinceRaise(cfg: Config, s: Storage, calls: seq<Call>): int {
    if calls == [] then 0 else
      var n := |calls| - 1;
      var before, c := Run(cfg, s, calls[..n]), calls[n];
      if c.msg.IncreaseReward? && Exec(cfg, before, c).Ok? then 0
      else PaidSinceRaise(cfg, s, calls[..n]) + PaidToStakes(cfg, before, c)
  }

  function Raised(cfg: Config, s: Storage, calls: seq<Call>): nat {
    if calls == [] then 0 else
      var n := |calls| - 1;
      Raised(cfg, s, calls[..n]) +
      if calls[n].msg.IncreaseReward? && Exec(cfg, Run(cfg, s, calls[..n]), calls[n]).Ok? then calls[n].msg.amount else 0
  }

  function Min(a: int, b: int): int { if a < b then a else b }

  /** What final batches took out: all that was paid since the last raise, as far as there was any. */
  function TakenOut(cfg: Config, s: Storage, calls: seq<Call>): int {
    if calls == [] then 0 else
      var n := |calls| - 1;
      var before, c := Run(cfg, s, calls[..n]), calls[n];
      TakenOut(cfg, s, calls[..n]) +
      if PaysBatch(cfg, before, c) && c.msg.isFinal then Min(before.reward, PaidSinceRaise(cfg, s, calls)) else 0
  }

  lemma SavingKeepsReward(s: Storage, now: nat, staker: Addr, club: string, amount: nat, auto: bool, increase: bool)
    requires SaveStaking(s, now, staker, club, amount, auto, increase).Ok?
    ensures var t := SaveStaking(s, now, staker, club, amount, auto, increase).value;
            t.reward == s.reward && t.given == s.given
  {
  }

  lemma {:induction false} AssigningKeepsReward(s: Storage, now: nat, list: seq<Assigned>, club: string)
    requires AssignAll(s, now, list, club).Ok?
    ensures var t := AssignAll(s, now, list, club).value;
            t.reward == s.reward && t.given == s.given
  {
    if list != [] {
      var n := |list| - 1;
      AssigningKeepsReward(s, now, list[..n], club);
      SavingKeepsReward(AssignAll(s, now, list[..n], club).value, now, list[n].staker, club, list[n].amount,
                        list[n].auto, true);
    }
  }

  lemma WithdrawingKeepsReward(cfg: Config, s: Storage, c: Call)
    requires c.msg.Withdraw? && Withdrawing(cfg, s, c).Ok?
    ensures var t := Withdrawing(cfg, s, c).value;
            t.reward == s.reward && t.given == s.given
  {
  }

  lemma HandingOverKeepsReward(cfg: Config, s: Storage, c: Call)
    requires TakesOver(c) && Exec(cfg, s, c).Ok?
    ensures var t := Exec(cfg, s, c).value;
            t.reward == s.reward && t.given == s.given
  {
    TakeOverEffect(cfg, s, c);
  }

  /** No message but a raise and a distribution touches the reward. */
  lemma OthersKeepReward(cfg: Config, s: Storage, c: Call)
    requires Exec(cfg, s, c).Ok? && !c.msg.IncreaseReward? && !PaysBatch(cfg, s, c)
    ensures var t := Exec(cfg, s, c).value;
            t.reward == s.reward && t.given == s.given
  {
    match c.msg
    case StakeOnAClub(staker, club, amount, auto) => SavingKeepsReward(s, c.now, staker, club, amount, auto, true);
    case AssignStakes(list, club) => AssigningKeepsReward(s, c.now, list, club);
    case BuyAClub(_, _, _, _) => HandingOverKeepsReward(cfg, s, c);
    case AssignAClub(_, _, _, _) => HandingOverKeepsReward(cfg, s, c);
    case Withdraw(_, _, _, _) => WithdrawingKeepsReward(cfg, s, c);
    case Distribute(_, _, _, _) => EmptyBatch(cfg, s, c);
    case _ =>
  }

  /** The reward and the running total over every run from an empty contract. */
  lemma {:induction false} RewardIsRaisedLessTakenOut(cfg: Config, nextTime: nat, calls: seq<Call>)
    ensures var s := Genesis(nextTime);
            && Run(cfg, s, calls).reward == Raised(cfg, s, calls) - TakenOut(cfg, s, calls)
            && Run(cfg, s, calls).given == PaidSinceRaise(cfg, s, calls)
  {
    if calls != [] {
      var n := |calls| - 1;
      var before, c := Run(cfg, Genesis(nextTime), calls[..n]), calls[n];
      RewardIsRaisedLessTakenOut(cfg, nextTime, calls[..n]);
      if PaysBatch(cfg, before, c) {
        BatchAdds(cfg, before, c, before.(winning := Exec(cfg, before, c).value.winning));
        BatchSettles(cfg, before, c);
      } else if Exec(cfg, before, c).Ok? && !c.msg.IncreaseReward? {
        OthersKeepReward(cfg, before, c);
      }
    }
  }
}
