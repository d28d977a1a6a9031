/** The shape of an accepted distribution, for the laws that follow. */
module ClubDistribution {
  import opened Chain
  import opened ClubStaking

  /** The storage once the winners of the round are known. */
  function Known(s: Storage, isFirst: bool): Outcome {
    if isFirst then FindWinners(s) else Ok(s)
  }

  lemma WinnersChangeNothingElse(s: Storage, isFirst: bool)
    requires Known(s, isFirst).Ok?
    ensures var t := Known(s, isFirst).value;
            t == s.(snapshot := t.snapshot, winning := t.winning)
  {
  }

  /** A paid batch: every field after it. */
  predicate IsPaid(cfg: Config, s: Storage, t: Storage, now: nat, saved: nat, stakers: seq<Addr>, club: string,
                   isFinal: bool) {
    && club in s.clubs
    && SharesFor(cfg, s, now, saved, club).Ok?
    && var sh := SharesFor(cfg, s, now, saved, club).value;
    && RewardStakers(sh, s.stakes, club, stakers).Ok?
    && var p := RewardStakers(sh, s.stakes, club, stakers).value;
    && t == s.(stakes := p.stakes,
               clubs := s.clubs[club := s.clubs[club].(total := s.clubs[club].total + p.added)],
               given := s.given + p.given,
               reward := if !isFinal then s.reward
                         else if s.reward > s.given + p.given then s.reward - (s.given + p.given) else 0)
  }

  lemma PaidBatch(cfg: Config, s: Storage, now: nat, saved: nat, stakers: seq<Addr>, club: string, isFinal: bool)
    requires PayBatch(cfg, s, now, saved, stakers, club, isFinal).Ok?
    ensures IsPaid(cfg, s, PayBatch(cfg, s, now, saved, stakers, club, isFinal).value, now, saved, stakers, club, isFinal)
  {
  }

  /** An accepted distribution comes in time; it moves the next reward time, and either there was
      nothing to give or it is a paid batch on top of the known winners. */
  lemma Distributed(cfg: Config, s: Storage, c: Call)
    requires c.msg.Distribute? && Distributing(cfg, s, c).Ok?
    ensures s.nextTime <= c.now && NextTime(cfg, s, c.now, c.msg.isFinal).Ok?
    ensures var timed := s.(nextTime := NextTime(cfg, s, c.now, c.msg.isFinal).value);
            var t := Distributing(cfg, s, c).value;
            if s.reward == 0 then t == timed
            else
              && Known(timed, c.msg.isFirst).Ok?
              && IsPaid(cfg, Known(timed, c.msg.isFirst).value, t, c.now, s.nextTime, c.msg.stakers, c.msg.club,
                        c.msg.isFinal)
  {
    var timed := s.(nextTime := NextTime(cfg, s, c.now, c.msg.isFinal).value);
    if s.reward != 0 {
      PaidBatch(cfg, Known(timed, c.msg.isFirst).value, c.now, s.nextTime, c.msg.stakers, c.msg.club, c.msg.isFinal);
    }
  }

  /** An accepted batch that had something to give. */
  predicate PaysBatch(cfg: Config, s: Storage, c: Call) {
    c.msg.Distribute? && Exec(cfg, s, c).Ok? && s.reward != 0
  }

  /** What such a batch pays by. */
  function BatchShares(cfg: Config, s: Storage, c: Call): Shares
    requires PaysBatch(cfg, s, c)
  {
    var timed := s.(nextTime := NextTime(cfg, s, c.now, c.msg.isFinal).value);
    SharesFor(cfg, Known(timed, c.msg.isFirst).value, c.now, s.nextTime, c.msg.club).value
  }

  /** The shares of a paid batch: its times, and that they are those of the storage with the winners of
      the round. */
  lemma {:induction false} SharesOfABatch(cfg: Config, s: Storage, c: Call)
    requires PaysBatch(cfg, s, c)
    ensures var sh := BatchShares(cfg, s, c);
            && s.nextTime <= c.now && sh.now == c.now && sh.newStart == NewStart(cfg, s.nextTime, c.now)
            && SharesFor(cfg, s.(winning := Exec(cfg, s, c).value.winning), c.now, s.nextTime, c.msg.club) == Ok(sh)
  {
    Distributed(cfg, s, c);
    WinnersChangeNothingElse(s.(nextTime := NextTime(cfg, s, c.now, c.msg.isFinal).value), c.msg.isFirst);
  }

  /** The lists, the total and the running total after a paid batch. */
  lemma BatchIsPaid(cfg: Config, s: Storage, c: Call)
    requires PaysBatch(cfg, s, c)
    ensures var r := RewardStakers(BatchShares(cfg, s, c), s.stakes, c.msg.club, c.msg.stakers);
            var t := Exec(cfg, s, c).value;
            && r.Ok? && c.msg.club in s.clubs
            && t.stakes == r.value.stakes && t.given == s.given + r.value.given
            && t.clubs == s.clubs[c.msg.club := s.clubs[c.msg.club].(total := s.clubs[c.msg.club].total + r.value.added)]
  {
    Distributed(cfg, s, c);
    WinnersChangeNothingElse(s.(nextTime := NextTime(cfg, s, c.now, c.msg.isFinal).value), c.msg.isFirst);
  }

  /** The reward, the winners and the reward time after it. */
  lemma BatchSettles(cfg: Config, s: Storage, c: Call)
    requires PaysBatch(cfg, s, c)
    ensures var t := Exec(cfg, s, c).value;
            && t.reward == (if !c.msg.isFinal then s.reward else if s.reward > t.given then s.reward - t.given else 0)
            && (!c.msg.isFirst ==> t.winning == s.winning)
            && NextTime(cfg, s, c.now, c.msg.isFinal) == Ok(t.nextTime)
  {
    Distributed(cfg, s, c);
    WinnersChangeNothingElse(s.(nextTime := NextTime(cfg, s, c.now, c.msg.isFinal).value), c.msg.isFirst);
  }

  /** Without a reward a distribution moves the reward time only. */
  lemma EmptyBatch(cfg: Config, s: Storage, c: Call)
    requires c.msg.Distribute? && Exec(cfg, s, c).Ok? && s.reward == 0
    ensures NextTime(cfg, s, c.now, c.msg.isFinal).Ok?
    ensures Exec(cfg, s, c).value == s.(nextTime := NextTime(cfg, s, c.now, c.msg.isFinal).value)
  {
  }
}
