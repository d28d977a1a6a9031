/** Claims over whole runs: no entry is paid twice, and a gamer whose refund is blocked in a cancelled
    game stays blocked; with a run that gets there. */
module GamingClaims {
  import opened Chain
  import opened GamingPool
  import opened GamingLaws
  import KeyOrder

  // Once.

  /** The call is an accepted claim that pays for the team at this place. */
  predicate PaysEntry(cfg: Config, l: Lobby, c: Call, k: (string, Addr), i: nat) {
    && c.msg.ClaimReward? && c.msg.gamer == k.1 && Exec(cfg, l, c).Ok?
    && k in l.teams && i < |l.teams[k]| && !l.teams[k][i].claimedReward
    && k.0 in l.pools && l.pools[k.0].rewardStatus
  }

  lemma PayingMarks(cfg: Config, l: Lobby, c: Call, k: (string, Addr), i: nat)
    requires PaysEntry(cfg, l, c, k, i)
    ensures Exec(cfg, l, c).Ok? && Claimed(Exec(cfg, l, c).value, k, i)
  {
  }

  predicate Claimed(l: Lobby, k: (string, Addr), i: nat) {
    k in l.teams && i < |l.teams[k]| && l.teams[k][i].claimedReward
  }

  lemma {:induction false} RunInTwo(cfg: Config, l: Lobby, calls: seq<Call>, more: seq<Call>)
    ensures Run(cfg, Run(cfg, l, calls), more) == Run(cfg, l, calls + more)
  {
    if more == [] {
      assert calls + more == calls;
    } else {
      var n := |more| - 1;
      RunInTwo(cfg, l, calls, more[..n]);
      var all := calls + more;
      assert all[..|all| - 1] == calls + more[..n] && all[|all| - 1] == more[n];
    }
  }

  lemma RunUpTo(cfg: Config, l: Lobby, calls: seq<Call>, p: nat, q: nat)
    requires p < q < |calls| && Exec(cfg, Run(cfg, l, calls[..p]), calls[p]).Ok?
    ensures Run(cfg, l, calls[..p + 1]) == Exec(cfg, Run(cfg, l, calls[..p]), calls[p]).value
    ensures Run(cfg, l, calls[..q]) == Run(cfg, Run(cfg, l, calls[..p + 1]), calls[p + 1..q])
  {
    assert calls[..p + 1][..p] == calls[..p];
    assert calls[..q] == calls[..p + 1] + calls[p + 1..q];
    RunInTwo(cfg, l, calls[..p + 1], calls[p + 1..q]);
  }

  lemma ClaimedStaysClaimed(cfg: Config, l: Lobby, calls: seq<Call>, k: (string, Addr), i: nat)
    requires Claimed(l, k, i)
    ensures Claimed(Run(cfg, l, calls), k, i)
  {
    ClaimsAreNeverTakenBack(cfg, l, calls);
    assert Later(l.teams[k][i], Run(cfg, l, calls).teams[k][i]);
  }

  /** Over every run each team entry is paid by at most one accepted reward claim. */
  lemma EntriesArePaidOnce(cfg: Config, l: Lobby, calls: seq<Call>, p: nat, q: nat, k: (string, Addr), i: nat)
    requires p < q < |calls|
    requires PaysEntry(cfg, Run(cfg, l, calls[..p]), calls[p], k, i)
    ensures !PaysEntry(cfg, Run(cfg, l, calls[..q]), calls[q], k, i)
  {
    PayingMarks(cfg, Run(cfg, l, calls[..p]), calls[p], k, i);
    RunUpTo(cfg, l, calls, p, q);
    ClaimedStaysClaimed(cfg, Run(cfg, l, calls[..p + 1]), calls[p + 1..q], k, i);
  }

  // Blocked for good.

  predicate Stuck(l: Lobby, gamer: Addr) {
    l.status == Cancelled && Blocked(l, PoolKeys(l), gamer)
  }

  /** Once cancelled, the pools are as they are. */
  lemma CancelledPoolsStay(cfg: Config, l: Lobby, c: Call)
    requires l.status == Cancelled && Exec(cfg, l, c).Ok?
    ensures Exec(cfg, l, c).value.status == Cancelled && Exec(cfg, l, c).value.pools == l.pools
  {
  }

  lemma RefundedStaysRefunded(list: seq<Team>, later: seq<Team>)
    requires AnyRefunded(list) && |list| <= |later|
    requires forall i :: 0 <= i < |list| ==> Later(list[i], later[i])
    ensures AnyRefunded(later)
  {
    var i :| 0 <= i < |list| && list[i].claimedRefund;
    assert later[i].claimedRefund;
  }

  lemma StuckStep(cfg: Config, l: Lobby, c: Call, gamer: Addr)
    requires Stuck(l, gamer) && Exec(cfg, l, c).Ok?
    ensures Stuck(Exec(cfg, l, c).value, gamer)
  {
    var m, keys := Exec(cfg, l, c).value, PoolKeys(l);
    CancelledPoolsStay(cfg, l, c);
    StepKeepsEntries(cfg, l, c);
    var i :| 0 <= i < |keys| && keys[i] in l.pools && l.pools[keys[i]].refundStatus
             && AnyRefunded(l.TeamsOf(keys[i], gamer));
    assert (keys[i], gamer) in l.teams;
    RefundedStaysRefunded(l.TeamsOf(keys[i], gamer), m.TeamsOf(keys[i], gamer));
  }

  lemma {:induction false} StuckForever(cfg: Config, l: Lobby, calls: seq<Call>, gamer: Addr)
    requires Coherent(cfg, l) && Stuck(l, gamer)
    ensures Coherent(cfg, Run(cfg, l, calls)) && Stuck(Run(cfg, l, calls), gamer)
  {
    if calls != [] {
      var n := |calls| - 1;
      var before := Run(cfg, l, calls[..n]);
      StuckForever(cfg, l, calls[..n], gamer);
      if Exec(cfg, before, calls[n]).Ok? {
        ExecCoherent(cfg, before, calls[n]);
        StuckStep(cfg, before, calls[n], gamer);
      }
    }
  }

  lemma BlockedClaimsFail(cfg: Config, l: Lobby, c: Call)
    requires c.msg.ClaimRefund? && WellFiled(cfg, l) && Blocked(l, PoolKeys(l), c.msg.gamer)
    ensures Exec(cfg, l, c).Err?
  {
    RefundDueIsShown(cfg, l, PoolKeys(l), c.msg.gamer);
  }

  /** A gamer with a refunded team in a refundable pool of a cancelled game is refused every refund
      claim from then on, whatever else is called. */
  lemma BlockedRefundsAreRefusedForGood(cfg: Config, l: Lobby, calls: seq<Call>, c: Call)
    requires c.msg.ClaimRefund? && Coherent(cfg, l) && Stuck(l, c.msg.gamer)
    ensures Exec(cfg, Run(cfg, l, calls), c).Err?
  {
    StuckForever(cfg, l, calls, c.msg.gamer);
    BlockedClaimsFail(cfg, Run(cfg, l, calls), c);
  }

  // A run that blocks a refund.

  /** Two pools and the teams of one gamer in them. */
  predicate Desk(l: Lobby, status: Status, g: Addr, first: string, second: string, one: Pool, two: Pool,
                 ones: seq<Team>, twos: seq<Team>) {
    && first != second && l.status == status
    && l.types == map["full" := PoolType(10, 1, 5, 5)]["thin" := PoolType(10, 2, 5, 5)]
    && l.pools == map[first := one][second := two]
    && l.TeamsOf(first, g) == ones && l.TeamsOf(second, g) == twos
  }

  function Entry(cfg: Config, g: Addr): Team { Team(g, "team", cfg.gameId, 0, false, 0, false) }

  function By(sender: Addr, msg: Msg): Call { Call(sender, true, 10, true, true, msg) }

  lemma {:induction false} DeskIsSet(cfg: Config, g: Addr, first: string, second: string)
    requires first == KeyOrder.Decimal(1) && second == KeyOrder.Decimal(2)
    ensures Desk(Run(cfg, GENESIS, Opening(cfg)), Open, g, first, second, Pool("full", 0, false, false, false),
                 Pool("thin", 0, false, false, false), [], [])
  {
    if first == second {
      KeyOrder.DecimalInjective(1, 2);
    }
    var a, b, c := [By(cfg.admin, SetPoolType("full", PoolType(10, 1, 5, 5)))],
                   By(cfg.admin, SetPoolType("thin", PoolType(10, 2, 5, 5))), By(cfg.admin, CreatePool("full"));
    assert "full"[0] != "thin"[0];
    assert a[..0] == [] && Run(cfg, GENESIS, []) == GENESIS;
    OneMoreCall(cfg, a, b);
    OneMoreCall(cfg, a + [b], c);
    OneMoreCall(cfg, a + [b] + [c], By(cfg.admin, CreatePool("thin")));
  }

  function Opening(cfg: Config): seq<Call> {
    [By(cfg.admin, SetPoolType("full", PoolType(10, 1, 5, 5)))]
    + [By(cfg.admin, SetPoolType("thin", PoolType(10, 2, 5, 5)))]
    + [By(cfg.admin, CreatePool("full"))]
    + [By(cfg.admin, CreatePool("thin"))]
  }

  lemma OneMoreCall(cfg: Config, calls: seq<Call>, c: Call)
    ensures var r := Exec(cfg, Run(cfg, GENESIS, calls), c);
            Run(cfg, GENESIS, calls + [c]) == if r.Ok? then r.value else Run(cfg, GENESIS, calls)
  {
    assert (calls + [c])[..|calls|] == calls;
  }

  lemma FirstBid(cfg: Config, l: Lobby, g: Addr, first: string, second: string)
    requires Desk(l, Open, g, first, second, Pool("full", 0, false, false, false), Pool("thin", 0, false, false, false),
                  [], [])
    ensures var r := Exec(cfg, l, By(g, Bid(g, "full", first, "team", 10)));
            r.Ok? && Desk(r.value, Open, g, first, second, Pool("full", 1, false, false, false),
                          Pool("thin", 0, false, false, false), [Entry(cfg, g)], [])
  {
    assert "full"[0] != "thin"[0];
    assert [] + [Entry(cfg, g)] == [Entry(cfg, g)];
  }

  lemma SecondBid(cfg: Config, l: Lobby, g: Addr, first: string, second: string)
    requires Desk(l, Open, g, first, second, Pool("full", 1, false, false, false), Pool("thin", 0, false, false, false),
                  [Entry(cfg, g)], [])
    ensures var r := Exec(cfg, l, By(g, Bid(g, "thin", second, "team", 10)));
            r.Ok? && Desk(r.value, Open, g, first, second, Pool("full", 1, false, false, false),
                          Pool("thin", 1, false, false, false), [Entry(cfg, g)], [Entry(cfg, g)])
  {
    assert "full"[0] != "thin"[0];
    assert [] + [Entry(cfg, g)] == [Entry(cfg, g)];
  }

  /** The lock flags the thin pool only. */
  lemma {:induction false} Locked(cfg: Config, l: Lobby, g: Addr, first: string, second: string)
    requires Desk(l, Open, g, first, second, Pool("full", 1, false, false, false), Pool("thin", 1, false, false, false),
                  [Entry(cfg, g)], [Entry(cfg, g)])
    ensures var r := Exec(cfg, l, By(cfg.admin, LockGame));
            r.Ok? && Desk(r.value, Closed, g, first, second, Pool("full", 1, false, false, false),
                          Pool("thin", 1, false, true, false), [Entry(cfg, g)], [Entry(cfg, g)])
  {
    assert "full"[0] != "thin"[0];
    assert first in PoolKeys(l) && second in PoolKeys(l);
  }

  lemma FlagsAll(l: Lobby, first: string, second: string)
    requires first != second && TypesKnown(l)
    requires l.pools == map[first := Pool("full", 1, false, false, false)]
                           [second := Pool("thin", 1, false, true, false)]
    ensures Flagged(l, PoolKeys(l), false) == map[first := Pool("full", 1, false, true, false)]
                                              [second := Pool("thin", 1, false, true, false)]
  {
    assert first in PoolKeys(l) && second in PoolKeys(l);
  }

  /** The cancellation flags both. */
  lemma CancelledThen(cfg: Config, l: Lobby, g: Addr, first: string, second: string, ones: seq<Team>, twos: seq<Team>)
    requires Desk(l, Closed, g, first, second, Pool("full", 1, false, false, false), Pool("thin", 1, false, true, false),
                  ones, twos)
    ensures var r := Exec(cfg, l, By(cfg.admin, CancelGame));
            r.Ok? && Desk(r.value, Cancelled, g, first, second, Pool("full", 1, false, true, false),
                          Pool("thin", 1, false, true, false), ones, twos)
  {
    assert "full"[0] != "thin"[0];
    FlagsAll(l, first, second);
  }

  /** Two pools, in one order or the other. */
  lemma TwoPools(l: Lobby, first: string, second: string)
    requires first != second && l.pools.Keys == {first, second}
    ensures PoolKeys(l) == [first, second] || PoolKeys(l) == [second, first]
  {
    var keys := PoolKeys(l);
    KeyOrder.AscendingLength(l.pools.Keys);
    assert |{first, second}| == 2;
    KeyOrder.AscendingFresh(l.pools.Keys, 1);
    assert keys[0] in keys && keys[1] in keys && keys[0] in keys[..1];
  }

  lemma DueOfTwo(l: Lobby, a: string, b: string, g: Addr)
    requires RefundIn(l, a, g).Ok? && RefundIn(l, b, g).Ok?
    ensures RefundDue(l, [a, b], g) == Ok(RefundIn(l, a, g).value + RefundIn(l, b, g).value)
  {
    assert [a, b][..1] == [a] && [a][..0] == [];
    assert RefundDue(l, [], g) == Ok(0);
    assert RefundDue(l, [a], g) == Ok(RefundIn(l, a, g).value);
  }

  lemma ShownOfTwo(l: Lobby, a: string, b: string, g: Addr)
    requires RefundShownIn(l, a, g).Ok? && RefundShownIn(l, b, g).Ok?
    ensures QueryRefund(l, [a, b], g) == Ok(RefundShownIn(l, a, g).value + RefundShownIn(l, b, g).value)
  {
    assert [a, b][..1] == [a] && [a][..0] == [];
    assert QueryRefund(l, [], g) == Ok(0);
    assert QueryRefund(l, [a], g) == Ok(RefundShownIn(l, a, g).value);
  }

  /** The claim after the lock settles the thin pool's fee. */
  lemma {:induction false} FirstClaim(cfg: Config, l: Lobby, g: Addr, first: string, second: string)
    requires cfg.platformFee <= 10000 && cfg.transactionFee <= 10000
    requires Desk(l, Closed, g, first, second, Pool("full", 1, false, false, false), Pool("thin", 1, false, true, false),
                  [Entry(cfg, g)], [Entry(cfg, g)])
    ensures var r := Exec(cfg, l, By(g, ClaimRefund(g)));
            r.Ok? && Desk(r.value, Closed, g, first, second, Pool("full", 1, false, false, false),
                          Pool("thin", 1, false, true, false), [Entry(cfg, g)],
                          [Entry(cfg, g).(refund := 10, claimedRefund := true)])
  {
    assert "full"[0] != "thin"[0];
    TwoPools(l, first, second);
    DueOfTwo(l, first, second, g);
    DueOfTwo(l, second, first, g);
    assert RefundDue(l, PoolKeys(l), g) == Ok(10);
    assert (first, g) in l.teams && (second, g) in l.teams;
    assert RefundMarked([Entry(cfg, g)], 10) == [Entry(cfg, g).(refund := 10, claimedRefund := true)];
  }

  lemma ShownButBlocked(cfg: Config, l: Lobby, g: Addr, first: string, second: string)
    requires Desk(l, Cancelled, g, first, second, Pool("full", 1, false, true, false), Pool("thin", 1, false, true, false),
                  [Entry(cfg, g)], [Entry(cfg, g).(refund := 10, claimedRefund := true)])
    ensures QueryRefund(l, PoolKeys(l), g) == Ok(10) && Stuck(l, g)
  {
    assert "full"[0] != "thin"[0];
    TwoPools(l, first, second);
    assert [Entry(cfg, g)][..0] == [] && RefundsShown([], g) == 0;
    assert RefundsShown([Entry(cfg, g)], g) == 1;
    assert RefundShownIn(l, first, g) == Ok(10);
    var done := Entry(cfg, g).(refund := 10, claimedRefund := true);
    assert [done][..0] == [] && [done][0].claimedRefund;
    assert RefundShownIn(l, second, g) == Ok(0);
    ShownOfTwo(l, first, second, g);
    ShownOfTwo(l, second, first, g);
    assert second in PoolKeys(l);
  }

  /** One gamer enters a pool that fills and a pool that does not, is refunded after the lock, and the
      game is cancelled. */
  function BlockingRun(cfg: Config, g: Addr): seq<Call> {
    Opening(cfg)
    + [By(g, Bid(g, "full", KeyOrder.Decimal(1), "team", 10))]
    + [By(g, Bid(g, "thin", KeyOrder.Decimal(2), "team", 10))]
    + [By(cfg.admin, LockGame)]
    + [By(g, ClaimRefund(g))]
    + [By(cfg.admin, CancelGame)]
  }

  /** After this run the query shows the gamer a refund of 10, and no claim of it is ever accepted. */
  lemma ARefundCanBeShownAndBlocked(cfg: Config, g: Addr, calls: seq<Call>)
    requires cfg.platformFee <= 10000 && cfg.transactionFee <= 10000
    ensures var l := Run(cfg, GENESIS, BlockingRun(cfg, g));
            && QueryRefund(l, PoolKeys(l), g) == Ok(10) && Stuck(l, g)
            && forall c: Call :: c.msg == ClaimRefund(g) ==> Exec(cfg, Run(cfg, l, calls), c).Err?
  {
    var p, q := KeyOrder.Decimal(1), KeyOrder.Decimal(2);
    var c1, c2, c3 := By(g, Bid(g, "full", p, "team", 10)), By(g, Bid(g, "thin", q, "team", 10)), By(cfg.admin, LockGame);
    var c4, c5 := By(g, ClaimRefund(g)), By(cfg.admin, CancelGame);
    DeskIsSet(cfg, g, p, q);
    FirstBid(cfg, Run(cfg, GENESIS, Opening(cfg)), g, p, q);
    OneMoreCall(cfg, Opening(cfg), c1);
    var r1 := Opening(cfg) + [c1];
    SecondBid(cfg, Run(cfg, GENESIS, r1), g, p, q);
    OneMoreCall(cfg, r1, c2);
    var r2 := r1 + [c2];
    Locked(cfg, Run(cfg, GENESIS, r2), g, p, q);
    OneMoreCall(cfg, r2, c3);
    var r3 := r2 + [c3];
    FirstClaim(cfg, Run(cfg, GENESIS, r3), g, p, q);
    OneMoreCall(cfg, r3, c4);
    var r4 := r3 + [c4];
    CancelledThen(cfg, Run(cfg, GENESIS, r4), g, p, q, [Entry(cfg, g)],
                  [Entry(cfg, g).(refund := 10, claimedRefund := true)]);
    OneMoreCall(cfg, r4, c5);
    var l := Run(cfg, GENESIS, BlockingRun(cfg, g));
    ShownButBlocked(cfg, l, g, p, q);
    EveryReachableStateIsCoherent(cfg, BlockingRun(cfg, g));
    forall c: Call | c.msg == ClaimRefund(g) ensures Exec(cfg, Run(cfg, l, calls), c).Err? {
      BlockedRefundsAreRefusedForGood(cfg, l, calls, c);
    }
  }
}
