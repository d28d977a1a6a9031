/** The terms of the pool's messages: what an addition, a redemption and a swap must give and take, to
    within the rounding, and exactly when each is accepted. */
module SwapTerms {
  import opened Chain
  import opened SwapPool
  import Cw20Accounts
  import Cw20Laws
  import Cw20Token
  import opened Nonlinear
  import opened SwapLaws

  /** The least whole fee for `times` the exact share of an amount: what is short of the exact fee is
      less than one unit. */
  predicate PaysFee(terms: Terms, amount: nat, times: nat, fee: nat) {
    amount * (terms.platformFee + terms.txFee) * times < 1000 * (fee + 1)
  }

  lemma FeeCovers(terms: Terms, amount: nat, times: nat, fee: nat)
    requires LeastFee(terms, amount, times).Ok?
    ensures fee >= LeastFee(terms, amount, times).value <==> PaysFee(terms, amount, times, fee)
  {
    var exact := amount * terms.Fees() * times;
    assert LeastFee(terms, amount, times).value == exact / THOUSAND;
  }

  /** The width of the products in the fee check. */
  predicate FeeFits(terms: Terms, amount: nat, times: nat) {
    terms.platformFee + terms.txFee <= U64_MAX && Fits(amount * (terms.platformFee + terms.txFee) * times)
  }

  /** The message comes before the block or the time its sender has set, if any. */
  predicate Timely(expiration: Option<Cw20Token.Expiration>, block: Block) {
    expiration.None? || Cw20Accounts.InTime(expiration.value, block)
  }

  // Adding liquidity.

  /** `minted` is the share of the deposit, rounded down, and `token2` what goes with it, rounded up to
      the next whole unit; an empty pool takes any ratio. */
  predicate IsFairAddition(p: Pool, token1: nat, maxToken2: nat, minted: nat, token2: nat) {
    if p.Supply() == 0 then minted == token1 && token2 == maxToken2 else
      && minted * p.reserve1 <= token1 * p.Supply() < (minted + 1) * p.reserve1
      && token2 > 0 && (token2 - 1) * p.reserve1 <= token1 * p.reserve2 < token2 * p.reserve1
  }

  lemma {:induction false} OneFloor(a: nat, b: nat, q: nat)
    requires b > 0 && q * b <= a < (q + 1) * b
    ensures q == Floor(a, b)
  {
    var f := Floor(a, b);
    if q < f {
      MulLe(q + 1, f, b);
    } else if f < q {
      MulLe(f + 1, q, b);
    }
  }

  lemma MintedIsTheShare(p: Pool, token1: nat, maxToken2: nat, minted: nat, token2: nat)
    requires IsFairAddition(p, token1, maxToken2, minted, token2)
    requires p.Supply() > 0 ==> p.reserve1 > 0 && Fits(token1 * p.Supply()) && Fits(token1 * p.reserve2) && Fits(token2)
    ensures LpToMint(token1, p.Supply(), p.reserve1) == Ok(minted)
    ensures Token2Required(maxToken2, token1, p.Supply(), p.reserve2, p.reserve1) == Ok(token2)
  {
    if p.Supply() > 0 {
      OneFloor(token1 * p.Supply(), p.reserve1, minted);
      OneFloor(token1 * p.reserve2, p.reserve1, token2 - 1);
    }
  }

  lemma SharesAreFair(p: Pool, token1: nat, maxToken2: nat)
    requires LpToMint(token1, p.Supply(), p.reserve1).Ok?
    requires Token2Required(maxToken2, token1, p.Supply(), p.reserve2, p.reserve1).Ok?
    ensures IsFairAddition(p, token1, maxToken2, LpToMint(token1, p.Supply(), p.reserve1).value,
                           Token2Required(maxToken2, token1, p.Supply(), p.reserve2, p.reserve1).value)
    ensures p.Supply() > 0 ==> p.reserve1 > 0
  {
  }

  /** An accepted addition: the depositor's tokens buy exactly their share of the pool, to within one
      share and one unit of token 2. */
  lemma {:induction false} AdditionsAreFair(terms: Terms, p: Pool, s: Step)
    requires s.ToPool? && s.msg.AddLiquidity? && Exec(terms, p, s).Ok?
    ensures var q, m := Exec(terms, p, s).value, s.msg;
            && q.Supply() > p.Supply() && q.reserve2 >= p.reserve2 && (p.Supply() > 0 ==> p.reserve1 > 0)
            && q.reserve1 == p.reserve1 + m.token1Amount
            && IsFairAddition(p, m.token1Amount, m.maxToken2, q.Supply() - p.Supply(), q.reserve2 - p.reserve2)
            && q.owner == p.owner && q.treasury == p.treasury
  {
    AddEffect(terms, p, s);
    SharesAreFair(p, s.msg.token1Amount, s.msg.maxToken2);
  }

  /** It stays within the limits and pays the fee that the depositor agreed to. */
  lemma {:induction false} AdditionsKeepTheLimits(terms: Terms, p: Pool, s: Step)
    requires s.ToPool? && s.msg.AddLiquidity? && Exec(terms, p, s).Ok?
    ensures var q, m := Exec(terms, p, s).value, s.msg;
            && q.Supply() - p.Supply() >= m.minLiquidity && q.reserve2 - p.reserve2 <= m.maxToken2
            && PaysFee(terms, m.token1Amount, 2, m.feeAmount) && s.usdc == m.token1Amount + m.feeAmount
  {
    AddEffect(terms, p, s);
    FeeCovers(terms, s.msg.token1Amount, 2, s.msg.feeAmount);
  }

  /** All that an addition mints goes to the pool's owner, and no other LP balance moves. */
  lemma {:induction false} SharesGoToTheOwner(terms: Terms, p: Pool, s: Step, a: Addr)
    requires s.ToPool? && s.msg.AddLiquidity? && Exec(terms, p, s).Ok?
    ensures var q := Exec(terms, p, s).value;
            q.lp.BalanceOf(a) == p.lp.BalanceOf(a) + if a == p.owner then q.Supply() - p.Supply() else 0
  {
    AddEffect(terms, p, s);
    var minted := LpToMint(s.msg.token1Amount, p.Supply(), p.reserve1).value;
    var c := Cw20Token.Call(s.block, terms.self, true, Cw20Token.Mint(p.owner, minted));
    assert Exec(terms, p, s).value.lp == Cw20Token.Exec(p.lp, c).value;
    Cw20Accounts.BalanceStep(p.lp, c, a);
  }

  /** When an addition is accepted, in terms of the shares and the token 2 that are fair. */
  lemma {:induction false} AdditionsAreAcceptedExactlyWhen(terms: Terms, p: Pool, s: Step, minted: nat, token2: nat)
    requires Sane(terms, p) && (p.Supply() > 0 ==> p.reserve1 > 0)
    requires s.ToPool? && s.msg.AddLiquidity?
    requires IsFairAddition(p, s.msg.token1Amount, s.msg.maxToken2, minted, token2)
    requires p.Supply() > 0 ==> Fits(s.msg.token1Amount * p.Supply()) && Fits(s.msg.token1Amount * p.reserve2) && Fits(token2)
    ensures var m := s.msg;
            Exec(terms, p, s).Ok? <==>
              && Timely(m.expiration, s.block) && s.delivered
              && Fits(m.token1Amount + m.feeAmount) && s.usdc == m.token1Amount + m.feeAmount
              && minted > 0 && minted >= m.minLiquidity && token2 <= m.maxToken2
              && FeeFits(terms, m.token1Amount, 2) && PaysFee(terms, m.token1Amount, 2, m.feeAmount)
              && Fits(p.reserve1 + m.token1Amount) && Fits(p.reserve2 + token2) && Fits(p.Supply() + minted)
              && (s.sender == p.owner || s.sender == p.treasury || Fits(token2 * 2))
  {
    MintedIsTheShare(p, s.msg.token1Amount, s.msg.maxToken2, minted, token2);
    if FeeFits(terms, s.msg.token1Amount, 2) {
      FeeCovers(terms, s.msg.token1Amount, 2, s.msg.feeAmount);
    }
    Cw20Laws.IssueSound(p.lp, terms.self, p.owner, minted);
  }

  // Redeeming.

  /** An accepted redemption pays each reserve's part of the shares, rounded down, under the holder's
      minimums, and takes exactly those shares from the holder. */
  lemma {:induction false} RedemptionsAreFair(terms: Terms, p: Pool, s: Step, a: Addr)
    requires Sane(terms, p) && s.ToPool? && s.msg.RemoveLiquidity? && Exec(terms, p, s).Ok?
    ensures var q, m := Exec(terms, p, s).value, s.msg;
            var paid1, paid2 := p.reserve1 - q.reserve1, p.reserve2 - q.reserve2;
            && p.Supply() > 0 && q.Supply() == p.Supply() - m.amount
            && paid1 * p.Supply() <= m.amount * p.reserve1 < (paid1 + 1) * p.Supply()
            && paid2 * p.Supply() <= m.amount * p.reserve2 < (paid2 + 1) * p.Supply()
            && paid1 >= m.minToken1 && paid2 >= m.minToken2
            && q.lp.BalanceOf(a) + (if a == s.sender then m.amount else 0) == p.lp.BalanceOf(a)
            && q.owner == p.owner && q.treasury == p.treasury
  {
    RemoveStep(terms, p, s);
    var c := Cw20Token.Call(s.block, terms.self, true, Cw20Token.BurnFrom(s.sender, s.msg.amount));
    assert Exec(terms, p, s).value.lp == Cw20Token.Exec(p.lp, c).value;
    Cw20Accounts.BalanceStep(p.lp, c, a);
  }

  /** When a redemption is accepted: the holder has the shares and has allowed the pool to burn them, and
      the parts are worth the minimums. The reserves always cover it. */
  lemma {:induction false} RedemptionsAreAcceptedExactlyWhen(terms: Terms, p: Pool, s: Step)
    requires Sane(terms, p) && p.Supply() > 0 && s.ToPool? && s.msg.RemoveLiquidity?
    requires Fits(s.msg.amount * p.reserve1) && Fits(s.msg.amount * p.reserve2)
    ensures var m, grant := s.msg, (s.sender, terms.self);
            Exec(terms, p, s).Ok? <==>
              && Timely(m.expiration, s.block) && s.delivered
              && m.amount <= p.lp.BalanceOf(s.sender)
              && m.minToken1 * p.Supply() <= m.amount * p.reserve1 && m.minToken2 * p.Supply() <= m.amount * p.reserve2
              && grant in p.lp.allowances && !p.lp.allowances[grant].expires.IsExpired(s.block)
              && m.amount <= p.lp.allowances[grant].amount
  {
    var m := s.msg;
    var c := Cw20Token.Call(s.block, terms.self, true, Cw20Token.BurnFrom(s.sender, m.amount));
    Cw20Laws.MovementsSucceedExactlyWhen(p.lp, c);
    AtLeast(m.amount * p.reserve1, p.Supply(), m.minToken1);
    AtLeast(m.amount * p.reserve2, p.Supply(), m.minToken2);
    if m.amount <= p.lp.BalanceOf(s.sender) {
      RedemptionsAreCovered(p, s.sender, m.amount, p.reserve1);
      RedemptionsAreCovered(p, s.sender, m.amount, p.reserve2);
    }
  }

  lemma AtLeast(a: nat, b: nat, least: nat)
    requires b > 0
    ensures Floor(a, b) >= least <==> least * b <= a
  {
    if Floor(a, b) >= least {
      MulLe(least, Floor(a, b), b);
    } else {
      MulLe(Floor(a, b) + 1, least, b);
    }
  }

  /** When a donation is accepted: from the owner, with the coins when it is of token 1. */
  lemma DonationsAreAcceptedExactlyWhen(terms: Terms, p: Pool, s: Step)
    requires s.ToPool? && s.msg.AddToken?
    ensures var m := s.msg;
            Exec(terms, p, s).Ok? <==>
              && s.sender == p.owner && s.delivered && (m.side == Token1 ==> s.usdc == m.amount)
              && Fits((if m.side == Token1 then p.reserve1 else p.reserve2) + m.amount)
  {
  }

  // Swapping.

  /** `out` is the most that keeps the pool on the fee-adjusted curve. */
  predicate IsFairSwap(p: Pool, side: Side, x: nat, out: nat) {
    out * (1000 * p.Reserve(side) + 997 * x) <= 997 * x * p.Reserve(Other(side))
    < (out + 1) * (1000 * p.Reserve(side) + 997 * x)
  }

  /** The amount the fee is reckoned on: it is always of token 1. */
  function Charged(side: Side, x: nat, out: nat): nat { if side == Token1 then x else out }

  lemma FairIsThePrice(p: Pool, side: Side, x: nat, out: nat)
    requires p.Reserve(side) > 0
    ensures IsFairSwap(p, side, x, out) <==> out == AmountOut(x, p.Reserve(side), p.Reserve(Other(side)))
  {
    var a, b := p.Reserve(side), p.Reserve(Other(side));
    assert a * FEE_BASE + x * FEE_KEPT == 1000 * a + 997 * x;
    assert x * FEE_KEPT * b == 997 * x * b;
    if IsFairSwap(p, side, x, out) {
      OneFloor(997 * x * b, 1000 * a + 997 * x, out);
    }
  }

  /** An accepted swap: the trader gets the most the curve allows, at least the agreed minimum, for the
      input and a fee of at least the exact share less one unit. */
  lemma {:induction false} SwapsAreFair(terms: Terms, p: Pool, s: Step)
    requires s.ToPool? && s.msg.Swap? && Exec(terms, p, s).Ok?
    ensures var q, m, side := Exec(terms, p, s).value, s.msg, s.msg.input;
            var out := p.Reserve(Other(side)) - q.Reserve(Other(side));
            && q.Reserve(side) == p.Reserve(side) + m.inputAmount && q.lp == p.lp
            && out >= m.minOutput && IsFairSwap(p, side, m.inputAmount, out)
            && PaysFee(terms, Charged(side, m.inputAmount, out), 1, m.feeAmount)
            && (side == Token1 ==> s.usdc == m.inputAmount + m.feeAmount)
            && q.owner == p.owner && q.treasury == p.treasury
  {
    var m, side := s.msg, s.msg.input;
    SwapStep(terms, p, s);
    PriceIsAmountOut(m.inputAmount, p.Reserve(side), p.Reserve(Other(side)));
    var out := AmountOut(m.inputAmount, p.Reserve(side), p.Reserve(Other(side)));
    FairIsThePrice(p, side, m.inputAmount, out);
    FeeCovers(terms, Charged(side, m.inputAmount, out), 1, m.feeAmount);
  }

  /** When a swap is accepted. */
  lemma {:induction false} SwapsAreAcceptedExactlyWhen(terms: Terms, p: Pool, s: Step, out: nat)
    requires s.ToPool? && s.msg.Swap? && p.reserve1 > 0 && p.reserve2 > 0
    requires IsFairSwap(p, s.msg.input, s.msg.inputAmount, out)
    requires Fits(s.msg.inputAmount * 997 * p.Reserve(Other(s.msg.input))) && Fits(s.msg.inputAmount * 997)
    requires Fits(p.Reserve(s.msg.input) * 1000 + s.msg.inputAmount * 997)
    ensures var m, side := s.msg, s.msg.input;
            Exec(terms, p, s).Ok? <==>
              && Timely(m.expiration, s.block) && s.delivered
              && (side == Token1 ==> Fits(m.inputAmount + m.feeAmount) && s.usdc == m.inputAmount + m.feeAmount)
              && out >= m.minOutput && FeeFits(terms, Charged(side, m.inputAmount, out), 1)
              && PaysFee(terms, Charged(side, m.inputAmount, out), 1, m.feeAmount)
              && Fits(p.Reserve(side) + m.inputAmount)
  {
    var m, side := s.msg, s.msg.input;
    FairIsThePrice(p, side, m.inputAmount, out);
    AmountOutIsTheMost(m.inputAmount, p.Reserve(side), p.Reserve(Other(side)));
    PriceIsGiven(m.inputAmount, p.Reserve(side), p.Reserve(Other(side)));
    if FeeFits(terms, Charged(side, m.inputAmount, out), 1) {
      FeeCovers(terms, Charged(side, m.inputAmount, out), 1, m.feeAmount);
    }
  }

  lemma PriceIsGiven(x: nat, a: nat, b: nat)
    requires a > 0 && b > 0 && Fits(x * 997 * b) && Fits(x * 997) && Fits(a * 1000 + x * 997)
    ensures InputPrice(x, a, b) == Ok(AmountOut(x, a, b))
  {
  }

  // The round trip.

  lemma TripLoss(x: nat, s: nat, r: nat, minted: nat, out: nat)
    requires (minted + 1) * r > x * s && (out + 1) * (s + minted) > minted * (r + x)
    ensures (x - out) * (s + minted) < r + (s + minted)
  {
    var s' := s + minted;
    assert minted * (r + x) == minted * r + minted * x;
    assert (minted + 1) * r == minted * r + r;
    assert (out + 1) * s' == out * s' + s';
    assert (x - out) * s' == x * s + x * minted - out * s';
    assert x * minted == minted * x;
  }

  lemma BothSides(x: nat, s: nat, r1: nat, r2: nat, minted: nat, u: nat)
    requires r1 > 0 && (minted + 1) * r1 > x * s && u * r1 <= x * r2
    ensures u * s <= (minted + 1) * r2
  {
    MulLe(u * r1, x * r2, s);
    MulLe(x * s, (minted + 1) * r1, r2);
    assert (u * r1) * s == (u * s) * r1;
    assert (x * r2) * s == (x * s) * r2;
    assert ((minted + 1) * r1) * r2 == ((minted + 1) * r2) * r1;
    CancelLe(u * s, (minted + 1) * r2, r1);
  }

  lemma TripLoss2(x: nat, s: nat, r1: nat, r2: nat, minted: nat, t: nat, out: nat)
    requires t > 0 && r1 > 0 && (minted + 1) * r1 > x * s && (t - 1) * r1 <= x * r2
    requires (out + 1) * (s + minted) > minted * (r2 + t)
    ensures (t - out) * (s + minted) < r2 + s + (s + minted)
  {
    var s' := s + minted;
    BothSides(x, s, r1, r2, minted, t - 1);
    assert (t - 1) * s == t * s - s;
    assert (minted + 1) * r2 == minted * r2 + r2;
    assert minted * (r2 + t) == minted * r2 + minted * t;
    assert (out + 1) * s' == out * s' + s';
    assert (t - out) * s' == t * s + minted * t - out * s';
  }

  /** From `p` by an addition to `q` and by redeeming the minted shares to `r`: what was put in comes out
      again, short of it by less than the value of one share and one unit, of each token (token 2 was
      charged one unit more). */
  predicate LosesOnlyRounding(p: Pool, q: Pool, r: Pool) {
    && ((q.reserve1 - p.reserve1) - (q.reserve1 - r.reserve1)) * q.Supply() < p.reserve1 + q.Supply()
    && ((q.reserve2 - p.reserve2) - (q.reserve2 - r.reserve2)) * q.Supply() < p.reserve2 + p.Supply() + q.Supply()
  }

  lemma TripOverPools(p: Pool, q: Pool, r: Pool, x: nat, maxToken2: nat)
    requires q.Supply() >= p.Supply() > 0 && p.reserve1 > 0
    requires q.reserve1 == p.reserve1 + x && q.reserve2 >= p.reserve2
    requires q.reserve1 >= r.reserve1 && q.reserve2 >= r.reserve2
    requires IsFairAddition(p, x, maxToken2, q.Supply() - p.Supply(), q.reserve2 - p.reserve2)
    requires (q.reserve1 - r.reserve1 + 1) * q.Supply() > (q.Supply() - p.Supply()) * q.reserve1
    requires (q.reserve2 - r.reserve2 + 1) * q.Supply() > (q.Supply() - p.Supply()) * q.reserve2
    ensures LosesOnlyRounding(p, q, r)
  {
    var minted := q.Supply() - p.Supply();
    TripLoss(x, p.Supply(), p.reserve1, minted, q.reserve1 - r.reserve1);
    TripLoss2(x, p.Supply(), p.reserve1, p.reserve2, minted, q.reserve2 - p.reserve2, q.reserve2 - r.reserve2);
  }

  lemma {:induction false} TripBack(terms: Terms, p: Pool, q: Pool, remove: Step, x: nat, maxToken2: nat)
    requires Sane(terms, q) && q.Supply() > p.Supply() > 0 && p.reserve1 > 0
    requires q.reserve1 == p.reserve1 + x && q.reserve2 >= p.reserve2
    requires IsFairAddition(p, x, maxToken2, q.Supply() - p.Supply(), q.reserve2 - p.reserve2)
    requires remove.ToPool? && remove.msg.RemoveLiquidity? && Exec(terms, q, remove).Ok?
    requires remove.msg.amount == q.Supply() - p.Supply()
    ensures LosesOnlyRounding(p, q, Exec(terms, q, remove).value)
  {
    RedemptionsAreFair(terms, q, remove, "");
    RemoveStep(terms, q, remove);
    TripOverPools(p, q, Exec(terms, q, remove).value, x, maxToken2);
  }

  /** Adding to a live pool and at once redeeming the minted shares loses only rounding. */
  lemma {:induction false} LiquidityRoundTripLosesOnlyRounding(terms: Terms, p: Pool, q: Pool, r: Pool, add: Step,
                                                               remove: Step)
    requires Sane(terms, p) && p.Supply() > 0
    requires add.ToPool? && add.msg.AddLiquidity? && Exec(terms, p, add) == Ok(q)
    requires remove.ToPool? && remove.msg.RemoveLiquidity? && remove.msg.amount == q.Supply() - p.Supply()
    requires Exec(terms, q, remove) == Ok(r)
    ensures LosesOnlyRounding(p, q, r)
  {
    ExecSane(terms, p, add);
    AdditionsAreFair(terms, p, add);
    TripBack(terms, p, q, remove, add.msg.token1Amount, add.msg.maxToken2);
  }
}
