/** Laws of the pool: swaps never gain, splitting never helps, and a share of the pool is never
    diluted by any message to the pool or to its LP token. */
module SwapLaws {
  import opened Chain
  import opened SwapPool
  import opened Nonlinear
  import Cw20Token
  import Cw20Laws

  // One swap.

  lemma PriceIsAmountOut(x: nat, input: nat, output: nat)
    requires InputPrice(x, input, output).Ok?
    ensures input > 0 && output > 0
    ensures InputPrice(x, input, output).value == AmountOut(x, input, output)
  {
  }

  /** The rounded price leaves the pool on the fee-adjusted curve or above it, and is the largest
      whole amount that does. */
  lemma AmountOutIsTheMost(x: nat, input: nat, output: nat)
    requires input > 0
    ensures var y := AmountOut(x, input, output);
            && y <= output
            && (output > 0 ==> y < output)
            && (output - y) * (1000 * input + 997 * x) >= 1000 * input * output
            && (output - (y + 1)) * (1000 * input + 997 * x) < 1000 * input * output
  {
    var d := 1000 * input + 997 * x;
    var y := AmountOut(x, input, output);
    assert d == input * FEE_BASE + x * FEE_KEPT;
    assert y * d <= x * 997 * output < y * d + d;
    assert (output - y) * d == output * d - y * d;
    assert (output - (y + 1)) * d == output * d - y * d - d;
    assert output * d == 1000 * input * output + x * 997 * output;
    MulLe(0, input, output);
    if output > 0 {
      MulLe(1, input, output);
    }
  }

  lemma LargestOnTheCurve(y: int, x: nat, input: nat, output: nat)
    requires input > 0 && y <= output
    requires (output - y) * (1000 * input + 997 * x) >= 1000 * input * output
    ensures y <= AmountOut(x, input, output)
  {
    AmountOutIsTheMost(x, input, output);
    var best := AmountOut(x, input, output);
    if y > best {
      MulLe(output - y, output - (best + 1), 1000 * input + 997 * x);
    }
  }

  // Splitting a swap.

  /** Reserves after swapping the amounts one after another, with unbounded integers. */
  function SwapAll(xs: seq<nat>, input: nat, output: nat): (r: (nat, nat))
    requires input > 0
    ensures r.0 > 0
  {
    if xs == [] then (input, output) else
      var (a, b) := SwapAll(xs[..|xs| - 1], input, output);
      var x := xs[|xs| - 1];
      AmountOutIsTheMost(x, a, b);
      (a + x, b - AmountOut(x, a, b))
  }

  function SumOf(xs: seq<nat>): nat {
    if xs == [] then 0 else SumOf(xs[..|xs| - 1]) + xs[|xs| - 1]
  }

  lemma PaysNothingBelowZero(k: nat, out: nat, d: nat, out': int)
    requires d > 0 && out' * d >= k * out
    ensures out' >= 0
  {
    if out' < 0 { MulLe(out' + 1, 0, d); MulLe(0, k, out); }
  }

  /** The heart of it: on top of a pool that is on the curve of `x0` swapped into `(a, b)`, one more
      chunk stays on the curve of the sum. The fee leaves the surplus `997 * x * 3 * x0`. */
  lemma ChunkStaysOnCurve(a: nat, b: nat, x0: nat, out: nat, x: nat, out': int)
    requires a > 0
    requires out * (1000 * a + 997 * x0) >= 1000 * a * b
    requires out' * (1000 * (a + x0) + 997 * x) >= 1000 * (a + x0) * out
    ensures out' * (1000 * a + 997 * (x0 + x)) >= 1000 * a * b
  {
    var d0 := 1000 * a + 997 * x0;
    var d1 := 1000 * (a + x0) + 997 * x;
    var d := 1000 * a + 997 * (x0 + x);
    var k := 1000 * (a + x0);
    PaysNothingBelowZero(k, out, d1, out');
    Surplus(a, x0, x);
    CurvesChain(1000 * a * b, out, out', d0, d1, d, k);
  }

  lemma CurvesChain(v: nat, out: nat, out': nat, d0: nat, d1: nat, d: nat, k: nat)
    requires k > 0 && k * d >= d0 * d1
    requires out * d0 >= v && out' * d1 >= k * out
    ensures out' * d >= v
  {
    MulLe(d0 * d1, k * d, out');
    MulLe(k * out, out' * d1, d0);
    MulLe(v, out * d0, k);
    assert (k * d) * out' == (out' * d) * k;
    assert (d0 * d1) * out' == (out' * d1) * d0;
    assert (k * out) * d0 == (out * d0) * k;
    CancelLe(v, out' * d, k);
  }

  lemma Surplus(a: nat, x0: nat, x: nat)
    ensures (1000 * (a + x0)) * (1000 * a + 997 * (x0 + x))
            == (1000 * a + 997 * x0) * (1000 * (a + x0) + 997 * x) + 997 * x * (3 * x0)
    ensures 997 * x * (3 * x0) >= 0
  {
    var u := 1000 * (a + x0);
    var v := 1000 * a + 997 * x0;
    assert u - v == 3 * x0;
    assert 1000 * a + 997 * (x0 + x) == v + 997 * x;
    assert u * (v + 997 * x) == u * v + u * (997 * x);
    assert v * (u + 997 * x) == u * v + v * (997 * x);
    assert u * (997 * x) - v * (997 * x) == (u - v) * (997 * x);
    MulLe(0, 3 * x0, 997 * x);
  }

  lemma {:induction false} SwapAllOnCurve(xs: seq<nat>, a: nat, b: nat)
    requires a > 0
    ensures var (a', b') := SwapAll(xs, a, b);
            && a' == a + SumOf(xs)
            && b' <= b
            && b' * (1000 * a + 997 * SumOf(xs)) >= 1000 * a * b
  {
    if xs == [] {
      assert b * (1000 * a) == 1000 * a * b;
    } else {
      var n := |xs| - 1;
      SwapAllOnCurve(xs[..n], a, b);
      var (a0, b0) := SwapAll(xs[..n], a, b);
      AmountOutIsTheMost(xs[n], a0, b0);
      ChunkStaysOnCurve(a, b, SumOf(xs[..n]), b0, xs[n], b0 - AmountOut(xs[n], a0, b0));
    }
  }

  /** Splitting a swap never helps: however an amount is cut into successive swaps, all of them
      together buy at most what one swap of the sum buys. */
  lemma SplittingNeverHelps(xs: seq<nat>, a: nat, b: nat)
    requires a > 0
    ensures b - SwapAll(xs, a, b).1 <= AmountOut(SumOf(xs), a, b)
  {
    SwapAllOnCurve(xs, a, b);
    LargestOnTheCurve(b - SwapAll(xs, a, b).1, SumOf(xs), a, b);
  }

  // Runs of the pool.

  predicate IsSwap(s: Step, side: Side) { s.ToPool? && s.msg.Swap? && s.msg.input == side }

  /** The inputs of the swaps of a run that went through. */
  function AcceptedInputs(terms: Terms, p: Pool, steps: seq<Step>): seq<nat> {
    if steps == [] then [] else
      var n := |steps| - 1;
      var earlier := AcceptedInputs(terms, p, steps[..n]);
      var s := steps[n];
      if s.ToPool? && s.msg.Swap? && Exec(terms, Run(terms, p, steps[..n]), s).Ok?
      then earlier + [s.msg.inputAmount] else earlier
  }

  lemma SwapStep(terms: Terms, p: Pool, s: Step)
    requires s.ToPool? && s.msg.Swap? && Exec(terms, p, s).Ok?
    ensures var q := Exec(terms, p, s).value;
            var side := s.msg.input;
            && p.Reserve(side) > 0 && p.Reserve(Other(side)) > 0
            && q.Reserve(side) == p.Reserve(side) + s.msg.inputAmount
            && q.Reserve(Other(side)) ==
                 p.Reserve(Other(side)) - AmountOut(s.msg.inputAmount, p.Reserve(side), p.Reserve(Other(side)))
            && q.lp == p.lp
            && q.reserve1 > 0 && q.reserve2 > 0
  {
    var side := s.msg.input;
    PriceIsAmountOut(s.msg.inputAmount, p.Reserve(side), p.Reserve(Other(side)));
    AmountOutIsTheMost(s.msg.inputAmount, p.Reserve(side), p.Reserve(Other(side)));
  }

  lemma SwapAllAppends(xs: seq<nat>, x: nat, a: nat, b: nat)
    requires a > 0
    ensures var (a0, b0) := SwapAll(xs, a, b);
            a0 > 0 && SwapAll(xs + [x], a, b) == (a0 + x, b0 - AmountOut(x, a0, b0))
  {
    assert (xs + [x])[..|xs|] == xs;
  }

  lemma SwapAllExtends(terms: Terms, p: Pool, s: Step, side: Side, xs: seq<nat>, a: nat, b: nat)
    requires a > 0 && IsSwap(s, side) && Exec(terms, p, s).Ok?
    requires (p.Reserve(side), p.Reserve(Other(side))) == SwapAll(xs, a, b)
    ensures var q := Exec(terms, p, s).value;
            (q.Reserve(side), q.Reserve(Other(side))) == SwapAll(xs + [s.msg.inputAmount], a, b)
  {
    SwapStep(terms, p, s);
    SwapAllAppends(xs, s.msg.inputAmount, a, b);
  }

  lemma {:induction false} RunIsSwapAll(terms: Terms, p: Pool, steps: seq<Step>, side: Side)
    requires p.Reserve(side) > 0
    requires forall i :: 0 <= i < |steps| ==> IsSwap(steps[i], side)
    ensures var q := Run(terms, p, steps);
            (q.Reserve(side), q.Reserve(Other(side)))
            == SwapAll(AcceptedInputs(terms, p, steps), p.Reserve(side), p.Reserve(Other(side)))
  {
    if steps != [] {
      var n := |steps| - 1;
      RunIsSwapAll(terms, p, steps[..n], side);
      var before := Run(terms, p, steps[..n]);
      assert IsSwap(steps[n], side);
      if Exec(terms, before, steps[n]).Ok? {
        SwapAllExtends(terms, before, steps[n], side, AcceptedInputs(terms, p, steps[..n]),
                       p.Reserve(side), p.Reserve(Other(side)));
      }
    }
  }

  /** On the contract itself: swaps in one direction, whoever sends them and whichever of them
      abort, together pay out at most what the price query offers for the sum of their inputs. */
  lemma SplitRunPaysNoMore(terms: Terms, p: Pool, steps: seq<Step>, side: Side)
    requires forall i :: 0 <= i < |steps| ==> IsSwap(steps[i], side)
    requires InputPrice(SumOf(AcceptedInputs(terms, p, steps)), p.Reserve(side), p.Reserve(Other(side))).Ok?
    ensures p.Reserve(Other(side)) - Run(terms, p, steps).Reserve(Other(side))
            <= InputPrice(SumOf(AcceptedInputs(terms, p, steps)), p.Reserve(side), p.Reserve(Other(side))).value
  {
    var xs := AcceptedInputs(terms, p, steps);
    RunIsSwapAll(terms, p, steps, side);
    SplittingNeverHelps(xs, p.Reserve(side), p.Reserve(Other(side)));
    PriceIsAmountOut(SumOf(xs), p.Reserve(side), p.Reserve(Other(side)));
  }

  // What no message lowers.

  function Product(p: Pool): nat { p.reserve1 * p.reserve2 }

  /** Reserves per LP share, compared without division. */
  predicate SharesKept(p: Pool, q: Pool) {
    && q.reserve1 * p.Supply() >= p.reserve1 * q.Supply()
    && q.reserve2 * p.Supply() >= p.reserve2 * q.Supply()
  }

  /** Product of the reserves per squared LP share, compared without division. */
  predicate ValueKept(p: Pool, q: Pool) {
    Product(q) * (p.Supply() * p.Supply()) >= Product(p) * (q.Supply() * q.Supply())
  }

  lemma SwapKeepsProduct(x: nat, a: nat, b: nat)
    requires a > 0
    ensures (a + x) * (b - AmountOut(x, a, b)) >= a * b
  {
    AmountOutIsTheMost(x, a, b);
    var b' := b - AmountOut(x, a, b);
    MulLe(1000 * a + 997 * x, 1000 * (a + x), b');
    assert 1000 * (a + x) * b' == 1000 * ((a + x) * b');
    assert 1000 * a * b == 1000 * (a * b);
  }

  lemma ProductsOfKeptShares(p: Pool, q: Pool)
    requires SharesKept(p, q)
    ensures ValueKept(p, q)
  {
    var s, s' := p.Supply(), q.Supply();
    MulLe(p.reserve1 * s', q.reserve1 * s, q.reserve2 * s);
    MulLe(p.reserve2 * s', q.reserve2 * s, p.reserve1 * s');
    assert (q.reserve1 * s) * (q.reserve2 * s) == Product(q) * (s * s);
    assert (p.reserve1 * s') * (p.reserve2 * s') == Product(p) * (s' * s');
    assert (p.reserve1 * s') * (q.reserve2 * s) == (q.reserve2 * s) * (p.reserve1 * s');
  }

  lemma AddKeepsShares(x: nat, s: nat, minted: nat, token2: nat, r1: nat, r2: nat)
    requires r1 > 0
    requires minted * r1 <= x * s
    requires token2 * r1 >= x * r2
    ensures (r1 + x) * s >= r1 * (s + minted)
    ensures (r2 + token2) * s >= r2 * (s + minted)
  {
    MulLe(x * r2, token2 * r1, s);
    MulLe(minted * r1, x * s, r2);
    assert (x * r2) * s == (x * s) * r2;
    assert (minted * r1) * r2 == (minted * r2) * r1;
    assert (token2 * r1) * s == (token2 * s) * r1;
    CancelLe(minted * r2, token2 * s, r1);
    assert (r2 + token2) * s == r2 * s + token2 * s;
    assert r2 * (s + minted) == r2 * s + minted * r2;
    assert (r1 + x) * s == r1 * s + x * s;
    assert r1 * (s + minted) == r1 * s + minted * r1;
  }

  lemma RemoveKeepsShares(amount: nat, s: nat, paid: nat, r: nat)
    requires amount <= s && paid * s <= amount * r
    ensures (r - paid) * s >= r * (s - amount)
  {
    assert (r - paid) * s == r * s - paid * s;
    assert r * (s - amount) == r * s - amount * r;
  }

  /** What an accepted addition mints and asks for. */
  lemma AddEffect(terms: Terms, p: Pool, s: Step)
    requires s.ToPool? && s.msg.AddLiquidity? && Add(terms, p, s).Ok?
    ensures var q := Add(terms, p, s).value;
            var minted := LpToMint(s.msg.token1Amount, p.Supply(), p.reserve1);
            var token2 := Token2Required(s.msg.maxToken2, s.msg.token1Amount, p.Supply(), p.reserve2, p.reserve1);
            && minted.Ok? && token2.Ok? && minted.value > 0
            && q.Supply() == p.Supply() + minted.value
            && q.lp.BalanceOf(p.owner) == p.lp.BalanceOf(p.owner) + minted.value
            && q.reserve1 == p.reserve1 + s.msg.token1Amount && q.reserve2 == p.reserve2 + token2.value
  {
  }

  lemma SharesForTokens(amount: nat, supply: nat, reserve1: nat, reserve2: nat, maxToken2: nat)
    requires supply > 0 && LpToMint(amount, supply, reserve1).Ok?
    requires Token2Required(maxToken2, amount, supply, reserve2, reserve1).Ok?
    ensures reserve1 > 0 && LpToMint(amount, supply, reserve1).value * reserve1 <= amount * supply
    ensures Token2Required(maxToken2, amount, supply, reserve2, reserve1).value * reserve1 >= amount * reserve2
  {
  }

  lemma AddStep(terms: Terms, p: Pool, s: Step)
    requires s.ToPool? && s.msg.AddLiquidity? && Add(terms, p, s).Ok?
    ensures var q := Add(terms, p, s).value;
            && q.Supply() > p.Supply()
            && q.lp.BalanceOf(p.owner) == p.lp.BalanceOf(p.owner) + (q.Supply() - p.Supply())
            && q.reserve1 == p.reserve1 + s.msg.token1Amount
            && q.reserve2 >= p.reserve2
            && (p.Supply() > 0 ==>
                  (&& p.reserve1 > 0
                   && (q.Supply() - p.Supply()) * p.reserve1 <= s.msg.token1Amount * p.Supply()
                   && (q.reserve2 - p.reserve2) * p.reserve1 >= s.msg.token1Amount * p.reserve2))
            && (p.Supply() == 0 ==> q.Supply() == s.msg.token1Amount)
  {
    AddEffect(terms, p, s);
    if p.Supply() > 0 {
      SharesForTokens(s.msg.token1Amount, p.Supply(), p.reserve1, p.reserve2, s.msg.maxToken2);
    }
  }

  lemma RemoveStep(terms: Terms, p: Pool, s: Step)
    requires Cw20Laws.Sound(p.lp)
    requires s.ToPool? && s.msg.RemoveLiquidity? && Remove(terms, p, s).Ok?
    ensures var q := Remove(terms, p, s).value;
            && p.Supply() > 0
            && q.Supply() == p.Supply() - s.msg.amount
            && q.reserve1 <= p.reserve1 && q.reserve2 <= p.reserve2
            && p.reserve1 - q.reserve1 == Floor(s.msg.amount * p.reserve1, p.Supply())
            && p.reserve2 - q.reserve2 == Floor(s.msg.amount * p.reserve2, p.Supply())
  {
  }

  /** The LP token is a sound ledger, and the pool is its only minter. */
  ghost predicate Sane(terms: Terms, p: Pool) {
    Cw20Laws.Sound(p.lp) && p.lp.mint == Some(Cw20Token.Minter(terms.self, None))
  }

  lemma LpExecSane(terms: Terms, p: Pool, c: Cw20Token.Call)
    requires Sane(terms, p) && LpExec(p, c).Ok?
    requires c.sender != terms.self || c.msg.Mint? || c.msg.BurnFrom?
    ensures Sane(terms, LpExec(p, c).value)
    ensures c.sender != terms.self || c.msg.BurnFrom? ==> LpExec(p, c).value.Supply() <= p.Supply()
  {
    Cw20Laws.ExecSound(p.lp, c);
    if c.sender != terms.self {
      Cw20Laws.OutsidersNeverMint(p.lp, c);
    }
  }

  lemma ExecSane(terms: Terms, p: Pool, s: Step)
    requires Sane(terms, p) && Exec(terms, p, s).Ok?
    ensures Sane(terms, Exec(terms, p, s).value)
  {
    match s
    case ToLpToken(call) => LpExecSane(terms, p, call);
    case ToPool(_, _, _, _, msg) =>
      if msg.AddLiquidity? {
        AddSane(terms, p, s);
      } else if msg.RemoveLiquidity? {
        RemoveSane(terms, p, s);
      }
  }

  lemma AddSane(terms: Terms, p: Pool, s: Step)
    requires Sane(terms, p) && s.ToPool? && s.msg.AddLiquidity? && Add(terms, p, s).Ok?
    ensures Sane(terms, Add(terms, p, s).value)
  {
    var minted := LpToMint(s.msg.token1Amount, p.Supply(), p.reserve1).value;
    var c := Cw20Token.Call(s.block, terms.self, true, Cw20Token.Mint(p.owner, minted));
    assert LpExec(p, c).Ok? && Add(terms, p, s).value.lp == LpExec(p, c).value.lp;
    LpExecSane(terms, p, c);
  }

  lemma RemoveSane(terms: Terms, p: Pool, s: Step)
    requires Sane(terms, p) && s.ToPool? && s.msg.RemoveLiquidity? && Remove(terms, p, s).Ok?
    ensures Sane(terms, Remove(terms, p, s).value)
  {
    var c := Cw20Token.Call(s.block, terms.self, true, Cw20Token.BurnFrom(s.sender, s.msg.amount));
    assert LpExec(p, c).Ok? && Remove(terms, p, s).value.lp == LpExec(p, c).value.lp;
    LpExecSane(terms, p, c);
  }

  lemma {:induction false} RunSane(terms: Terms, p: Pool, steps: seq<Step>)
    requires Sane(terms, p)
    ensures Sane(terms, Run(terms, p, steps))
  {
    if steps != [] {
      var n := |steps| - 1;
      RunSane(terms, p, steps[..n]);
      if Exec(terms, Run(terms, p, steps[..n]), steps[n]).Ok? {
        ExecSane(terms, Run(terms, p, steps[..n]), steps[n]);
      }
    }
  }

  lemma GenesisSane(terms: Terms, owner: Addr, treasury: Addr)
    ensures Sane(terms, Genesis(terms, owner, treasury))
  {
    Cw20Laws.GenesisSound([], Some(Cw20Token.Minter(terms.self, None)));
  }

  /** The reserves can always pay a redemption: in a reachable pool the amount a holder may redeem
      is within the supply, so neither subtraction in RemoveLiquidity can fail. */
  lemma RedemptionsAreCovered(p: Pool, holder: Addr, amount: nat, reserve: nat)
    requires Cw20Laws.Sound(p.lp) && amount <= p.lp.BalanceOf(holder)
    requires MulDiv(amount, reserve, p.Supply()).Ok?
    ensures MulDiv(amount, reserve, p.Supply()).value <= reserve
  {
    Cw20Laws.BalanceWithinTotal(p.lp, holder);
    MulLe(amount, p.Supply(), reserve);
    assert p.Supply() * reserve == reserve * p.Supply();
    CancelLe(MulDiv(amount, reserve, p.Supply()).value, reserve, p.Supply());
  }

  lemma {:induction false} SwapStepKeepsProduct(terms: Terms, p: Pool, s: Step)
    requires s.ToPool? && s.msg.Swap? && Exec(terms, p, s).Ok?
    ensures var q := Exec(terms, p, s).value;
            Product(q) >= Product(p) && q.reserve1 > 0 && q.reserve2 > 0 && q.lp == p.lp
  {
    SwapStep(terms, p, s);
    var side := s.msg.input;
    SwapKeepsProduct(s.msg.inputAmount, p.Reserve(side), p.Reserve(Other(side)));
    var q := Exec(terms, p, s).value;
    assert Product(q) == q.Reserve(side) * q.Reserve(Other(side));
    assert Product(p) == p.Reserve(side) * p.Reserve(Other(side));
  }

  /** One message never lowers the value of a share, whatever it is. */
  lemma StepKeepsValue(terms: Terms, p: Pool, s: Step)
    requires Sane(terms, p) && p.Supply() > 0 && Exec(terms, p, s).Ok?
    ensures ValueKept(p, Exec(terms, p, s).value)
    ensures !(s.ToPool? && s.msg.Swap?) ==> SharesKept(p, Exec(terms, p, s).value)
  {
    var q := Exec(terms, p, s).value;
    if s.ToPool? && s.msg.Swap? {
      SwapStepKeepsProduct(terms, p, s);
      MulLe(Product(p), Product(q), p.Supply() * p.Supply());
    } else {
      OtherStepsKeepShares(terms, p, s);
      ProductsOfKeptShares(p, q);
    }
  }

  lemma TokenCallKeepsShares(terms: Terms, p: Pool, c: Cw20Token.Call)
    requires Sane(terms, p) && c.sender != terms.self && LpExec(p, c).Ok?
    ensures SharesKept(p, LpExec(p, c).value)
  {
    LpExecSane(terms, p, c);
    var q := LpExec(p, c).value;
    MulLe(q.Supply(), p.Supply(), p.reserve1);
    MulLe(q.Supply(), p.Supply(), p.reserve2);
  }

  lemma {:induction false} AddingKeepsShares(terms: Terms, p: Pool, s: Step)
    requires Sane(terms, p) && p.Supply() > 0 && Exec(terms, p, s).Ok? && s.ToPool? && s.msg.AddLiquidity?
    ensures SharesKept(p, Exec(terms, p, s).value)
  {
    var q := Exec(terms, p, s).value;
    AddStep(terms, p, s);
    AddKeepsShares(s.msg.token1Amount, p.Supply(), q.Supply() - p.Supply(),
                   q.reserve2 - p.reserve2, p.reserve1, p.reserve2);
  }

  lemma {:induction false} RemovingKeepsShares(terms: Terms, p: Pool, s: Step)
    requires Sane(terms, p) && p.Supply() > 0 && Exec(terms, p, s).Ok? && s.ToPool? && s.msg.RemoveLiquidity?
    ensures SharesKept(p, Exec(terms, p, s).value)
  {
    var q := Exec(terms, p, s).value;
    RemoveStep(terms, p, s);
    RemoveKeepsShares(s.msg.amount, p.Supply(), p.reserve1 - q.reserve1, p.reserve1);
    RemoveKeepsShares(s.msg.amount, p.Supply(), p.reserve2 - q.reserve2, p.reserve2);
  }

  lemma MoreBehindTheShares(p: Pool, q: Pool)
    requires q.lp == p.lp && p.reserve1 <= q.reserve1 && p.reserve2 <= q.reserve2
    ensures SharesKept(p, q)
  {
    MulLe(p.reserve1, q.reserve1, p.Supply());
    MulLe(p.reserve2, q.reserve2, p.Supply());
  }

  lemma OtherStepsKeepShares(terms: Terms, p: Pool, s: Step)
    requires Sane(terms, p) && p.Supply() > 0 && Exec(terms, p, s).Ok?
    requires !(s.ToPool? && s.msg.Swap?)
    ensures SharesKept(p, Exec(terms, p, s).value)
  {
    if s.ToLpToken? {
      TokenCallKeepsShares(terms, p, s.call);
    } else if s.msg.AddLiquidity? {
      AddingKeepsShares(terms, p, s);
    } else if s.msg.RemoveLiquidity? {
      RemovingKeepsShares(terms, p, s);
    } else {
      MoreBehindTheShares(p, Exec(terms, p, s).value);
    }
  }

  // The owner.

  /** A donation goes to the shareholders, all of it: no share moves, the other reserve stays, and
      for every number of shares what they redeem of the donated token is at least what they did
      before, and for all shares together more by exactly the amount. */
  lemma DonationsGoToTheHolders(terms: Terms, p: Pool, s: Step, shares: nat)
    requires s.ToPool? && s.msg.AddToken? && Exec(terms, p, s).Ok? && shares <= p.Supply() && p.Supply() > 0
    ensures var q := Exec(terms, p, s).value;
            var side := s.msg.side;
            && s.sender == p.owner
            && q.lp == p.lp && q.owner == p.owner && q.Reserve(Other(side)) == p.Reserve(Other(side))
            && Floor(shares * q.Reserve(side), q.Supply()) >= Floor(shares * p.Reserve(side), p.Supply())
            && Floor(q.Supply() * q.Reserve(side), q.Supply())
               == Floor(p.Supply() * p.Reserve(side), p.Supply()) + s.msg.amount
  {
    var q, side := Exec(terms, p, s).value, s.msg.side;
    MulLe(p.Reserve(side), q.Reserve(side), shares);
    FloorGrows(shares * p.Reserve(side), shares * q.Reserve(side), p.Supply());
    WholeSupply(p.Supply(), p.Reserve(side));
    WholeSupply(p.Supply(), q.Reserve(side));
  }

  lemma FloorGrows(a: nat, b: nat, c: nat)
    requires a <= b && c > 0
    ensures Floor(a, c) <= Floor(b, c)
  {
    if Floor(a, c) > Floor(b, c) {
      MulLe(Floor(b, c) + 1, Floor(a, c), c);
    }
  }

  lemma WholeSupply(supply: nat, reserve: nat)
    requires supply > 0
    ensures Floor(supply * reserve, supply) == reserve
  {
    var q := Floor(supply * reserve, supply);
    if q < reserve {
      MulLe(q + 1, reserve, supply);
    } else if q > reserve {
      MulLe(reserve + 1, q, supply);
    }
  }

  /** The step at position `j` of a run appoints the owner: it is an accepted message of the owner of
      that moment that names the new one, and nobody else has been owner since. */
  ghost predicate AppointedAt(terms: Terms, p: Pool, steps: seq<Step>, j: nat, owner: Addr) {
    && j < |steps|
    && steps[j].ToPool? && steps[j].msg.UpdateConfig? && steps[j].msg.owner == owner
    && steps[j].sender == Run(terms, p, steps[..j]).owner
    && forall i :: j < i <= |steps| ==> Run(terms, p, steps[..i]).owner == owner
  }

  lemma OnlyConfigNamesOwners(terms: Terms, p: Pool, s: Step)
    requires Exec(terms, p, s).Ok?
    ensures var q := Exec(terms, p, s).value;
            if s.ToPool? && s.msg.UpdateConfig? then s.sender == p.owner && q.owner == s.msg.owner
            else q.owner == p.owner && q.treasury == p.treasury
    ensures s.ToPool? && s.msg.UpdateConfig? ==>
              Exec(terms, p, s).value == p.(owner := s.msg.owner, treasury := s.msg.treasury)
  {
  }

  lemma AppointmentOutlasts(terms: Terms, p: Pool, steps: seq<Step>, j: nat, owner: Addr)
    requires steps != [] && AppointedAt(terms, p, steps[..|steps| - 1], j, owner)
    requires Run(terms, p, steps).owner == owner
    ensures AppointedAt(terms, p, steps, j, owner)
  {
    var n := |steps| - 1;
    assert steps[..n][..j] == steps[..j];
    forall i | j < i <= |steps| ensures Run(terms, p, steps[..i]).owner == owner {
      if i <= n {
        assert steps[..n][..i] == steps[..i];
      } else {
        assert steps[..i] == steps;
      }
    }
  }

  /** Over every run the owner is still the first one, or was appointed by an owner and has been the
      owner ever since. */
  lemma {:induction false} OwnersAreAppointed(terms: Terms, p: Pool, steps: seq<Step>) returns (j: nat)
    ensures Run(terms, p, steps).owner == p.owner || AppointedAt(terms, p, steps, j, Run(terms, p, steps).owner)
  {
    j := 0;
    if steps != [] {
      var n := |steps| - 1;
      var before, s := Run(terms, p, steps[..n]), steps[n];
      if Exec(terms, before, s).Ok? {
        OnlyConfigNamesOwners(terms, before, s);
      }
      if Exec(terms, before, s).Ok? && s.ToPool? && s.msg.UpdateConfig? {
        assert steps[..|steps|] == steps;
        j := n;
      } else {
        j := OwnersAreAppointed(terms, p, steps[..n]);
        if Run(terms, p, steps).owner != p.owner {
          AppointmentOutlasts(terms, p, steps, j, Run(terms, p, steps).owner);
        }
      }
    }
  }

  lemma ValueKeptTransitive(p: Pool, q: Pool, r: Pool)
    requires ValueKept(p, q) && ValueKept(q, r) && q.Supply() > 0
    ensures ValueKept(p, r)
  {
    var a, b, c := p.Supply() * p.Supply(), q.Supply() * q.Supply(), r.Supply() * r.Supply();
    MulLe(Product(p) * b, Product(q) * a, c);
    MulLe(Product(q) * c, Product(r) * b, a);
    assert (Product(p) * b) * c == (Product(p) * c) * b;
    assert (Product(q) * a) * c == (Product(q) * c) * a;
    assert (Product(r) * b) * a == (Product(r) * a) * b;
    MulLe(1, q.Supply(), q.Supply());
    CancelLe(Product(p) * c, Product(r) * a, b);
  }

  lemma OneStepKeepsValue(terms: Terms, p: Pool, q: Pool, s: Step)
    requires Sane(terms, q) && q.Supply() > 0 && ValueKept(p, q)
    ensures ValueKept(p, match Exec(terms, q, s) case Ok(t) => t case Err(_) => q)
  {
    if Exec(terms, q, s).Ok? {
      StepKeepsValue(terms, q, s);
      ValueKeptTransitive(p, q, Exec(terms, q, s).value);
    }
  }

  /** Share value never falls over any run of messages to the pool and to its LP token, as long
      as some share is outstanding on the way. */
  lemma {:induction false} ShareValueNeverFalls(terms: Terms, p: Pool, steps: seq<Step>)
    requires Sane(terms, p)
    requires forall i :: 0 <= i < |steps| ==> Run(terms, p, steps[..i]).Supply() > 0
    ensures ValueKept(p, Run(terms, p, steps))
  {
    if steps != [] {
      var n := |steps| - 1;
      var before := Run(terms, p, steps[..n]);
      forall i | 0 <= i < n ensures Run(terms, p, steps[..n][..i]).Supply() > 0 {
        assert steps[..n][..i] == steps[..i];
      }
      ShareValueNeverFalls(terms, p, steps[..n]);
      RunSane(terms, p, steps[..n]);
      OneStepKeepsValue(terms, p, before, steps[n]);
    }
  }

  /** Swapping alone, in any mix of directions: the product of the reserves never falls and
      neither reserve is ever emptied. */
  lemma {:induction false} SwapRunsKeepProduct(terms: Terms, p: Pool, steps: seq<Step>)
    requires p.reserve1 > 0 && p.reserve2 > 0
    requires forall i :: 0 <= i < |steps| ==> steps[i].ToPool? && steps[i].msg.Swap?
    ensures var q := Run(terms, p, steps);
            q.reserve1 > 0 && q.reserve2 > 0 && Product(q) >= Product(p) && q.lp == p.lp
  {
    if steps != [] {
      var n := |steps| - 1;
      SwapRunsKeepProduct(terms, p, steps[..n]);
      if Exec(terms, Run(terms, p, steps[..n]), steps[n]).Ok? {
        SwapStepKeepsProduct(terms, Run(terms, p, steps[..n]), steps[n]);
      }
    }
  }

  /** No run of swaps gains: if one reserve is back where it was (or below), the other has not
      gone down. */
  lemma SwappersCannotGain(terms: Terms, p: Pool, steps: seq<Step>, side: Side)
    requires p.reserve1 > 0 && p.reserve2 > 0
    requires forall i :: 0 <= i < |steps| ==> steps[i].ToPool? && steps[i].msg.Swap?
    requires Run(terms, p, steps).Reserve(side) <= p.Reserve(side)
    ensures Run(terms, p, steps).Reserve(Other(side)) >= p.Reserve(Other(side))
  {
    SwapRunsKeepProduct(terms, p, steps);
    var q := Run(terms, p, steps);
    if side == Token1 {
      GrownProduct(p.reserve1, p.reserve2, q.reserve1, q.reserve2);
    } else {
      GrownProduct(p.reserve2, p.reserve1, q.reserve2, q.reserve1);
    }
  }

  lemma GrownProduct(a: nat, b: nat, a': nat, b': nat)
    requires a > 0 && a' <= a && a' * b' >= a * b
    ensures b' >= b
  {
    MulLe(a', a, b');
    CancelLe(b, b', a);
  }

  /** Swapping an amount and swapping the proceeds straight back returns at most the amount. */
  lemma SwapThereAndBack(x: nat, a: nat, b: nat)
    requires a > 0 && b > 0
    ensures b - AmountOut(x, a, b) > 0
    ensures AmountOut(AmountOut(x, a, b), b - AmountOut(x, a, b), a + x) <= x
  {
    var y := AmountOut(x, a, b);
    AmountOutIsTheMost(x, a, b);
    var z := AmountOut(y, b - y, a + x);
    SwapKeepsProduct(x, a, b);
    SwapKeepsProduct(y, b - y, a + x);
    assert (b - y) * (a + x) == (a + x) * (b - y);
    assert b * (a + x - z) == (a + x - z) * b;
    CancelLe(a, a + x - z, b);
  }

  /** Adding to a live pool and at once redeeming the shares that this minted (they go to the
      pool's owner) takes out at most what was put in, of each token. */
  lemma {:induction false} LiquidityRoundTrip(terms: Terms, p: Pool, add: Step, remove: Step)
    requires Sane(terms, p) && p.Supply() > 0
    requires add.ToPool? && add.msg.AddLiquidity? && Exec(terms, p, add).Ok?
    requires remove.ToPool? && remove.msg.RemoveLiquidity?
    requires Exec(terms, Exec(terms, p, add).value, remove).Ok?
    requires remove.msg.amount == Exec(terms, p, add).value.Supply() - p.Supply()
    ensures var q := Exec(terms, p, add).value;
            var r := Exec(terms, q, remove).value;
            && r.Supply() == p.Supply()
            && q.reserve1 - r.reserve1 <= add.msg.token1Amount
            && q.reserve2 - r.reserve2 <= q.reserve2 - p.reserve2
  {
    var q := Exec(terms, p, add).value;
    ExecSane(terms, p, add);
    var r := Exec(terms, q, remove).value;
    RemoveStep(terms, q, remove);
    OtherStepsKeepShares(terms, p, add);
    OtherStepsKeepShares(terms, q, remove);
    KeptTwice(p.reserve1, p.Supply(), q.reserve1, q.Supply(), r.reserve1);
    KeptTwice(p.reserve2, p.Supply(), q.reserve2, q.Supply(), r.reserve2);
  }

  lemma KeptTwice(a: nat, s: nat, b: nat, s': nat, c: nat)
    requires s > 0 && s' > 0
    requires b * s >= a * s' && c * s' >= b * s
    ensures c >= a
  {
    CancelLe(a, c, s');
  }

  /** Redeeming the whole supply empties both reserves to the last unit. */
  lemma {:induction false} RedeemingEverythingEmptiesThePool(terms: Terms, p: Pool, s: Step)
    requires Sane(terms, p)
    requires s.ToPool? && s.msg.RemoveLiquidity? && Exec(terms, p, s).Ok? && s.msg.amount == p.Supply()
    ensures var q := Exec(terms, p, s).value;
            q.Supply() == 0 && q.reserve1 == 0 && q.reserve2 == 0
  {
    RemoveStep(terms, p, s);
    var paid1, paid2 := Floor(p.Supply() * p.reserve1, p.Supply()), Floor(p.Supply() * p.reserve2, p.Supply());
    assert p.Supply() * p.reserve1 == p.reserve1 * p.Supply();
    assert p.Supply() * p.reserve2 == p.reserve2 * p.Supply();
    CancelLe(p.reserve1 * p.Supply(), paid1 * p.Supply() + p.Supply(), 1);
    if paid1 < p.reserve1 { MulLe(paid1 + 1, p.reserve1, p.Supply()); }
    if paid2 < p.reserve2 { MulLe(paid2 + 1, p.reserve2, p.Supply()); }
  }

  // Emptiness.

  /** No shares, no reserves; shares, and there is something of token 1 behind them. */
  predicate Backed(p: Pool) {
    && (p.Supply() == 0 ==> p.reserve1 == 0 && p.reserve2 == 0)
    && (p.Supply() > 0 ==> p.reserve1 > 0)
  }

  /** The two ways to strand reserves without an owner: a donation to a pool without shares, and
      burning the last shares at the LP token instead of redeeming them at the pool. */
  predicate Strands(p: Pool, s: Step) {
    || (s.ToPool? && s.msg.AddToken? && s.msg.amount > 0 && p.Supply() == 0)
    || (s.ToLpToken? && (s.call.msg.Burn? || s.call.msg.BurnFrom?) && s.call.msg.amount == p.Supply() > 0)
  }

  /** A message to the token leaves no shares exactly when it burns all there are. */
  lemma {:induction false} LastSharesGo(terms: Terms, p: Pool, c: Cw20Token.Call)
    requires Sane(terms, p) && p.Supply() > 0 && c.sender != terms.self && LpExec(p, c).Ok?
    ensures LpExec(p, c).Ok? && LpExec(p, c).value.Supply() == 0
            <==> (c.msg.Burn? || c.msg.BurnFrom?) && c.msg.amount == p.Supply()
  {
    LpExecSane(terms, p, c);
  }

  lemma PartialRedemptionLeavesSome(amount: nat, s: nat, r: nat)
    requires amount < s && r > 0
    ensures Floor(amount * r, s) < r
  {
    MulLe(amount + 1, s, r);
    assert (amount + 1) * r == amount * r + r;
    assert s * r == r * s;
    if Floor(amount * r, s) >= r { MulLe(r, Floor(amount * r, s), s); }
  }

  /** A message keeps a backed pool backed exactly when it is not one of those two. */
  lemma BackedExactlyUnlessStranded(terms: Terms, p: Pool, s: Step)
    requires Sane(terms, p) && Backed(p) && Exec(terms, p, s).Ok?
    ensures Backed(Exec(terms, p, s).value) <==> !Strands(p, s)
  {
    match s
    case ToLpToken(call) =>
      LpExecSane(terms, p, call);
      if p.Supply() > 0 {
        LastSharesGo(terms, p, call);
      }
    case ToPool(_, _, _, _, msg) =>
      match msg {
        case UpdateConfig(_, _) =>
        case AddLiquidity(_, _, _, _, _) => AddStep(terms, p, s);
        case RemoveLiquidity(_, _, _, _) =>
          RemoveStep(terms, p, s);
          if msg.amount == p.Supply() {
            RedeemingEverythingEmptiesThePool(terms, p, s);
          } else {
            PartialRedemptionLeavesSome(msg.amount, p.Supply(), p.reserve1);
          }
        case Swap(_, _, _, _, _) => SwapStep(terms, p, s);
        case AddToken(_, _) =>
      }
  }

  lemma {:induction false} RunBacked(terms: Terms, p: Pool, steps: seq<Step>)
    requires Sane(terms, p) && Backed(p)
    requires forall i :: 0 <= i < |steps| && Exec(terms, Run(terms, p, steps[..i]), steps[i]).Ok? ==>
                           !Strands(Run(terms, p, steps[..i]), steps[i])
    ensures Backed(Run(terms, p, steps))
  {
    if steps != [] {
      var n := |steps| - 1;
      var before := Run(terms, p, steps[..n]);
      forall i | 0 <= i < n && Exec(terms, Run(terms, p, steps[..n][..i]), steps[..n][i]).Ok?
        ensures !Strands(Run(terms, p, steps[..n][..i]), steps[..n][i])
      {
        assert steps[..n][..i] == steps[..i];
      }
      RunBacked(terms, p, steps[..n]);
      RunSane(terms, p, steps[..n]);
      if Exec(terms, before, steps[n]).Ok? {
        assert !Strands(before, steps[n]);
        BackedExactlyUnlessStranded(terms, before, steps[n]);
      }
    }
  }

  /** A run that strands reserves: the owner seeds the pool and burns the LP tokens directly. */
  lemma BurningTheLastSharesStrandsReserves(owner: Addr, treasury: Addr, block: Block)
    ensures var terms := Terms("pool", 3, 2);
            var seed := ToPool(block, owner, 101, true, AddLiquidity(100, 0, 400, 1, None));
            var burn := ToLpToken(Cw20Token.Call(block, owner, true, Cw20Token.Burn(100)));
            owner != "pool" ==>
              var q := Run(terms, Genesis(terms, owner, treasury), [seed, burn]);
              q.Supply() == 0 && q.reserve1 == 100 && q.reserve2 == 400
  {
    var terms := Terms("pool", 3, 2);
    var seed := ToPool(block, owner, 101, true, AddLiquidity(100, 0, 400, 1, None));
    var burn := ToLpToken(Cw20Token.Call(block, owner, true, Cw20Token.Burn(100)));
    var start := Genesis(terms, owner, treasury);
    assert [seed, burn][..1] == [seed];
    assert [seed][..0] == [];
    var seeded := Exec(terms, start, seed);
    assert seeded.Ok? && seeded.value.reserve1 == 100 && seeded.value.lp.BalanceOf(owner) == 100;
    assert Run(terms, start, [seed]) == seeded.value;
  }
}
