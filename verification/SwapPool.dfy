/** The fanfuryswap pool: two reserves (token 1 native, token 2 a cw20) and an LP token of which
    the pool is the minter. A message and the LP mint or burn it sends commit together. */
module SwapPool {
  import opened Chain
  import Cw20Token

  const FEE_KEPT: nat := 997
  const FEE_BASE: nat := 1000
  const THOUSAND: nat := 1000

  datatype Error =
    | MsgExpiration
    | Unauthorized
    | InsufficientFunds
    | InsufficientFee
    | MinLiquidity
    | MaxToken
    | InsufficientLiquidity
    | MinToken1
    | MinToken2
    | SwapMin
    | NoLiquidity
    | Overflow
    | DivideByZero
    | SubmessageFailed
    | LpToken(cause: Cw20Token.Error)

  datatype Side = Token1 | Token2

  /** Set at instantiation and never changed. */
  datatype Terms = Terms(self: Addr, platformFee: nat, txFee: nat) {
    function Fees(): nat { platformFee + txFee }
  }

  datatype Pool = Pool(owner: Addr, treasury: Addr, reserve1: nat, reserve2: nat, lp: Cw20Token.Ledger) {
    function Supply(): nat { lp.supply }

    function Reserve(side: Side): nat {
      if side == Token1 then reserve1 else reserve2
    }

    function WithReserve(side: Side, amount: nat): Pool {
      if side == Token1 then this.(reserve1 := amount) else this.(reserve2 := amount)
    }
  }

  function Other(side: Side): Side {
    if side == Token1 then Token2 else Token1
  }

  datatype Msg =
    | UpdateConfig(owner: Addr, treasury: Addr)
    | AddLiquidity(token1Amount: nat, minLiquidity: nat, maxToken2: nat, feeAmount: nat,
                   expiration: Option<Cw20Token.Expiration>)
    | RemoveLiquidity(amount: nat, minToken1: nat, minToken2: nat, expiration: Option<Cw20Token.Expiration>)
    | Swap(input: Side, inputAmount: nat, minOutput: nat, feeAmount: nat,
           expiration: Option<Cw20Token.Expiration>)
    | AddToken(side: Side, amount: nat)

  /** What reaches the two contracts: a message to the pool (with the coins attached to it, and
      whether the messages the pool sends to further contracts all succeed), or a message that
      somebody sends to the LP token directly. */
  datatype Step =
    | ToPool(block: Block, sender: Addr, usdc: nat, delivered: bool, msg: Msg)
    | ToLpToken(call: Cw20Token.Call)

  type Outcome = Result<Pool, Error>

  function Expired(expiration: Option<Cw20Token.Expiration>, block: Block): bool {
    expiration.Some? && expiration.value.IsExpired(block)
  }

  function MulDiv(a: nat, b: nat, c: nat): Result<nat, Error> {
    if !Fits(a * b) then Err(Overflow)
    else if c == 0 then Err(DivideByZero)
    else Ok(Floor(a * b, c))
  }

  /** The constant-product price with the 0.3% fee, rounded down. */
  function AmountOut(x: nat, input: nat, output: nat): nat
    requires input > 0
  {
    Floor(x * FEE_KEPT * output, input * FEE_BASE + x * FEE_KEPT)
  }

  function InputPrice(x: nat, input: nat, output: nat): Result<nat, Error> {
    if input == 0 || output == 0 then Err(NoLiquidity) else
    var withFee := x * FEE_KEPT;
    :- Require(Fits(withFee) && Fits(withFee * output), Overflow);
    :- Require(Fits(input * FEE_BASE) && Fits(input * FEE_BASE + withFee), Overflow);
    Ok(Floor(withFee * output, input * FEE_BASE + withFee))
  }

  function LpToMint(token1Amount: nat, supply: nat, reserve1: nat): Result<nat, Error> {
    if supply == 0 then Ok(token1Amount) else MulDiv(token1Amount, supply, reserve1)
  }

  function Token2Required(maxToken2: nat, token1Amount: nat, supply: nat, reserve2: nat, reserve1: nat)
    : Result<nat, Error>
  {
    if supply == 0 then Ok(maxToken2) else
      var share :- MulDiv(token1Amount, reserve2, reserve1);
      if Fits(share + 1) then Ok(share + 1) else Err(Overflow)
  }

  /** The least fee for an amount, taken `times` over; the width of every factor is checked. */
  function LeastFee(terms: Terms, amount: nat, times: nat): Result<nat, Error> {
    if terms.Fees() > U64_MAX || !Fits(amount * terms.Fees() * times) then Err(Overflow) else
    Ok(amount * terms.Fees() * times / THOUSAND)
  }

  function LpExec(p: Pool, c: Cw20Token.Call): Outcome {
    match Cw20Token.Exec(p.lp, c)
    case Ok(l) => Ok(p.(lp := l))
    case Err(e) => Err(LpToken(e))
  }

  function Add(terms: Terms, p: Pool, s: Step): Outcome
    requires s.ToPool? && s.msg.AddLiquidity?
  {
    var m := s.msg;
    :- Require(!Expired(m.expiration, s.block), MsgExpiration);
    :- Require(Fits(m.token1Amount + m.feeAmount), Overflow);
    :- Require(s.usdc == m.token1Amount + m.feeAmount, InsufficientFunds);
    var minted :- LpToMint(m.token1Amount, p.Supply(), p.reserve1);
    var token2 :- Token2Required(m.maxToken2, m.token1Amount, p.Supply(), p.reserve2, p.reserve1);
    :- Require(minted >= m.minLiquidity, MinLiquidity);
    :- Require(token2 <= m.maxToken2, MaxToken);
    :- Require(Fits(p.reserve1 + m.token1Amount) && Fits(p.reserve2 + token2), Overflow);
    var fee :- LeastFee(terms, m.token1Amount, 2);
    :- Require(m.feeAmount >= fee, InsufficientFee);
    :- Require(s.sender == p.owner || s.sender == p.treasury || Fits(token2 * 2), Overflow);
    :- Require(s.delivered, SubmessageFailed);
    LpExec(p.(reserve1 := p.reserve1 + m.token1Amount, reserve2 := p.reserve2 + token2),
           Cw20Token.Call(s.block, terms.self, true, Cw20Token.Mint(p.owner, minted)))
  }

  function Remove(terms: Terms, p: Pool, s: Step): Outcome
    requires s.ToPool? && s.msg.RemoveLiquidity?
  {
    var m := s.msg;
    :- Require(!Expired(m.expiration, s.block), MsgExpiration);
    :- Require(m.amount <= p.lp.BalanceOf(s.sender), InsufficientLiquidity);
    var token1 :- MulDiv(m.amount, p.reserve1, p.Supply());
    :- Require(token1 >= m.minToken1, MinToken1);
    var token2 :- MulDiv(m.amount, p.reserve2, p.Supply());
    :- Require(token2 >= m.minToken2, MinToken2);
    :- Require(token1 <= p.reserve1 && token2 <= p.reserve2, Overflow);
    :- Require(s.delivered, SubmessageFailed);
    LpExec(p.(reserve1 := p.reserve1 - token1, reserve2 := p.reserve2 - token2),
           Cw20Token.Call(s.block, terms.self, true, Cw20Token.BurnFrom(s.sender, m.amount)))
  }

  function Exchange(terms: Terms, p: Pool, s: Step): Outcome
    requires s.ToPool? && s.msg.Swap?
  {
    var m := s.msg;
    :- Require(!Expired(m.expiration, s.block), MsgExpiration);
    :- Require(m.input == Token2 || Fits(m.inputAmount + m.feeAmount), Overflow);
    :- Require(m.input == Token2 || s.usdc == m.inputAmount + m.feeAmount, InsufficientFunds);
    var input, output := p.Reserve(m.input), p.Reserve(Other(m.input));
    var bought :- InputPrice(m.inputAmount, input, output);
    :- Require(bought >= m.minOutput, SwapMin);
    var fee :- LeastFee(terms, if m.input == Token1 then m.inputAmount else bought, 1);
    :- Require(m.feeAmount >= fee, InsufficientFee);
    :- Require(Fits(input + m.inputAmount) && bought <= output, Overflow);
    :- Require(s.delivered, SubmessageFailed);
    Ok(p.WithReserve(m.input, input + m.inputAmount).WithReserve(Other(m.input), output - bought))
  }

  function Donate(p: Pool, s: Step): Outcome
    requires s.ToPool? && s.msg.AddToken?
  {
    var m := s.msg;
    :- Require(s.sender == p.owner, Unauthorized);
    :- Require(m.side == Token2 || s.usdc == m.amount, InsufficientFunds);
    :- Require(Fits(p.Reserve(m.side) + m.amount), Overflow);
    :- Require(s.delivered, SubmessageFailed);
    Ok(p.WithReserve(m.side, p.Reserve(m.side) + m.amount))
  }

  function Exec(terms: Terms, p: Pool, s: Step): Outcome {
    match s
    case ToLpToken(call) =>
      // the pool speaks to its LP token only from the entry points below
      if call.sender == terms.self then Err(Unauthorized) else LpExec(p, call)
    case ToPool(_, _, _, _, msg) =>
      match msg
      case UpdateConfig(owner, treasury) =>
        if s.sender != p.owner then Err(Unauthorized) else Ok(p.(owner := owner, treasury := treasury))
      case AddLiquidity(_, _, _, _, _) => Add(terms, p, s)
      case RemoveLiquidity(_, _, _, _) => Remove(terms, p, s)
      case Swap(_, _, _, _, _) => Exchange(terms, p, s)
      case AddToken(_, _) => Donate(p, s)
  }

  function Run(terms: Terms, p: Pool, steps: seq<Step>): Pool {
    if steps == [] then p else
      var before := Run(terms, p, steps[..|steps| - 1]);
      var r := Exec(terms, before, steps[|steps| - 1]);
      if r.Ok? then r.value else before
  }

  /** Instantiation: empty reserves, and an LP token that only the pool mints, without a cap. */
  function Genesis(terms: Terms, owner: Addr, treasury: Addr): Pool {
    Pool(owner, treasury, 0, 0, Cw20Token.EMPTY.(mint := Some(Cw20Token.Minter(terms.self, None))))
  }

  ghost predicate Commits(before: Pool, spec: Outcome, after: Pool, r: Result<(), Error>) {
    match spec
    case Ok(p) => r == Ok(()) && after == p
    case Err(e) => r == Err(e) && after == before
  }

  class LiquidityPool {
    const terms: Terms
    const lpToken: Cw20Token.Token
    var owner: Addr
    var treasury: Addr
    var reserve1: nat
    var reserve2: nat

    function View(): Pool
      reads this, lpToken
    {
      Pool(owner, treasury, reserve1, reserve2, lpToken.View())
    }

    constructor (terms: Terms, owner: Addr, treasury: Addr)
      ensures View() == Genesis(terms, owner, treasury)
      ensures this.terms == terms && fresh(lpToken)
    {
      var token := new Cw20Token.Token();
      var r := token.Instantiate([], Some(Cw20Token.Minter(terms.self, None)));
      this.terms, this.lpToken, this.owner, this.treasury := terms, token, owner, treasury;
      reserve1, reserve2 := 0, 0;
    }

    method SetReserve(side: Side, amount: nat)
      modifies `reserve1, `reserve2
      ensures View() == old(View()).WithReserve(side, amount)
    {
      if side == Token1 { reserve1 := amount; } else { reserve2 := amount; }
    }

    method ExecuteUpdateConfig(sender: Addr, newOwner: Addr, newTreasury: Addr) returns (r: Result<(), Error>)
      modifies `owner, `treasury
      ensures r == (if sender != old(owner) then Err(Unauthorized) else Ok(()))
      ensures View() == if r.Ok? then old(View()).(owner := newOwner, treasury := newTreasury) else old(View())
    {
      if sender != owner {
        return Err(Unauthorized);
      }
      owner, treasury := newOwner, newTreasury;
      return Ok(());
    }

    method CallLpToken(c: Cw20Token.Call) returns (r: Result<(), Error>)
      modifies lpToken
      ensures Commits(old(View()), LpExec(old(View()), c), View(), r)
    {
      var done := lpToken.Execute(c);
      r := match done case Ok(_) => Ok(()) case Err(e) => Err(LpToken(e));
    }

    method ExecuteAddLiquidity(s: Step) returns (r: Result<(), Error>)
      requires s.ToPool? && s.msg.AddLiquidity?
      modifies `reserve1, `reserve2, lpToken
      ensures match Add(terms, old(View()), s)
              case Ok(p) => r == Ok(()) && View() == p
              case Err(e) => r == Err(e)
    {
      var m := s.msg;
      if Expired(m.expiration, s.block) {
        return Err(MsgExpiration);
      }
      if !Fits(m.token1Amount + m.feeAmount) {
        return Err(Overflow);
      }
      if s.usdc != m.token1Amount + m.feeAmount {
        return Err(InsufficientFunds);
      }
      var supply := lpToken.supply;
      var minted :- LpToMint(m.token1Amount, supply, reserve1);
      var token2 :- Token2Required(m.maxToken2, m.token1Amount, supply, reserve2, reserve1);
      if minted < m.minLiquidity {
        return Err(MinLiquidity);
      }
      if token2 > m.maxToken2 {
        return Err(MaxToken);
      }
      if !Fits(reserve1 + m.token1Amount) || !Fits(reserve2 + token2) {
        return Err(Overflow);
      }
      reserve1 := reserve1 + m.token1Amount;
      reserve2 := reserve2 + token2;
      var fee :- LeastFee(terms, m.token1Amount, 2);
      if m.feeAmount < fee {
        return Err(InsufficientFee);
      }
      if s.sender != owner && s.sender != treasury && !Fits(token2 * 2) {
        return Err(Overflow);
      }
      if !s.delivered {
        return Err(SubmessageFailed);
      }
      r := CallLpToken(Cw20Token.Call(s.block, terms.self, true, Cw20Token.Mint(owner, minted)));
    }

    method ExecuteRemoveLiquidity(s: Step) returns (r: Result<(), Error>)
      requires s.ToPool? && s.msg.RemoveLiquidity?
      modifies `reserve1, `reserve2, lpToken
      ensures match Remove(terms, old(View()), s)
              case Ok(p) => r == Ok(()) && View() == p
              case Err(e) => r == Err(e)
    {
      var m := s.msg;
      if Expired(m.expiration, s.block) {
        return Err(MsgExpiration);
      }
      var supply := lpToken.supply;
      if m.amount > Get(lpToken.balances, s.sender, 0) {
        return Err(InsufficientLiquidity);
      }
      var token1 :- MulDiv(m.amount, reserve1, supply);
      if token1 < m.minToken1 {
        return Err(MinToken1);
      }
      var token2 :- MulDiv(m.amount, reserve2, supply);
      if token2 < m.minToken2 {
        return Err(MinToken2);
      }
      if token1 > reserve1 {
        return Err(Overflow);
      }
      reserve1 := reserve1 - token1;
      if token2 > reserve2 {
        return Err(Overflow);
      }
      reserve2 := reserve2 - token2;
      if !s.delivered {
        return Err(SubmessageFailed);
      }
      r := CallLpToken(Cw20Token.Call(s.block, terms.self, true, Cw20Token.BurnFrom(s.sender, m.amount)));
    }

    method ExecuteSwap(s: Step) returns (r: Result<(), Error>)
      requires s.ToPool? && s.msg.Swap?
      modifies `reserve1, `reserve2
      ensures match Exchange(terms, old(View()), s)
              case Ok(p) => r == Ok(()) && View() == p
              case Err(e) => r == Err(e)
    {
      var m := s.msg;
      if Expired(m.expiration, s.block) {
        return Err(MsgExpiration);
      }
      var input := if m.input == Token1 then reserve1 else reserve2;
      var output := if m.input == Token1 then reserve2 else reserve1;
      if m.input == Token1 {
        if !Fits(m.inputAmount + m.feeAmount) {
          return Err(Overflow);
        }
        if s.usdc != m.inputAmount + m.feeAmount {
          return Err(InsufficientFunds);
        }
      }
      var bought :- InputPrice(m.inputAmount, input, output);
      if m.minOutput > bought {
        return Err(SwapMin);
      }
      var fee :- LeastFee(terms, if m.input == Token1 then m.inputAmount else bought, 1);
      if m.feeAmount < fee {
        return Err(InsufficientFee);
      }
      if !Fits(input + m.inputAmount) {
        return Err(Overflow);
      }
      SetReserve(m.input, input + m.inputAmount);
      if bought > output {
        return Err(Overflow);
      }
      SetReserve(Other(m.input), output - bought);
      if !s.delivered {
        return Err(SubmessageFailed);
      }
      return Ok(());
    }

    method ExecuteAddToken(s: Step) returns (r: Result<(), Error>)
      requires s.ToPool? && s.msg.AddToken?
      modifies `reserve1, `reserve2
      ensures match Donate(old(View()), s)
              case Ok(p) => r == Ok(()) && View() == p
              case Err(e) => r == Err(e)
    {
      var m := s.msg;
      if owner != s.sender {
        return Err(Unauthorized);
      }
      if m.side == Token1 && s.usdc != m.amount {
        return Err(InsufficientFunds);
      }
      var reserve := if m.side == Token1 then reserve1 else reserve2;
      if !Fits(reserve + m.amount) {
        return Err(Overflow);
      }
      SetReserve(m.side, reserve + m.amount);
      if !s.delivered {
        return Err(SubmessageFailed);
      }
      return Ok(());
    }

    method Dispatch(s: Step) returns (r: Result<(), Error>)
      modifies this, lpToken
      ensures match Exec(terms, old(View()), s)
              case Ok(p) => r == Ok(()) && View() == p
              case Err(e) => r == Err(e)
    {
      match s {
        case ToLpToken(call) =>
          if call.sender == terms.self { return Err(Unauthorized); }
          r := CallLpToken(call);
        case ToPool(_, _, _, _, msg) =>
          match msg {
            case UpdateConfig(newOwner, newTreasury) => r := ExecuteUpdateConfig(s.sender, newOwner, newTreasury);
            case AddLiquidity(_, _, _, _, _) => r := ExecuteAddLiquidity(s);
            case RemoveLiquidity(_, _, _, _) => r := ExecuteRemoveLiquidity(s);
            case Swap(_, _, _, _, _) => r := ExecuteSwap(s);
            case AddToken(_, _) => r := ExecuteAddToken(s);
          }
      }
    }

    /** One message to either contract: its whole effect on both, or none. */
    method Execute(s: Step) returns (r: Result<(), Error>)
      modifies this, lpToken
      ensures Commits(old(View()), Exec(terms, old(View()), s), View(), r)
    {
      var before := View();
      r := Dispatch(s);
      if r.Err? {
        owner, treasury, reserve1, reserve2 := before.owner, before.treasury, before.reserve1, before.reserve2;
        lpToken.Restore(before.lp);
      }
    }
  }
}
