/** The cw20-base token: balances, supply and allowances (kept twice, by owner and by spender). */
module Cw20Token {
  import opened Chain

  datatype Expiration = AtHeight(height: nat) | AtTime(time: nat) | Never {
    predicate IsExpired(block: Block) {
      match this
      case AtHeight(h) => block.height >= h
      case AtTime(t) => block.time >= t
      case Never => false
    }
  }

  datatype Allowance = Allowance(amount: nat, expires: Expiration)

  datatype Minter = Minter(addr: Addr, cap: Option<nat>)

  datatype Account = Account(address: Addr, amount: nat)

  datatype Error =
    | InvalidZeroAmount
    | Unauthorized
    | CannotExceedCap
    | CannotSetOwnAccount
    | Expired
    | NoAllowance
    | AllowanceNotFound
    | DuplicateInitialBalanceAddresses
    | InitialSupplyAboveCap
    | NotReceived
    | Overflow

  /** The token's storage as one value. */
  datatype Ledger = Ledger(
    supply: nat,
    mint: Option<Minter>,
    balances: map<Addr, nat>,
    allowances: map<(Addr, Addr), Allowance>,
    bySpender: map<(Addr, Addr), Allowance>)
  {
    function BalanceOf(a: Addr): nat { Get(balances, a, 0) }

    function AllowanceOf(owner: Addr, spender: Addr): nat {
      Get(allowances, (owner, spender), NO_ALLOWANCE).amount
    }

    function Cap(): Option<nat> {
      if mint.Some? then mint.value.cap else None
    }
  }

  const NO_ALLOWANCE := Allowance(0, Never)

  const EMPTY := Ledger(0, None, map[], map[], map[])

  datatype Msg =
    | Transfer(recipient: Addr, amount: nat)
    | Burn(amount: nat)
    | Send(contract: Addr, amount: nat)
    | Mint(recipient: Addr, amount: nat)
    | IncreaseAllowance(spender: Addr, amount: nat, expires: Option<Expiration>)
    | DecreaseAllowance(spender: Addr, amount: nat, expires: Option<Expiration>)
    | TransferFrom(owner: Addr, recipient: Addr, amount: nat)
    | BurnFrom(owner: Addr, amount: nat)
    | SendFrom(owner: Addr, contract: Addr, amount: nat)
    | UpdateMinter(newMinter: Option<Addr>)

  /** A message with whether the contract that a Send or SendFrom reaches accepts the tokens. */
  datatype Call = Call(block: Block, sender: Addr, received: bool, msg: Msg)

  type Outcome = Result<Ledger, Error>

  // What each entry point does to the storage.

  function Debit(l: Ledger, from: Addr, amount: nat): Outcome {
    if l.BalanceOf(from) < amount then Err(Overflow)
    else Ok(l.(balances := l.balances[from := l.BalanceOf(from) - amount]))
  }

  function Credit(l: Ledger, to: Addr, amount: nat): Outcome {
    if !Fits(l.BalanceOf(to) + amount) then Err(Overflow)
    else Ok(l.(balances := l.balances[to := l.BalanceOf(to) + amount]))
  }

  function Move(l: Ledger, from: Addr, to: Addr, amount: nat): Outcome {
    var debited :- Debit(l, from, amount);
    Credit(debited, to, amount)
  }

  function Destroy(l: Ledger, from: Addr, amount: nat): Outcome {
    var debited :- Debit(l, from, amount);
    if debited.supply < amount then Err(Overflow) else Ok(debited.(supply := debited.supply - amount))
  }

  function Issue(l: Ledger, sender: Addr, to: Addr, amount: nat): Outcome {
    if amount == 0 then Err(InvalidZeroAmount) else
    :- Require(l.mint.Some? && l.mint.value.addr == sender, Unauthorized);
    :- Require(Fits(l.supply + amount), Overflow);
    :- Require(l.Cap().None? || l.supply + amount <= l.Cap().value, CannotExceedCap);
    Credit(l.(supply := l.supply + amount), to, amount)
  }

  function Raised(current: Allowance, amount: nat, expires: Option<Expiration>): Result<Allowance, Error> {
    if !Fits(current.amount + amount) then Err(Overflow)
    else Ok(Allowance(current.amount + amount, if expires.Some? then expires.value else current.expires))
  }

  function Increase(l: Ledger, owner: Addr, spender: Addr, amount: nat, expires: Option<Expiration>): Outcome {
    if owner == spender then Err(CannotSetOwnAccount) else
    var byOwner :- Raised(Get(l.allowances, (owner, spender), NO_ALLOWANCE), amount, expires);
    var bySpender :- Raised(Get(l.bySpender, (spender, owner), NO_ALLOWANCE), amount, expires);
    Ok(l.(allowances := l.allowances[(owner, spender) := byOwner],
          bySpender := l.bySpender[(spender, owner) := bySpender]))
  }

  function Decrease(l: Ledger, owner: Addr, spender: Addr, amount: nat, expires: Option<Expiration>): Outcome {
    if owner == spender then Err(CannotSetOwnAccount) else
    :- Require((owner, spender) in l.allowances, AllowanceNotFound);
    var current := l.allowances[(owner, spender)];
    if amount < current.amount then
      var lowered := Allowance(current.amount - amount, if expires.Some? then expires.value else current.expires);
      Ok(l.(allowances := l.allowances[(owner, spender) := lowered],
            bySpender := l.bySpender[(spender, owner) := lowered]))
    else
      Ok(l.(allowances := l.allowances - {(owner, spender)},
            bySpender := l.bySpender - {(spender, owner)}))
  }

  function Lowered(current: Option<Allowance>, block: Block, amount: nat): Result<Allowance, Error> {
    if current.None? then Err(NoAllowance) else
    :- Require(!current.value.expires.IsExpired(block), Expired);
    :- Require(amount <= current.value.amount, Overflow);
    Ok(current.value.(amount := current.value.amount - amount))
  }

  function Lookup(m: map<(Addr, Addr), Allowance>, k: (Addr, Addr)): Option<Allowance> {
    if k in m then Some(m[k]) else None
  }

  function Deduct(l: Ledger, owner: Addr, spender: Addr, block: Block, amount: nat): Outcome {
    var byOwner :- Lowered(Lookup(l.allowances, (owner, spender)), block, amount);
    var bySpender :- Lowered(Lookup(l.bySpender, (spender, owner)), block, amount);
    Ok(l.(allowances := l.allowances[(owner, spender) := byOwner],
          bySpender := l.bySpender[(spender, owner) := bySpender]))
  }

  function MoveFrom(l: Ledger, block: Block, sender: Addr, owner: Addr, to: Addr, amount: nat): Outcome {
    var deducted :- Deduct(l, owner, sender, block, amount);
    Move(deducted, owner, to, amount)
  }

  /** The receive message goes out after the movement, and takes it back when it fails. */
  function Received(moved: Outcome, received: bool): Outcome {
    if moved.Ok? && !received then Err(NotReceived) else moved
  }

  function Remint(l: Ledger, sender: Addr, newMinter: Option<Addr>): Outcome {
    if l.mint.None? || l.mint.value.addr != sender then Err(Unauthorized) else
    Ok(l.(mint := if newMinter.None? then None else Some(Minter(newMinter.value, l.mint.value.cap))))
  }

  function Exec(l: Ledger, c: Call): Outcome {
    match c.msg
    case Transfer(to, amount) =>
      if amount == 0 then Err(InvalidZeroAmount) else Move(l, c.sender, to, amount)
    case Burn(amount) =>
      if amount == 0 then Err(InvalidZeroAmount) else Destroy(l, c.sender, amount)
    case Send(contract, amount) =>
      if amount == 0 then Err(InvalidZeroAmount) else Received(Move(l, c.sender, contract, amount), c.received)
    case Mint(to, amount) => Issue(l, c.sender, to, amount)
    case IncreaseAllowance(spender, amount, expires) => Increase(l, c.sender, spender, amount, expires)
    case DecreaseAllowance(spender, amount, expires) => Decrease(l, c.sender, spender, amount, expires)
    case TransferFrom(owner, to, amount) => MoveFrom(l, c.block, c.sender, owner, to, amount)
    case BurnFrom(owner, amount) =>
      var deducted :- Deduct(l, owner, c.sender, c.block, amount);
      Destroy(deducted, owner, amount)
    case SendFrom(owner, contract, amount) =>
      Received(MoveFrom(l, c.block, c.sender, owner, contract, amount), c.received)
    case UpdateMinter(newMinter) => Remint(l, c.sender, newMinter)
  }

  /** The storage after a list of calls; an aborted call leaves it as it was. */
  function Run(l: Ledger, calls: seq<Call>): Ledger {
    if calls == [] then l else
      var before := Run(l, calls[..|calls| - 1]);
      var r := Exec(before, calls[|calls| - 1]);
      if r.Ok? then r.value else before
  }

  /** `validate_accounts`: no address twice. */
  predicate NoAddressTwice(accounts: seq<Account>) {
    forall i, j :: 0 <= i < j < |accounts| ==> accounts[i].address != accounts[j].address
  }

  /** The balances and the supply that `create_accounts` has built after the given rows. */
  function Opened(accounts: seq<Account>): (map<Addr, nat>, nat) {
    if accounts == [] then (map[], 0) else
      var n := |accounts| - 1;
      var (balances, supply) := Opened(accounts[..n]);
      (balances[accounts[n].address := accounts[n].amount], supply + accounts[n].amount)
  }

  /** The storage an instantiation creates. */
  function Genesis(accounts: seq<Account>, mint: Option<Minter>): Outcome {
    if !NoAddressTwice(accounts) then Err(DuplicateInitialBalanceAddresses) else
    var (balances, supply) := Opened(accounts);
    :- Require(Fits(supply), Overflow);
    :- Require(mint.None? || mint.value.cap.None? || supply <= mint.value.cap.value, InitialSupplyAboveCap);
    Ok(Ledger(supply, mint, balances, map[], map[]))
  }

  /** What a caller sees of an outcome, and what the storage must then be. */
  ghost predicate Commits(before: Ledger, spec: Outcome, after: Ledger, r: Result<(), Error>) {
    match spec
    case Ok(l) => r == Ok(()) && after == l
    case Err(e) => r == Err(e) && after == before
  }

  class Token {
    var supply: nat
    var mint: Option<Minter>
    var balances: map<Addr, nat>
    var allowances: map<(Addr, Addr), Allowance>
    var bySpender: map<(Addr, Addr), Allowance>

    function View(): Ledger
      reads this
    {
      Ledger(supply, mint, balances, allowances, bySpender)
    }

    constructor ()
      ensures View() == EMPTY
    {
      supply, mint, balances, allowances, bySpender := 0, None, map[], map[], map[];
    }

    /** The host's rollback of an aborted message. */
    method Restore(l: Ledger)
      modifies this
      ensures View() == l
    {
      supply, mint, balances, allowances, bySpender := l.supply, l.mint, l.balances, l.allowances, l.bySpender;
    }

    method Instantiate(accounts: seq<Account>, minter: Option<Minter>) returns (r: Result<(), Error>)
      requires View() == EMPTY
      modifies this
      ensures Commits(EMPTY, Genesis(accounts, minter), View(), r)
    {
      if !NoAddressTwice(accounts) {
        return Err(DuplicateInitialBalanceAddresses);
      }
      var total := 0;
      for i := 0 to |accounts|
        invariant mint == None && allowances == map[] && bySpender == map[] && supply == 0
        invariant (balances, total) == Opened(accounts[..i])
      {
        assert accounts[..i + 1][..i] == accounts[..i];
        balances := balances[accounts[i].address := accounts[i].amount];
        total := total + accounts[i].amount;
      }
      assert accounts[..|accounts|] == accounts;
      if !Fits(total) {
        balances := map[];
        return Err(Overflow);
      }
      if minter.Some? && minter.value.cap.Some? && total > minter.value.cap.value {
        balances := map[];
        return Err(InitialSupplyAboveCap);
      }
      supply, mint := total, minter;
      return Ok(());
    }

    method MoveBalance(from: Addr, to: Addr, amount: nat) returns (r: Result<(), Error>)
      modifies `balances
      ensures match Move(old(View()), from, to, amount)
              case Ok(l) => r == Ok(()) && View() == l
              case Err(e) => r == Err(e)
    {
      var balance := Get(balances, from, 0);
      if balance < amount {
        return Err(Overflow);
      }
      balances := balances[from := balance - amount];
      var received := Get(balances, to, 0);
      if !Fits(received + amount) {
        return Err(Overflow);
      }
      balances := balances[to := received + amount];
      return Ok(());
    }

    method DestroyBalance(from: Addr, amount: nat) returns (r: Result<(), Error>)
      modifies `balances, `supply
      ensures match Destroy(old(View()), from, amount)
              case Ok(l) => r == Ok(()) && View() == l
              case Err(e) => r == Err(e)
    {
      var balance := Get(balances, from, 0);
      if balance < amount {
        return Err(Overflow);
      }
      balances := balances[from := balance - amount];
      if supply < amount {
        return Err(Overflow);
      }
      supply := supply - amount;
      return Ok(());
    }

    method ExecuteMint(sender: Addr, to: Addr, amount: nat) returns (r: Result<(), Error>)
      modifies `balances, `supply
      ensures match Issue(old(View()), sender, to, amount)
              case Ok(l) => r == Ok(()) && View() == l
              case Err(e) => r == Err(e)
    {
      if amount == 0 {
        return Err(InvalidZeroAmount);
      }
      if mint.None? || mint.value.addr != sender {
        return Err(Unauthorized);
      }
      if !Fits(supply + amount) {
        return Err(Overflow);
      }
      if mint.value.cap.Some? && supply + amount > mint.value.cap.value {
        return Err(CannotExceedCap);
      }
      supply := supply + amount;
      var received := Get(balances, to, 0);
      if !Fits(received + amount) {
        return Err(Overflow);
      }
      balances := balances[to := received + amount];
      return Ok(());
    }

    method ExecuteIncreaseAllowance(owner: Addr, spender: Addr, amount: nat, expires: Option<Expiration>)
      returns (r: Result<(), Error>)
      modifies `allowances, `bySpender
      ensures match Increase(old(View()), owner, spender, amount, expires)
              case Ok(l) => r == Ok(()) && View() == l
              case Err(e) => r == Err(e)
    {
      if spender == owner {
        return Err(CannotSetOwnAccount);
      }
      var byOwner :- Raised(Get(allowances, (owner, spender), NO_ALLOWANCE), amount, expires);
      allowances := allowances[(owner, spender) := byOwner];
      var mirrored :- Raised(Get(bySpender, (spender, owner), NO_ALLOWANCE), amount, expires);
      bySpender := bySpender[(spender, owner) := mirrored];
      return Ok(());
    }

    method ExecuteDecreaseAllowance(owner: Addr, spender: Addr, amount: nat, expires: Option<Expiration>)
      returns (r: Result<(), Error>)
      modifies `allowances, `bySpender
      ensures match Decrease(old(View()), owner, spender, amount, expires)
              case Ok(l) => r == Ok(()) && View() == l
              case Err(e) => r == Err(e)
    {
      if spender == owner {
        return Err(CannotSetOwnAccount);
      }
      if (owner, spender) !in allowances {
        return Err(AllowanceNotFound);
      }
      var allowance := allowances[(owner, spender)];
      if amount < allowance.amount {
        allowance := allowance.(amount := allowance.amount - amount);
        if expires.Some? {
          allowance := allowance.(expires := expires.value);
        }
        allowances := allowances[(owner, spender) := allowance];
        bySpender := bySpender[(spender, owner) := allowance];
      } else {
        allowances := allowances - {(owner, spender)};
        bySpender := bySpender - {(spender, owner)};
      }
      return Ok(());
    }

    method DeductAllowance(owner: Addr, spender: Addr, block: Block, amount: nat) returns (r: Result<(), Error>)
      modifies `allowances, `bySpender
      ensures match Deduct(old(View()), owner, spender, block, amount)
              case Ok(l) => r == Ok(()) && View() == l
              case Err(e) => r == Err(e)
    {
      var byOwner :- Lowered(Lookup(allowances, (owner, spender)), block, amount);
      allowances := allowances[(owner, spender) := byOwner];
      var mirrored :- Lowered(Lookup(bySpender, (spender, owner)), block, amount);
      bySpender := bySpender[(spender, owner) := mirrored];
      return Ok(());
    }

    method ExecuteUpdateMinter(sender: Addr, newMinter: Option<Addr>) returns (r: Result<(), Error>)
      modifies `mint
      ensures match Remint(old(View()), sender, newMinter)
              case Ok(l) => r == Ok(()) && View() == l
              case Err(e) => r == Err(e)
    {
      if mint.None? || mint.value.addr != sender {
        return Err(Unauthorized);
      }
      mint := if newMinter.None? then None else Some(Minter(newMinter.value, mint.value.cap));
      return Ok(());
    }

    /** The three messages of a spender: the allowance first, then the movement. */
    method SpendAllowance(c: Call) returns (r: Result<(), Error>)
      requires c.msg.TransferFrom? || c.msg.BurnFrom? || c.msg.SendFrom?
      modifies this
      ensures match Exec(old(View()), c)
              case Ok(l) => r == Ok(()) && View() == l
              case Err(e) => r == Err(e)
    {
      var owner, amount := c.msg.owner, c.msg.amount;
      var _ :- DeductAllowance(owner, c.sender, c.block, amount);
      if c.msg.BurnFrom? {
        r := DestroyBalance(owner, amount);
      } else if c.msg.TransferFrom? {
        r := MoveBalance(owner, c.msg.recipient, amount);
      } else {
        r := MoveBalance(owner, c.msg.contract, amount);
        if r.Ok? && !c.received { r := Err(NotReceived); }
      }
    }

    method Dispatch(c: Call) returns (r: Result<(), Error>)
      modifies this
      ensures match Exec(old(View()), c)
              case Ok(l) => r == Ok(()) && View() == l
              case Err(e) => r == Err(e)
    {
      match c.msg {
        case Transfer(to, amount) =>
          if amount == 0 { return Err(InvalidZeroAmount); }
          r := MoveBalance(c.sender, to, amount);
        case Burn(amount) =>
          if amount == 0 { return Err(InvalidZeroAmount); }
          r := DestroyBalance(c.sender, amount);
        case Send(contract, amount) =>
          if amount == 0 { return Err(InvalidZeroAmount); }
          r := MoveBalance(c.sender, contract, amount);
          if r.Ok? && !c.received { r := Err(NotReceived); }
        case Mint(to, amount) =>
          r := ExecuteMint(c.sender, to, amount);
        case IncreaseAllowance(spender, amount, expires) =>
          r := ExecuteIncreaseAllowance(c.sender, spender, amount, expires);
        case DecreaseAllowance(spender, amount, expires) =>
          r := ExecuteDecreaseAllowance(c.sender, spender, amount, expires);
        case TransferFrom(_, _, _) => r := SpendAllowance(c);
        case BurnFrom(_, _) => r := SpendAllowance(c);
        case SendFrom(_, _, _) => r := SpendAllowance(c);
        case UpdateMinter(newMinter) =>
          r := ExecuteUpdateMinter(c.sender, newMinter);
      }
    }

    /** One message: either its whole effect, or none of it. */
    method Execute(c: Call) returns (r: Result<(), Error>)
      modifies this
      ensures Commits(old(View()), Exec(old(View()), c), View(), r)
    {
      var before := View();
      r := Dispatch(c);
      if r.Err? {
        Restore(before);
      }
    }
  }
}
