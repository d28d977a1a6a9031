/** Laws of the token over every run: balances add up to the supply, the cap holds, the two
    allowance indexes mirror each other, no recipient ever overflows, and nobody spends more of
    somebody else's tokens than was granted. */
module Cw20Laws {
  import opened Chain
  import opened Cw20Token
  import Sums

  const HELD: (Addr, nat) -> int := (a, amount) => amount

  ghost function TotalHeld(l: Ledger): int { Sums.Sum<Addr, nat>(l.balances, HELD) }

  ghost predicate Mirrored(l: Ledger) {
    && (forall o, s :: (o, s) in l.allowances <==> (s, o) in l.bySpender)
    && (forall o, s :: (o, s) in l.allowances ==> l.allowances[(o, s)] == l.bySpender[(s, o)])
  }

  ghost predicate Sound(l: Ledger) {
    && TotalHeld(l) == l.supply
    && Fits(l.supply)
    && (l.Cap().Some? ==> l.supply <= l.Cap().value)
    && Mirrored(l)
  }

  lemma BalanceWithinTotal(l: Ledger, a: Addr)
    ensures l.BalanceOf(a) <= TotalHeld(l)
  {
    Sums.NonNegative<Addr, nat>(l.balances, HELD);
    if a in l.balances {
      Sums.PartBelowSum<Addr, nat>(l.balances, HELD, a);
    }
  }

  lemma CreditTotal(l: Ledger, to: Addr, amount: nat)
    requires Credit(l, to, amount).Ok?
    ensures TotalHeld(Credit(l, to, amount).value) == TotalHeld(l) + amount
  {
    Sums.Update<Addr, nat>(l.balances, HELD, to, l.BalanceOf(to) + amount);
  }

  lemma DebitTotal(l: Ledger, from: Addr, amount: nat)
    requires Debit(l, from, amount).Ok?
    ensures TotalHeld(Debit(l, from, amount).value) == TotalHeld(l) - amount
  {
    Sums.Update<Addr, nat>(l.balances, HELD, from, l.BalanceOf(from) - amount);
  }

  /** A transfer inside a sound ledger succeeds exactly when the sender has the amount, and leaves
      it sound, also when sender and recipient are one account. */
  lemma MoveSound(l: Ledger, from: Addr, to: Addr, amount: nat)
    requires Sound(l)
    ensures Move(l, from, to, amount).Ok? <==> amount <= l.BalanceOf(from)
    ensures Move(l, from, to, amount).Ok? ==> Sound(Move(l, from, to, amount).value)
  {
    if Debit(l, from, amount).Ok? {
      var debited := Debit(l, from, amount).value;
      DebitTotal(l, from, amount);
      BalanceWithinTotal(debited, to);
      CreditTotal(debited, to, amount);
    }
  }

  lemma DestroySound(l: Ledger, from: Addr, amount: nat)
    requires Sound(l)
    ensures Destroy(l, from, amount).Ok? <==> amount <= l.BalanceOf(from)
    ensures Destroy(l, from, amount).Ok? ==>
              && Sound(Destroy(l, from, amount).value)
              && Destroy(l, from, amount).value.supply == l.supply - amount
  {
    BalanceWithinTotal(l, from);
    if Debit(l, from, amount).Ok? {
      DebitTotal(l, from, amount);
    }
  }

  lemma IssueSound(l: Ledger, sender: Addr, to: Addr, amount: nat)
    requires Sound(l)
    ensures Issue(l, sender, to, amount).Ok? <==>
              && amount != 0
              && l.mint.Some? && l.mint.value.addr == sender
              && Fits(l.supply + amount)
              && (l.Cap().Some? ==> l.supply + amount <= l.Cap().value)
    ensures Issue(l, sender, to, amount).Ok? ==>
              && Sound(Issue(l, sender, to, amount).value)
              && Issue(l, sender, to, amount).value.supply == l.supply + amount
  {
    BalanceWithinTotal(l, to);
    var raised := l.(supply := l.supply + amount);
    if Credit(raised, to, amount).Ok? {
      CreditTotal(raised, to, amount);
    }
  }

  lemma IncreaseSound(l: Ledger, owner: Addr, spender: Addr, amount: nat, expires: Option<Expiration>)
    requires Sound(l) && Increase(l, owner, spender, amount, expires).Ok?
    ensures Sound(Increase(l, owner, spender, amount, expires).value)
  {
    assert (owner, spender) in l.allowances <==> (spender, owner) in l.bySpender;
  }

  lemma DecreaseSound(l: Ledger, owner: Addr, spender: Addr, amount: nat, expires: Option<Expiration>)
    requires Sound(l) && Decrease(l, owner, spender, amount, expires).Ok?
    ensures Sound(Decrease(l, owner, spender, amount, expires).value)
  {
  }

  /** Both copies of an allowance are there or neither is, so a deduction needs only the owner's. */
  lemma DeductSound(l: Ledger, owner: Addr, spender: Addr, block: Block, amount: nat)
    requires Sound(l)
    ensures Deduct(l, owner, spender, block, amount).Ok? <==>
              && (owner, spender) in l.allowances
              && !l.allowances[(owner, spender)].expires.IsExpired(block)
              && amount <= l.AllowanceOf(owner, spender)
    ensures Deduct(l, owner, spender, block, amount).Ok? ==>
              Sound(Deduct(l, owner, spender, block, amount).value)
  {
    assert (owner, spender) in l.allowances <==> (spender, owner) in l.bySpender;
  }

  lemma {:induction false} OpenedTotal(accounts: seq<Account>)
    requires NoAddressTwice(accounts)
    ensures forall a :: a in Opened(accounts).0 ==> exists i :: 0 <= i < |accounts| && accounts[i].address == a
    ensures Sums.Sum<Addr, nat>(Opened(accounts).0, HELD) == Opened(accounts).1
  {
    if accounts != [] {
      var n := |accounts| - 1;
      OpenedTotal(accounts[..n]);
      Sums.Update<Addr, nat>(Opened(accounts[..n]).0, HELD, accounts[n].address, accounts[n].amount);
    }
  }

  lemma GenesisSound(accounts: seq<Account>, mint: Option<Minter>)
    requires Genesis(accounts, mint).Ok?
    ensures Sound(Genesis(accounts, mint).value)
  {
    OpenedTotal(accounts);
  }

  lemma MoveFromSound(l: Ledger, block: Block, sender: Addr, owner: Addr, to: Addr, amount: nat)
    requires Sound(l)
    ensures MoveFrom(l, block, sender, owner, to, amount).Ok? <==>
              Deduct(l, owner, sender, block, amount).Ok? && amount <= l.BalanceOf(owner)
    ensures MoveFrom(l, block, sender, owner, to, amount).Ok? ==>
              Sound(MoveFrom(l, block, sender, owner, to, amount).value)
  {
    DeductSound(l, owner, sender, block, amount);
    if Deduct(l, owner, sender, block, amount).Ok? {
      MoveSound(Deduct(l, owner, sender, block, amount).value, owner, to, amount);
    }
  }

  /** Every entry point keeps the ledger sound. */
  lemma ExecSound(l: Ledger, c: Call)
    requires Sound(l) && Exec(l, c).Ok?
    ensures Sound(Exec(l, c).value)
  {
    match c.msg
    case Transfer(to, amount) => MoveSound(l, c.sender, to, amount);
    case Burn(amount) => DestroySound(l, c.sender, amount);
    case Send(contract, amount) => MoveSound(l, c.sender, contract, amount);
    case Mint(to, amount) => IssueSound(l, c.sender, to, amount);
    case IncreaseAllowance(spender, amount, expires) => IncreaseSound(l, c.sender, spender, amount, expires);
    case DecreaseAllowance(spender, amount, expires) => DecreaseSound(l, c.sender, spender, amount, expires);
    case TransferFrom(owner, to, amount) => MoveFromSound(l, c.block, c.sender, owner, to, amount);
    case BurnFrom(owner, amount) =>
      DeductSound(l, owner, c.sender, c.block, amount);
      DestroySound(Deduct(l, owner, c.sender, c.block, amount).value, owner, amount);
    case SendFrom(owner, contract, amount) => MoveFromSound(l, c.block, c.sender, owner, contract, amount);
    case UpdateMinter(newMinter) =>
  }

  lemma {:induction false} RunSound(l: Ledger, calls: seq<Call>)
    requires Sound(l)
    ensures Sound(Run(l, calls))
  {
    if calls != [] {
      var before := Run(l, calls[..|calls| - 1]);
      RunSound(l, calls[..|calls| - 1]);
      if Exec(before, calls[|calls| - 1]).Ok? {
        ExecSound(before, calls[|calls| - 1]);
      }
    }
  }

  /** From any accepted instantiation, whatever is called and in whatever order. */
  lemma EveryReachableLedgerIsSound(accounts: seq<Account>, mint: Option<Minter>, calls: seq<Call>)
    requires Genesis(accounts, mint).Ok?
    ensures Sound(Run(Genesis(accounts, mint).value, calls))
  {
    GenesisSound(accounts, mint);
    RunSound(Genesis(accounts, mint).value, calls);
  }

  /** In a reachable ledger the recipient's addition never overflows: a token movement is refused
      only for a zero amount, for want of balance, for want of a live allowance, or by the contract
      it is sent to. */
  lemma MovementsSucceedExactlyWhen(l: Ledger, c: Call)
    requires Sound(l)
    ensures (c.msg.Transfer? || c.msg.Send?) ==>
              (Exec(l, c).Ok? <==>
                && c.msg.amount != 0 && c.msg.amount <= l.BalanceOf(c.sender)
                && (c.msg.Send? ==> c.received))
    ensures c.msg.TransferFrom? || c.msg.SendFrom? || c.msg.BurnFrom? ==>
              (Exec(l, c).Ok? <==>
                && (c.msg.owner, c.sender) in l.allowances
                && !l.allowances[(c.msg.owner, c.sender)].expires.IsExpired(c.block)
                && c.msg.amount <= l.AllowanceOf(c.msg.owner, c.sender)
                && c.msg.amount <= l.BalanceOf(c.msg.owner)
                && (c.msg.SendFrom? ==> c.received))
  {
    match c.msg
    case Transfer(to, amount) => MoveSound(l, c.sender, to, amount);
    case Send(contract, amount) => MoveSound(l, c.sender, contract, amount);
    case TransferFrom(owner, to, amount) =>
      DeductSound(l, owner, c.sender, c.block, amount);
      MoveFromSound(l, c.block, c.sender, owner, to, amount);
    case SendFrom(owner, contract, amount) =>
      DeductSound(l, owner, c.sender, c.block, amount);
      MoveFromSound(l, c.block, c.sender, owner, contract, amount);
    case BurnFrom(owner, amount) =>
      DeductSound(l, owner, c.sender, c.block, amount);
      if Deduct(l, owner, c.sender, c.block, amount).Ok? {
        DestroySound(Deduct(l, owner, c.sender, c.block, amount).value, owner, amount);
      }
    case _ =>
  }

  lemma MoveKeepsSupply(l: Ledger, from: Addr, to: Addr, amount: nat)
    requires Move(l, from, to, amount).Ok?
    ensures Move(l, from, to, amount).value.supply == l.supply && Move(l, from, to, amount).value.mint == l.mint
  {
  }

  lemma TakingsKeepSupply(l: Ledger, c: Call)
    requires Exec(l, c).Ok? && (c.msg.TransferFrom? || c.msg.SendFrom? || c.msg.BurnFrom?)
    ensures Exec(l, c).value.supply <= l.supply && Exec(l, c).value.mint == l.mint
  {
    var owner, amount := c.msg.owner, c.msg.amount;
    var deducted := Deduct(l, owner, c.sender, c.block, amount).value;
    assert deducted.supply == l.supply && deducted.mint == l.mint;
    if !c.msg.BurnFrom? {
      MoveKeepsSupply(deducted, owner, if c.msg.TransferFrom? then c.msg.recipient else c.msg.contract, amount);
    }
  }

  /** What each message does to the supply and the minter. */
  lemma MintStep(l: Ledger, c: Call)
    requires Exec(l, c).Ok?
    ensures var t := Exec(l, c).value;
            && (t.supply > l.supply ==> c.msg.Mint? && l.mint.Some? && c.sender == l.mint.value.addr)
            && (t.mint != l.mint ==> c.msg.UpdateMinter? && l.mint.Some? && c.sender == l.mint.value.addr)
            && (t.mint.Some? ==> l.mint.Some? && t.Cap() == l.Cap())
  {
    match c.msg
    case TransferFrom(_, _, _) => TakingsKeepSupply(l, c);
    case SendFrom(_, _, _) => TakingsKeepSupply(l, c);
    case BurnFrom(_, _) => TakingsKeepSupply(l, c);
    case Transfer(to, amount) => MoveKeepsSupply(l, c.sender, to, amount);
    case Send(contract, amount) => MoveKeepsSupply(l, c.sender, contract, amount);
    case _ =>
  }

  /** Only the minter makes tokens or appoints the next minter. */
  lemma OutsidersNeverMint(l: Ledger, c: Call)
    requires Exec(l, c).Ok?
    requires l.mint.None? || l.mint.value.addr != c.sender
    ensures Exec(l, c).value.supply <= l.supply
    ensures Exec(l, c).value.mint == l.mint
  {
    MintStep(l, c);
  }

  // What a spender takes against what the owner grants.

  function Granted(c: Call, owner: Addr, spender: Addr): nat {
    if c.sender == owner && c.msg.IncreaseAllowance? && c.msg.spender == spender then c.msg.amount else 0
  }

  /** What a decrease takes off the allowance: all of it at most. */
  function Removed(l: Ledger, c: Call, owner: Addr, spender: Addr): nat {
    if !(c.sender == owner && c.msg.DecreaseAllowance? && c.msg.spender == spender) then 0
    else if c.msg.amount < l.AllowanceOf(owner, spender) then c.msg.amount else l.AllowanceOf(owner, spender)
  }

  function Taken(c: Call, owner: Addr, spender: Addr): nat {
    if c.sender == spender && (c.msg.TransferFrom? || c.msg.SendFrom? || c.msg.BurnFrom?) && c.msg.owner == owner
    then c.msg.amount else 0
  }

  /** Grants and takings of the calls of a run that went through. */
  function GrantedOver(l: Ledger, calls: seq<Call>, owner: Addr, spender: Addr): nat {
    if calls == [] then 0 else
      var n := |calls| - 1;
      GrantedOver(l, calls[..n], owner, spender) +
      (if Exec(Run(l, calls[..n]), calls[n]).Ok? then Granted(calls[n], owner, spender) else 0)
  }

  function RemovedOver(l: Ledger, calls: seq<Call>, owner: Addr, spender: Addr): nat {
    if calls == [] then 0 else
      var n := |calls| - 1;
      var before := Run(l, calls[..n]);
      RemovedOver(l, calls[..n], owner, spender) +
      (if Exec(before, calls[n]).Ok? then Removed(before, calls[n], owner, spender) else 0)
  }

  function TakenOver(l: Ledger, calls: seq<Call>, owner: Addr, spender: Addr): nat {
    if calls == [] then 0 else
      var n := |calls| - 1;
      TakenOver(l, calls[..n], owner, spender) +
      (if Exec(Run(l, calls[..n]), calls[n]).Ok? then Taken(calls[n], owner, spender) else 0)
  }

  lemma DeductTakes(l: Ledger, owner: Addr, spender: Addr, block: Block, amount: nat)
    requires Deduct(l, owner, spender, block, amount).Ok?
    ensures var t := Deduct(l, owner, spender, block, amount).value;
            && t == l.(allowances := t.allowances, bySpender := t.bySpender)
            && (owner, spender) in l.allowances && amount <= l.AllowanceOf(owner, spender)
            && forall o, s :: t.AllowanceOf(o, s)
                              == l.AllowanceOf(o, s) - if o == owner && s == spender then amount else 0
  {
  }

  lemma MoveKeepsAllowances(l: Ledger, from: Addr, to: Addr, amount: nat)
    requires Move(l, from, to, amount).Ok?
    ensures Move(l, from, to, amount).value.allowances == l.allowances
  {
  }

  lemma TakingsWithinGrant(l: Ledger, c: Call, owner: Addr, spender: Addr)
    requires Exec(l, c).Ok? && (c.msg.TransferFrom? || c.msg.SendFrom? || c.msg.BurnFrom?)
    ensures Exec(l, c).value.AllowanceOf(owner, spender) + Taken(c, owner, spender) == l.AllowanceOf(owner, spender)
  {
    DeductTakes(l, c.msg.owner, c.sender, c.block, c.msg.amount);
    var deducted := Deduct(l, c.msg.owner, c.sender, c.block, c.msg.amount).value;
    if !c.msg.BurnFrom? {
      MoveKeepsAllowances(deducted, c.msg.owner, if c.msg.TransferFrom? then c.msg.recipient else c.msg.contract,
                          c.msg.amount);
    }
  }

  lemma GrantStep(l: Ledger, c: Call, owner: Addr, spender: Addr)
    requires Exec(l, c).Ok?
    ensures Exec(l, c).value.AllowanceOf(owner, spender) + Taken(c, owner, spender) + Removed(l, c, owner, spender)
            == l.AllowanceOf(owner, spender) + Granted(c, owner, spender)
  {
    match c.msg
    case TransferFrom(_, _, _) => TakingsWithinGrant(l, c, owner, spender);
    case SendFrom(_, _, _) => TakingsWithinGrant(l, c, owner, spender);
    case BurnFrom(_, _) => TakingsWithinGrant(l, c, owner, spender);
    case Transfer(to, amount) => MoveKeepsAllowances(l, c.sender, to, amount);
    case Send(contract, amount) => MoveKeepsAllowances(l, c.sender, contract, amount);
    case _ =>
  }

  /** Over every run: what a spender took, may still take and lost to decreases is what the spender
      might take at the start and was granted since. So nobody takes more than was granted. */
  lemma {:induction false} SpendersStayWithinTheirGrants(l: Ledger, calls: seq<Call>, owner: Addr, spender: Addr)
    ensures TakenOver(l, calls, owner, spender) + Run(l, calls).AllowanceOf(owner, spender)
            + RemovedOver(l, calls, owner, spender)
            == l.AllowanceOf(owner, spender) + GrantedOver(l, calls, owner, spender)
  {
    if calls != [] {
      var n := |calls| - 1;
      SpendersStayWithinTheirGrants(l, calls[..n], owner, spender);
      if Exec(Run(l, calls[..n]), calls[n]).Ok? {
        GrantStep(Run(l, calls[..n]), calls[n], owner, spender);
      }
    }
  }

  lemma MoveLowersTheSender(l: Ledger, from: Addr, to: Addr, amount: nat, a: Addr)
    requires Move(l, from, to, amount).Ok?
    ensures Move(l, from, to, amount).value.BalanceOf(a) >= l.BalanceOf(a) - if a == from then amount else 0
  {
  }

  lemma DestroyLowersTheHolder(l: Ledger, from: Addr, amount: nat, a: Addr)
    requires Destroy(l, from, amount).Ok?
    ensures Destroy(l, from, amount).value.BalanceOf(a) == l.BalanceOf(a) - if a == from then amount else 0
  {
  }

  lemma TakingsLowerTheOwner(l: Ledger, c: Call, a: Addr)
    requires Exec(l, c).Ok? && (c.msg.TransferFrom? || c.msg.SendFrom? || c.msg.BurnFrom?)
    ensures (c.msg.owner, c.sender) in l.allowances
    ensures Exec(l, c).value.BalanceOf(a) >= l.BalanceOf(a) - if a == c.msg.owner then c.msg.amount else 0
  {
    var owner, amount := c.msg.owner, c.msg.amount;
    DeductTakes(l, owner, c.sender, c.block, amount);
    var deducted := Deduct(l, owner, c.sender, c.block, amount).value;
    if c.msg.BurnFrom? {
      DestroyLowersTheHolder(deducted, owner, amount, a);
    } else {
      MoveLowersTheSender(deducted, owner, if c.msg.TransferFrom? then c.msg.recipient else c.msg.contract, amount, a);
    }
  }

  /** An account loses tokens only by its own call or by a live allowance it gave. */
  lemma OthersCannotLowerABalance(l: Ledger, c: Call, a: Addr)
    requires Exec(l, c).Ok? && Exec(l, c).value.BalanceOf(a) < l.BalanceOf(a)
    ensures c.sender == a || (Taken(c, a, c.sender) >= l.BalanceOf(a) - Exec(l, c).value.BalanceOf(a)
                              && (a, c.sender) in l.allowances)
  {
    match c.msg
    case TransferFrom(_, _, _) => TakingsLowerTheOwner(l, c, a);
    case SendFrom(_, _, _) => TakingsLowerTheOwner(l, c, a);
    case BurnFrom(_, _) => TakingsLowerTheOwner(l, c, a);
    case Transfer(to, amount) => MoveLowersTheSender(l, c.sender, to, amount, a);
    case Send(contract, amount) => MoveLowersTheSender(l, c.sender, contract, amount, a);
    case Burn(amount) => DestroyLowersTheHolder(l, c.sender, amount, a);
    case _ =>
  }

  // The minter and the cap.

  /** The minting right is handed on, never created, and its cap goes with it unchanged: whatever is
      called, whoever mints at the end mints under the cap the run began with. */
  lemma {:induction false} TheCapNeverChanges(l: Ledger, calls: seq<Call>)
    requires Sound(l) && Run(l, calls).mint.Some?
    ensures l.mint.Some? && Run(l, calls).Cap() == l.Cap()
    ensures l.Cap().Some? ==> Run(l, calls).supply <= l.Cap().value
  {
    RunSound(l, calls);
    if calls != [] {
      var n := |calls| - 1;
      if Exec(Run(l, calls[..n]), calls[n]).Ok? {
        MintStep(Run(l, calls[..n]), calls[n]);
      }
      TheCapNeverChanges(l, calls[..n]);
    }
  }
}
