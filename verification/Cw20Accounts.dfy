/** Double entry for the token: every balance, the supply and every allowance is what it was, with what
    the accepted calls put in and without what they took out, and a call is accepted exactly when its
    sender may make it and the amounts are there. */
module Cw20Accounts {
  import opened Chain
  import opened Cw20Token
  import opened Cw20Laws

  // Balances and supply.

  /** What a call takes from an account, and what it brings to one. */
  function Debited(c: Call, a: Addr): nat {
    match c.msg
    case Transfer(_, amount) => if a == c.sender then amount else 0
    case Burn(amount) => if a == c.sender then amount else 0
    case Send(_, amount) => if a == c.sender then amount else 0
    case TransferFrom(owner, _, amount) => if a == owner then amount else 0
    case BurnFrom(owner, amount) => if a == owner then amount else 0
    case SendFrom(owner, _, amount) => if a == owner then amount else 0
    case _ => 0
  }

  function Credited(c: Call, a: Addr): nat {
    match c.msg
    case Transfer(to, amount) => if a == to then amount else 0
    case Send(contract, amount) => if a == contract then amount else 0
    case Mint(to, amount) => if a == to then amount else 0
    case TransferFrom(_, to, amount) => if a == to then amount else 0
    case SendFrom(_, contract, amount) => if a == contract then amount else 0
    case _ => 0
  }

  function Minted(c: Call): nat { if c.msg.Mint? then c.msg.amount else 0 }

  function Burned(c: Call): nat { if c.msg.Burn? || c.msg.BurnFrom? then c.msg.amount else 0 }

  lemma MoveBalances(l: Ledger, from: Addr, to: Addr, amount: nat, a: Addr)
    requires Move(l, from, to, amount).Ok?
    ensures var t := Move(l, from, to, amount).value;
            && t.BalanceOf(a) + (if a == from then amount else 0) == l.BalanceOf(a) + (if a == to then amount else 0)
            && t.supply == l.supply
  {
  }

  lemma TakingsMoveBalances(l: Ledger, c: Call, a: Addr)
    requires Exec(l, c).Ok? && (c.msg.TransferFrom? || c.msg.SendFrom? || c.msg.BurnFrom?)
    ensures var t := Exec(l, c).value;
            && t.BalanceOf(a) + Debited(c, a) == l.BalanceOf(a) + Credited(c, a)
            && t.supply + Burned(c) == l.supply
  {
    var owner, amount := c.msg.owner, c.msg.amount;
    DeductTakes(l, owner, c.sender, c.block, amount);
    var deducted := Deduct(l, owner, c.sender, c.block, amount).value;
    if !c.msg.BurnFrom? {
      MoveBalances(deducted, owner, if c.msg.TransferFrom? then c.msg.recipient else c.msg.contract, amount, a);
    }
  }

  /** One accepted call, whatever it is, on one account and on the supply. */
  lemma BalanceStep(l: Ledger, c: Call, a: Addr)
    requires Exec(l, c).Ok?
    ensures var t := Exec(l, c).value;
            && t.BalanceOf(a) + Debited(c, a) == l.BalanceOf(a) + Credited(c, a)
            && t.supply + Burned(c) == l.supply + Minted(c)
  {
    match c.msg
    case TransferFrom(_, _, _) => TakingsMoveBalances(l, c, a);
    case SendFrom(_, _, _) => TakingsMoveBalances(l, c, a);
    case BurnFrom(_, _) => TakingsMoveBalances(l, c, a);
    case Transfer(to, amount) => MoveBalances(l, c.sender, to, amount, a);
    case Send(contract, amount) => MoveBalances(l, c.sender, contract, amount, a);
    case _ =>
  }

  /** The sum of a figure over the accepted calls of a run. */
  function Over(l: Ledger, calls: seq<Call>, figure: Call -> nat): nat {
    if calls == [] then 0 else
      var n := |calls| - 1;
      Over(l, calls[..n], figure) + (if Exec(Run(l, calls[..n]), calls[n]).Ok? then figure(calls[n]) else 0)
  }

  /** Over every run a balance is what it was, with all that accepted calls brought and without all
      that they took. */
  lemma {:induction false} BalancesAreAccounted(l: Ledger, calls: seq<Call>, a: Addr)
    ensures Run(l, calls).BalanceOf(a) + Over(l, calls, (c: Call) => Debited(c, a))
            == l.BalanceOf(a) + Over(l, calls, (c: Call) => Credited(c, a))
  {
    if calls != [] {
      var n := |calls| - 1;
      BalancesAreAccounted(l, calls[..n], a);
      if Exec(Run(l, calls[..n]), calls[n]).Ok? {
        BalanceStep(Run(l, calls[..n]), calls[n], a);
      }
    }
  }

  /** The supply is what it was, with all that was minted and without all that was burned. */
  lemma {:induction false} SupplyIsAccounted(l: Ledger, calls: seq<Call>)
    ensures Run(l, calls).supply + Over(l, calls, Burned) == l.supply + Over(l, calls, Minted)
  {
    if calls != [] {
      var n := |calls| - 1;
      SupplyIsAccounted(l, calls[..n]);
      if Exec(Run(l, calls[..n]), calls[n]).Ok? {
        BalanceStep(Run(l, calls[..n]), calls[n], "");
      }
    }
  }

  // Allowances.

  /** Whether a call is about the allowance of `spender` on `owner`'s tokens. */
  predicate Concerns(c: Call, owner: Addr, spender: Addr) {
    || (c.sender == owner && (c.msg.IncreaseAllowance? || c.msg.DecreaseAllowance?) && c.msg.spender == spender)
    || (c.sender == spender && (c.msg.TransferFrom? || c.msg.SendFrom? || c.msg.BurnFrom?) && c.msg.owner == owner)
  }

  /** The same allowance in both indexes, expiry included. */
  predicate SameAllowance(l: Ledger, t: Ledger, owner: Addr, spender: Addr) {
    && Lookup(t.allowances, (owner, spender)) == Lookup(l.allowances, (owner, spender))
    && Lookup(t.bySpender, (spender, owner)) == Lookup(l.bySpender, (spender, owner))
  }

  /** An increase adds its amount, a decrease takes its amount off or removes the allowance, a given
      expiry is stored and otherwise the old one stays, in both indexes. */
  lemma ChangedAllowance(l: Ledger, c: Call)
    requires Mirrored(l) && Exec(l, c).Ok? && (c.msg.IncreaseAllowance? || c.msg.DecreaseAllowance?)
    ensures var t, k := Exec(l, c).value, (c.sender, c.msg.spender);
            var before := l.AllowanceOf(c.sender, c.msg.spender);
            if c.msg.DecreaseAllowance? && before <= c.msg.amount then
              k !in t.allowances && (c.msg.spender, c.sender) !in t.bySpender
            else
              && k in t.allowances && Lookup(t.bySpender, (c.msg.spender, c.sender)) == Some(t.allowances[k])
              && t.allowances[k].amount
                 == (if c.msg.IncreaseAllowance? then before + c.msg.amount else before - c.msg.amount)
              && t.allowances[k].expires
                 == (if c.msg.expires.Some? then c.msg.expires.value
                     else if k in l.allowances then l.allowances[k].expires else Never)
  {
    assert (c.sender, c.msg.spender) in l.allowances <==> (c.msg.spender, c.sender) in l.bySpender;
  }

  lemma TakenAllowance(l: Ledger, c: Call, owner: Addr, spender: Addr)
    requires Mirrored(l) && Exec(l, c).Ok? && (c.msg.TransferFrom? || c.msg.SendFrom? || c.msg.BurnFrom?)
    ensures var t := Exec(l, c).value;
            if !Concerns(c, owner, spender) then SameAllowance(l, t, owner, spender) else
              && (owner, spender) in l.allowances && (owner, spender) in t.allowances
              && t.allowances[(owner, spender)].expires == l.allowances[(owner, spender)].expires
              && l.allowances[(owner, spender)].amount - c.msg.amount == t.allowances[(owner, spender)].amount
  {
    var deducted := Deduct(l, c.msg.owner, c.sender, c.block, c.msg.amount).value;
    assert Exec(l, c).value.allowances == deducted.allowances && Exec(l, c).value.bySpender == deducted.bySpender;
  }

  /** Only the owner and the spender of an allowance change it, and using it leaves its expiry. */
  lemma OthersKeepAnAllowance(l: Ledger, c: Call, owner: Addr, spender: Addr)
    requires Mirrored(l) && Exec(l, c).Ok? && !Concerns(c, owner, spender)
    ensures SameAllowance(l, Exec(l, c).value, owner, spender)
  {
    if c.msg.TransferFrom? || c.msg.SendFrom? || c.msg.BurnFrom? {
      TakenAllowance(l, c, owner, spender);
    }
  }

  // Acceptance.

  /** Together with `MovementsSucceedExactlyWhen` this says of every message when it is accepted. */
  lemma ChangesSucceedExactlyWhen(l: Ledger, c: Call)
    requires Sound(l)
    ensures c.msg.Burn? ==> (Exec(l, c).Ok? <==> c.msg.amount != 0 && c.msg.amount <= l.BalanceOf(c.sender))
    ensures c.msg.Mint? ==>
              (Exec(l, c).Ok? <==>
                && c.msg.amount != 0 && l.mint.Some? && c.sender == l.mint.value.addr
                && l.supply + c.msg.amount <= (if l.Cap().None? then U128_MAX else Min(l.Cap().value, U128_MAX)))
    ensures c.msg.IncreaseAllowance? ==>
              (Exec(l, c).Ok? <==>
                c.msg.spender != c.sender && Fits(l.AllowanceOf(c.sender, c.msg.spender) + c.msg.amount))
    ensures c.msg.DecreaseAllowance? ==>
              (Exec(l, c).Ok? <==> c.msg.spender != c.sender && (c.sender, c.msg.spender) in l.allowances)
    ensures c.msg.UpdateMinter? ==> (Exec(l, c).Ok? <==> l.mint.Some? && c.sender == l.mint.value.addr)
  {
    match c.msg
    case Burn(amount) => DestroySound(l, c.sender, amount);
    case Mint(to, amount) => IssueSound(l, c.sender, to, amount);
    case IncreaseAllowance(spender, _, _) =>
      assert (c.sender, spender) in l.allowances <==> (spender, c.sender) in l.bySpender;
    case _ =>
  }

  /** The block comes before the height or the time that is set. */
  predicate InTime(expires: Expiration, block: Block) {
    (expires.AtHeight? ==> block.height < expires.height) && (expires.AtTime? ==> block.time < expires.time)
  }

  /** A covered use of an allowance is accepted exactly before its expiry, and so at no later block once it is
      refused at one. */
  lemma AllowancesEndAtTheirExpiry(l: Ledger, c: Call, later: Block)
    requires Sound(l) && (c.msg.TransferFrom? || c.msg.BurnFrom?) && (c.msg.owner, c.sender) in l.allowances
    requires c.msg.amount <= l.AllowanceOf(c.msg.owner, c.sender) && c.msg.amount <= l.BalanceOf(c.msg.owner)
    ensures Exec(l, c).Ok? <==> InTime(l.allowances[(c.msg.owner, c.sender)].expires, c.block)
    ensures Exec(l, c).Err? && c.block.height <= later.height && c.block.time <= later.time ==>
              Exec(l, c.(block := later)).Err?
  {
    MovementsSucceedExactlyWhen(l, c);
    MovementsSucceedExactlyWhen(l, c.(block := later));
  }

  function Min(a: nat, b: nat): nat { if a <= b then a else b }

  /** The minter names the next one, or nobody; the cap goes along. */
  lemma TheMinterNamesTheNext(l: Ledger, c: Call)
    requires c.msg.UpdateMinter? && Exec(l, c).Ok?
    ensures var t := Exec(l, c).value;
            && (c.msg.newMinter.None? <==> t.mint.None?)
            && (t.mint.Some? ==> t.mint.value.addr == c.msg.newMinter.value && t.Cap() == l.Cap())
            && t == l.(mint := t.mint)
  {
  }

  // Instantiation.

  lemma {:induction false} OpenedAsListed(accounts: seq<Account>, a: Addr)
    requires NoAddressTwice(accounts)
    ensures a in Opened(accounts).0 <==> exists i :: 0 <= i < |accounts| && accounts[i].address == a
    ensures forall i :: 0 <= i < |accounts| && accounts[i].address == a ==>
                          a in Opened(accounts).0 && Opened(accounts).0[a] == accounts[i].amount
  {
    if accounts != [] {
      OpenedAsListed(accounts[..|accounts| - 1], a);
    }
  }

  /** An instantiation is accepted exactly when no address is listed twice and the listed amounts fit
      and are within the cap; then every listed address has what is listed for it and every other
      address nothing, and nobody has an allowance. */
  lemma GenesisOpensTheList(accounts: seq<Account>, mint: Option<Minter>, a: Addr)
    ensures var total := Opened(accounts).1;
            Genesis(accounts, mint).Ok? <==>
              && NoAddressTwice(accounts) && Fits(total)
              && (mint.Some? && mint.value.cap.Some? ==> total <= mint.value.cap.value)
    ensures Genesis(accounts, mint).Ok? ==>
              var l := Genesis(accounts, mint).value;
              && (forall i :: 0 <= i < |accounts| && accounts[i].address == a ==> l.BalanceOf(a) == accounts[i].amount)
              && ((forall i :: 0 <= i < |accounts| ==> accounts[i].address != a) ==> l.BalanceOf(a) == 0)
              && l.mint == mint && l.allowances == map[] && l.bySpender == map[]
              && l.supply == TotalHeld(l)
  {
    if Genesis(accounts, mint).Ok? {
      OpenedAsListed(accounts, a);
      GenesisSound(accounts, mint);
    }
  }
}
