/** The terms of the bonding contract: what a bond records, which amounts the cap admits given the
    history of days, and exactly when a bond or an unbond is accepted. */
module BondingTerms {
  import opened Chain
  import opened BondingVault
  import opened BondingLaws
  import opened Nonlinear
  import Sums

  predicate IsBond(c: Call) { c.msg.LpBond? || (c.msg.Bond? && c.price.Some?) }

  /** Who gets the record, and what the discount is reckoned on. */
  function Bonder(c: Call): Addr { if c.msg.LpBond? then c.msg.address else c.sender }

  function PaidFor(c: Call): nat
    requires IsBond(c)
  {
    if c.msg.LpBond? then c.msg.amount else c.price.value
  }

  /** The most whole units of which `1000 - discount` thousandths are worth no more than what was paid:
      the discount is the bonder's gain. */
  predicate IsDiscounted(paid: nat, discount: nat, amount: nat) {
    && discount < 1000
    && amount * (1000 - discount) <= 1000 * paid < (amount + 1) * (1000 - discount)
  }

  /** An accepted bond appends one record to the bonder's list, for the discounted amount and due after
      the lock time, and leaves every other list as it was. */
  lemma {:induction false} BondsAreDiscounted(v: Vault, c: Call, a: Addr)
    requires (c.msg.Bond? || c.msg.LpBond?) && Exec(v, c).Ok?
    ensures IsBond(c)
    ensures var list := Exec(v, c).value.Listed(Bonder(c));
            && list != []
            && var r := list[|list| - 1];
            && list == v.Listed(Bonder(c)) + [r]
            && IsDiscounted(PaidFor(c), v.config.discount, r.amount)
            && r.timestamp == c.now + v.config.lockSeconds
            && NewRecord(v, c) == Some((Bonder(c), r))
    ensures a != Bonder(c) ==> Exec(v, c).value.Listed(a) == v.Listed(a)
  {
  }

  /** Nobody bonds for less than was paid, and without a discount for exactly as much. */
  lemma DiscountsNeverCost(paid: nat, discount: nat, amount: nat)
    requires IsDiscounted(paid, discount, amount)
    ensures amount >= paid && (discount == 0 ==> amount == paid)
  {
    if amount < paid {
      MulLe(amount + 1, paid, 1000 - discount);
      MulLe(1000 - discount, 1000, paid);
    }
  }

  lemma DiscountedIsReceived(paid: nat, discount: nat, amount: nat)
    requires IsDiscounted(paid, discount, amount) && Fits(paid * 1000)
    ensures Receiving(paid, discount) == Ok(amount)
  {
    var d := 1000 - discount;
    var q := Receiving(paid, discount).value;
    if q < amount {
      MulLe(q + 1, amount, d);
    } else if amount < q {
      MulLe(amount + 1, q, d);
    }
  }

  // The cap.

  /** Days have 86400 seconds and begin at the multiples of that. */
  lemma DaysHave86400Seconds(time: nat)
    ensures 86400 * DayOf(time) <= time < 86400 * (DayOf(time) + 1)
  {
  }

  /** What a day has taken, and what it may take: the daily amount and what earlier days left. */
  function TakenOn(days: seq<Day>, index: nat): nat
    requires |days| > 0
  {
    if days[|days| - 1].index == index then days[|days| - 1].total else 0
  }

  function CapOn(days: seq<Day>, index: nat, daily: nat): nat
    requires |days| > 0
  {
    daily + Carry(if days[|days| - 1].index == index then days[..|days| - 1] else days, daily)
  }

  /** The cap admits exactly the amounts that, with what the day has taken, stay within the day's cap. */
  lemma {:induction false} CapAdmitsExactly(cfg: Config, days: seq<Day>, now: nat, amount: nat)
    requires Refines(cfg, days) && cfg.lastTimestamp <= now
    ensures var cap := CapOn(days, DayOf(now), cfg.dailyVesting);
            CheckDailyVesting(cfg, now, amount).Ok? <==> Fits(cap) && TakenOn(days, DayOf(now)) + amount <= cap
  {
    if days[|days| - 1].index != DayOf(now) {
      CarryNext(days, cfg.dailyVesting);
    }
  }

  lemma CarryNext(days: seq<Day>, daily: nat)
    requires days != []
    ensures var last := days[|days| - 1];
            Carry(days, daily) == Carry(days[..|days| - 1], daily) + (if last.total <= daily then daily - last.total else 0)
  {
  }

  /** Over every run: an amount that comes next passes the cap exactly when the day's share of the
      history leaves room for it. */
  lemma {:induction false} CapAdmitsByHistory(v: Vault, calls: seq<Call>, until: nat, now: nat, amount: nat)
    requires IsGenesis(v) && InTimeOrder(v.config.lastTimestamp, calls, until) && until <= now
    requires KeepsDailyAmount(calls, v.config.dailyVesting)
    ensures var days, cap := Days(v, calls), CapOn(Days(v, calls), DayOf(now), v.config.dailyVesting);
            CheckDailyVesting(Run(v, calls).config, now, amount).Ok?
            <==> Fits(cap) && TakenOn(days, DayOf(now)) + amount <= cap
  {
    CapRefinesHistory(v, calls, until);
    CapAdmitsExactly(Run(v, calls).config, Days(v, calls), now, amount);
  }

  // Acceptance.

  /** The coins cover an amount and the fee on it, to within one unit. */
  predicate CoinsCover(cfg: Config, usdc: nat, amount: nat) {
    && cfg.txFee + cfg.platformFee <= U64_MAX && Fits(amount * (cfg.txFee + cfg.platformFee))
    && amount <= usdc && amount * (cfg.txFee + cfg.platformFee) < 1000 * (usdc - amount + 1)
  }

  /** The kind of bonding the contract is set up for, and who may ask for it. */
  predicate IsOffered(cfg: Config, c: Call) {
    && cfg.enabled
    && if c.msg.LpBond? then !cfg.isNativeBonding && c.sender == cfg.pool && c.msg.amount != 0
       else c.msg.Bond? && cfg.isNativeBonding && c.delivered && c.usdc != 0 && CoinsCover(cfg, c.usdc, c.msg.amount)
  }

  lemma CoinsCoverTheFee(cfg: Config, usdc: nat, amount: nat)
    requires Fits(usdc)
    ensures CoinsCover(cfg, usdc, amount) <==>
              && BondFee(cfg, amount).Ok?
              && Fits(BondFee(cfg, amount).value + amount) && usdc >= BondFee(cfg, amount).value + amount
  {
  }

  lemma EnlistsExactlyWhen(v: Vault, days: seq<Day>, now: nat, a: Addr, amount: nat)
    requires Refines(v.config, days) && v.config.lastTimestamp <= now
    ensures var cap := CapOn(days, DayOf(now), v.config.dailyVesting);
            Enlist(v, now, a, amount).Ok? <==>
              && Fits(cap) && TakenOn(days, DayOf(now)) + amount <= cap
              && now + v.config.lockSeconds <= U64_MAX
  {
    CapAdmitsExactly(v.config, days, now, amount);
  }

  /** When a bond is accepted, `amount` being the discounted amount. */
  lemma {:induction false} BondsAreAcceptedExactlyWhen(v: Vault, days: seq<Day>, c: Call, amount: nat)
    requires Refines(v.config, days) && v.config.lastTimestamp <= c.now && Fits(c.usdc)
    requires IsBond(c) && IsDiscounted(PaidFor(c), v.config.discount, amount) && Fits(PaidFor(c) * 1000)
    ensures var cap := CapOn(days, DayOf(c.now), v.config.dailyVesting);
            Exec(v, c).Ok? <==>
              && IsOffered(v.config, c)
              && Fits(cap) && TakenOn(days, DayOf(c.now)) + amount <= cap
              && c.now + v.config.lockSeconds <= U64_MAX
  {
    DiscountedIsReceived(PaidFor(c), v.config.discount, amount);
    EnlistsExactlyWhen(v, days, c.now, Bonder(c), amount);
    if c.msg.Bond? {
      CoinsCoverTheFee(v.config, c.usdc, c.msg.amount);
    }
  }

  lemma NestedFloors(a: nat, u: nat)
    ensures a / THOUSAND / NORMAL_DECIMAL <= u <==> a < 1_000_000_000 * (u + 1)
  {
  }

  /** When an unbond is accepted: something is due, the contract holds it, and the coins cover the fee on
      what it is worth. */
  lemma {:induction false} UnbondsAreAcceptedExactlyWhen(v: Vault, c: Call)
    requires c.msg.Unbond? && c.price.Some?
    ensures var due, price := Total(Matured(v.Listed(c.sender), c.now)), c.price.value;
            var fees := v.config.txFee + v.config.platformFee;
            Exec(v, c).Ok? <==>
              && v.config.enabled && c.sender in v.bonding && c.delivered
              && 0 < due <= c.fury && Fits(due) && Fits(price * due)
              && fees <= U64_MAX && Fits(price * due * fees)
              && c.usdc != 0 && price * due * fees < 1_000_000_000 * (c.usdc + 1)
  {
    var due := Total(Matured(v.Listed(c.sender), c.now));
    NestedFloors(c.price.value * due * v.config.Fees(), c.usdc);
  }

  /** What is paid out is the sum of the due records' amounts. */
  lemma {:induction false} TotalIsTheSum(list: seq<Record>)
    ensures Total(list) == Sums.SeqSum(list, (r: Record) => r.amount)
  {
    if list != [] {
      TotalIsTheSum(list[..|list| - 1]);
    }
  }

  /** Only the owner takes tokens out, as many as the contract has, or names an owner; neither leaves a
      trace in the storage. */
  lemma WithdrawalsLeaveNoTrace(v: Vault, c: Call)
    requires c.msg.Withdraw? || c.msg.UpdateOwner?
    ensures Exec(v, c).Ok? <==>
              c.sender == v.config.owner && (c.msg.Withdraw? ==> c.msg.amount <= c.fury && c.delivered)
    ensures Exec(v, c).Ok? ==> Exec(v, c).value == v
  {
  }

  /** Only the owner configures; a configuration holds what the owner sent, and never touches the cap's
      history or a record. */
  lemma OnlyTheOwnerConfigures(v: Vault, c: Call)
    requires c.msg.UpdateEnabled? || c.msg.UpdateConfig?
    ensures Exec(v, c).Ok? <==> c.sender == v.config.owner
    ensures Exec(v, c).Ok? ==>
            var m, t := c.msg, Exec(v, c).value.config;
            && Exec(v, c).value.bonding == v.bonding
            && (m.UpdateEnabled? ==> t == v.config.(enabled := m.enabled))
            && (m.UpdateConfig? ==>
                  && (t.lockSeconds, t.discount, t.txFee) == (m.lockSeconds, m.discount, m.txFee)
                  && (t.platformFee, t.dailyVesting) == (m.platformFee, m.dailyVesting)
                  && (t.enabled, t.owner, t.pool) == (v.config.enabled, v.config.owner, v.config.pool)
                  && (t.cumulated, t.dailyCurrent) == (v.config.cumulated, v.config.dailyCurrent)
                  && (t.lastTimestamp, t.isNativeBonding) == (v.config.lastTimestamp, v.config.isNativeBonding))
  {
  }
}
