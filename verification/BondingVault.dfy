/** The fanfurybonding contract: bonds accepted under a daily cap with carry-over, kept as
    time-locked records, and paid out when their time has come. Times are in seconds. */
module BondingVault {
  import opened Chain

  const THOUSAND: nat := 1000
  const NORMAL_DECIMAL: nat := 1_000_000
  const SECONDS_PER_DAY: nat := 86400

  datatype Error =
    | Disabled
    | Unauthorized
    | NotAllowedBondingType
    | NativeInputZero
    | Cw20InputZero
    | InsufficientFee
    | InsufficientFury
    | MaxBondingExceed
    | NothingToUnbond
    | NoBonds
    | QueryFailed
    | Overflow
    | DivideByZero
    | SubmessageFailed

  datatype Record = Record(amount: nat, timestamp: nat)

  datatype Config = Config(
    owner: Addr,
    pool: Addr,
    isNativeBonding: bool,
    enabled: bool,
    lockSeconds: nat,
    discount: nat,
    txFee: nat,
    platformFee: nat,
    dailyVesting: nat,
    cumulated: nat,
    dailyCurrent: nat,
    lastTimestamp: nat)
  {
    function Fees(): nat { txFee + platformFee }
  }

  datatype Vault = Vault(config: Config, bonding: map<Addr, seq<Record>>) {
    function Listed(a: Addr): seq<Record> { Get(bonding, a, []) }
  }

  datatype Msg =
    | UpdateOwner(owner: Addr)
    | UpdateEnabled(enabled: bool)
    | UpdateConfig(lockSeconds: nat, discount: nat, txFee: nat, platformFee: nat, dailyVesting: nat)
    | Bond(amount: nat)
    | LpBond(address: Addr, amount: nat)
    | Unbond
    | Withdraw(amount: nat)

  /** A message with what the contract learns from outside while it handles it: the attached
      stable coins, the answer of the pool's price query, its own cw20 balance, and whether the
      transfers it orders succeed. */
  datatype Call = Call(now: nat, sender: Addr, usdc: nat, price: Option<nat>, fury: nat, delivered: bool, msg: Msg)

  type Outcome = Result<Vault, Error>

  function DayOf(timestamp: nat): nat { timestamp / SECONDS_PER_DAY }

  /** `amount * 1000 / (1000 - discount)` */
  function Receiving(amount: nat, discount: nat): Result<nat, Error> {
    if !Fits(amount * THOUSAND) || discount > THOUSAND then Err(Overflow) else
    :- Require(discount != THOUSAND, DivideByZero);
    Ok(Floor(amount * THOUSAND, THOUSAND - discount))
  }

  function CheckDailyVesting(cfg: Config, now: nat, amount: nat): Result<Config, Error> {
    var newDay := DayOf(now) != DayOf(cfg.lastTimestamp);
    var unused := if newDay && cfg.dailyCurrent <= cfg.dailyVesting then cfg.dailyVesting - cfg.dailyCurrent else 0;
    var current := if newDay then 0 else cfg.dailyCurrent;
    :- Require(Fits(current + amount) && Fits(cfg.dailyVesting + cfg.cumulated + unused), Overflow);
    :- Require(current + amount <= cfg.dailyVesting + cfg.cumulated + unused, MaxBondingExceed);
    Ok(cfg.(cumulated := cfg.cumulated + unused, dailyCurrent := current + amount, lastTimestamp := now))
  }

  /** Passing the cap and appending the record. */
  function Enlist(v: Vault, now: nat, address: Addr, receiving: nat): Outcome {
    var cfg :- CheckDailyVesting(v.config, now, receiving);
    :- Require(now + cfg.lockSeconds <= U64_MAX, Overflow);
    Ok(Vault(cfg, v.bonding[address := v.Listed(address) + [Record(receiving, now + cfg.lockSeconds)]]))
  }

  function BondFee(cfg: Config, amount: nat): Result<nat, Error> {
    if cfg.Fees() > U64_MAX || !Fits(amount * cfg.Fees()) then Err(Overflow) else
    Ok(amount * cfg.Fees() / THOUSAND)
  }

  function DoBond(v: Vault, c: Call): Outcome
    requires c.msg.Bond?
  {
    var cfg := v.config;
    :- Require(cfg.enabled, Disabled);
    :- Require(cfg.isNativeBonding, NotAllowedBondingType);
    :- Require(c.usdc != 0, NativeInputZero);
    var fee :- BondFee(cfg, c.msg.amount);
    :- Require(Fits(fee + c.msg.amount), Overflow);
    :- Require(c.usdc >= fee + c.msg.amount, InsufficientFee);
    :- Require(c.price.Some?, QueryFailed);
    var receiving :- Receiving(c.price.value, cfg.discount);
    var bonded :- Enlist(v, c.now, c.sender, receiving);
    :- Require(c.delivered, SubmessageFailed);
    Ok(bonded)
  }

  function DoLpBond(v: Vault, c: Call): Outcome
    requires c.msg.LpBond?
  {
    var cfg := v.config;
    :- Require(cfg.enabled, Disabled);
    :- Require(c.sender == cfg.pool, Unauthorized);
    :- Require(c.msg.amount != 0, Cw20InputZero);
    :- Require(!cfg.isNativeBonding, NotAllowedBondingType);
    var receiving :- Receiving(c.msg.amount, cfg.discount);
    Enlist(v, c.now, c.msg.address, receiving)
  }

  /** The records whose time has come, and those whose time has not. */
  function Matured(list: seq<Record>, now: nat): seq<Record> {
    if list == [] then [] else
      var rest := Matured(list[..|list| - 1], now);
      if list[|list| - 1].timestamp > now then rest else rest + [list[|list| - 1]]
  }

  function Retained(list: seq<Record>, now: nat): seq<Record> {
    if list == [] then [] else
      var rest := Retained(list[..|list| - 1], now);
      if list[|list| - 1].timestamp > now then rest + [list[|list| - 1]] else rest
  }

  function Total(list: seq<Record>): nat {
    if list == [] then 0 else Total(list[..|list| - 1]) + list[|list| - 1].amount
  }

  function UnbondFee(cfg: Config, price: nat, amount: nat): Result<nat, Error> {
    if amount == 0 then Ok(0) else
      :- Require(Fits(price * amount) && cfg.Fees() <= U64_MAX && Fits(price * amount * cfg.Fees()), Overflow);
      Ok(price * amount * cfg.Fees() / THOUSAND / NORMAL_DECIMAL)
  }

  /** Amount to pay and fee to ask for a list of records. */
  function BondState(cfg: Config, list: seq<Record>, price: nat, now: nat): Result<(nat, nat), Error> {
    var amount := Total(Matured(list, now));
    :- Require(Fits(amount), Overflow);
    var fee :- UnbondFee(cfg, price, amount);
    Ok((amount, fee))
  }

  function DoUnbond(v: Vault, c: Call): Outcome {
    var cfg := v.config;
    :- Require(cfg.enabled, Disabled);
    :- Require(c.sender in v.bonding, NoBonds);
    :- Require(c.price.Some?, QueryFailed);
    var list := v.bonding[c.sender];
    var state :- BondState(cfg, list, c.price.value, c.now);
    :- Require(state.0 != 0, NothingToUnbond);
    :- Require(c.usdc != 0, NativeInputZero);
    :- Require(c.usdc >= state.1, InsufficientFee);
    :- Require(c.fury >= state.0, InsufficientFury);
    :- Require(c.delivered, SubmessageFailed);
    Ok(v.(bonding := v.bonding[c.sender := Retained(list, c.now)]))
  }

  function Exec(v: Vault, c: Call): Outcome {
    match c.msg
    case UpdateOwner(_) => if c.sender != v.config.owner then Err(Disabled) else Ok(v)
    case UpdateEnabled(enabled) =>
      if c.sender != v.config.owner then Err(Disabled) else Ok(v.(config := v.config.(enabled := enabled)))
    case UpdateConfig(lock, discount, tx, platform, daily) =>
      if c.sender != v.config.owner then Err(Disabled) else
        Ok(v.(config := v.config.(lockSeconds := lock, discount := discount, txFee := tx,
                                  platformFee := platform, dailyVesting := daily)))
    case Bond(_) => DoBond(v, c)
    case LpBond(_, _) => DoLpBond(v, c)
    case Unbond => DoUnbond(v, c)
    case Withdraw(amount) =>
      if c.sender != v.config.owner then Err(Disabled)
      else if c.fury < amount then Err(InsufficientFury)
      else if !c.delivered then Err(SubmessageFailed)
      else Ok(v)
  }

  function Run(v: Vault, calls: seq<Call>): Vault {
    if calls == [] then v else
      var before := Run(v, calls[..|calls| - 1]);
      var r := Exec(before, calls[|calls| - 1]);
      if r.Ok? then r.value else before
  }

  /** Instantiation at a given time: nothing carried over, nothing bonded. */
  predicate IsGenesis(v: Vault) {
    v.config.cumulated == 0 && v.config.dailyCurrent == 0 && v.bonding == map[]
  }

  ghost predicate Commits(before: Vault, spec: Outcome, after: Vault, r: Result<(), Error>) {
    match spec
    case Ok(v) => r == Ok(()) && after == v
    case Err(e) => r == Err(e) && after == before
  }

  class BondingContract {
    var config: Config
    var bonding: map<Addr, seq<Record>>

    function View(): Vault
      reads this
    {
      Vault(config, bonding)
    }

    constructor (config: Config, now: nat)
      ensures IsGenesis(View()) && View().config.lastTimestamp == now
      ensures View().config.dailyVesting == config.dailyVesting && View().config.enabled
    {
      this.config := config.(enabled := true, cumulated := 0, dailyCurrent := 0, lastTimestamp := now);
      bonding := map[];
    }

    method ExecuteCheckDailyVesting(now: nat, amount: nat) returns (r: Result<(), Error>)
      modifies `config
      ensures match CheckDailyVesting(old(config), now, amount)
              case Ok(cfg) => r == Ok(()) && config == cfg
              case Err(e) => r == Err(e)
    {
      var cfg := config;
      if now / SECONDS_PER_DAY != cfg.lastTimestamp / SECONDS_PER_DAY {
        if cfg.dailyCurrent <= cfg.dailyVesting {
          if !Fits(cfg.cumulated + (cfg.dailyVesting - cfg.dailyCurrent)) {
            return Err(Overflow);
          }
          cfg := cfg.(cumulated := cfg.cumulated + (cfg.dailyVesting - cfg.dailyCurrent));
        }
        cfg := cfg.(dailyCurrent := 0);
      }
      if !Fits(cfg.dailyCurrent + amount) || !Fits(cfg.dailyVesting + cfg.cumulated) {
        return Err(Overflow);
      }
      if cfg.dailyCurrent + amount > cfg.dailyVesting + cfg.cumulated {
        return Err(MaxBondingExceed);
      }
      cfg := cfg.(lastTimestamp := now);
      cfg := cfg.(dailyCurrent := cfg.dailyCurrent + amount);
      config := cfg;
      return Ok(());
    }

    method AppendRecord(now: nat, address: Addr, receiving: nat) returns (r: Result<(), Error>)
      modifies this
      ensures match Enlist(old(View()), now, address, receiving)
              case Ok(v) => r == Ok(()) && View() == v
              case Err(e) => r == Err(e)
    {
      r := ExecuteCheckDailyVesting(now, receiving);
      if r.Err? {
        return;
      }
      var list := Get(bonding, address, []);
      if now + config.lockSeconds > U64_MAX {
        return Err(Overflow);
      }
      list := list + [Record(receiving, now + config.lockSeconds)];
      bonding := bonding[address := list];
      return Ok(());
    }

    method ExecuteBond(c: Call) returns (r: Result<(), Error>)
      requires c.msg.Bond?
      modifies this
      ensures match DoBond(old(View()), c)
              case Ok(v) => r == Ok(()) && View() == v
              case Err(e) => r == Err(e)
    {
      if !config.enabled { return Err(Disabled); }
      if !config.isNativeBonding { return Err(NotAllowedBondingType); }
      if c.usdc == 0 { return Err(NativeInputZero); }
      var fee :- BondFee(config, c.msg.amount);
      if !Fits(fee + c.msg.amount) { return Err(Overflow); }
      if c.usdc < fee + c.msg.amount { return Err(InsufficientFee); }
      if c.price.None? { return Err(QueryFailed); }
      var receiving :- Receiving(c.price.value, config.discount);
      r := AppendRecord(c.now, c.sender, receiving);
      if r.Ok? && !c.delivered { r := Err(SubmessageFailed); }
    }

    method ExecuteLpBond(c: Call) returns (r: Result<(), Error>)
      requires c.msg.LpBond?
      modifies this
      ensures match DoLpBond(old(View()), c)
              case Ok(v) => r == Ok(()) && View() == v
              case Err(e) => r == Err(e)
    {
      if !config.enabled { return Err(Disabled); }
      if c.sender != config.pool { return Err(Unauthorized); }
      if c.msg.amount == 0 { return Err(Cw20InputZero); }
      if config.isNativeBonding { return Err(NotAllowedBondingType); }
      var receiving :- Receiving(c.msg.amount, config.discount);
      r := AppendRecord(c.now, c.msg.address, receiving);
    }

    /** The summing loop: skips every record whose time has not come. */
    method GetBondState(list: seq<Record>, price: nat, now: nat) returns (r: Result<(nat, nat), Error>)
      ensures r == BondState(config, list, price, now)
    {
      var unbondAmount := 0;
      for i := 0 to |list|
        invariant unbondAmount == Total(Matured(list[..i], now))
      {
        assert list[..i + 1][..i] == list[..i];
        if list[i].timestamp > now {
          continue;
        }
        assert Matured(list[..i + 1], now)[..|Matured(list[..i], now)|] == Matured(list[..i], now);
        unbondAmount := unbondAmount + list[i].amount;
      }
      assert list[..|list|] == list;
      if !Fits(unbondAmount) {
        return Err(Overflow);
      }
      var fee := 0;
      if unbondAmount > 0 {
        fee :- UnbondFee(config, price, unbondAmount);
      }
      return Ok((unbondAmount, fee));
    }

    /** The retention loop: keeps every record whose time has not come. */
    method RetainList(list: seq<Record>, now: nat) returns (kept: seq<Record>)
      ensures kept == Retained(list, now)
    {
      kept := [];
      for i := 0 to |list|
        invariant kept == Retained(list[..i], now)
      {
        assert list[..i + 1][..i] == list[..i];
        if list[i].timestamp > now {
          kept := kept + [list[i]];
        }
      }
      assert list[..|list|] == list;
    }

    method ExecuteUnbond(c: Call) returns (r: Result<(), Error>)
      modifies this
      ensures match DoUnbond(old(View()), c)
              case Ok(v) => r == Ok(()) && View() == v
              case Err(e) => r == Err(e)
    {
      if !config.enabled { return Err(Disabled); }
      if c.sender !in bonding { return Err(NoBonds); }
      if c.price.None? { return Err(QueryFailed); }
      var list := bonding[c.sender];
      var state :- GetBondState(list, c.price.value, c.now);
      if state.0 == 0 { return Err(NothingToUnbond); }
      var kept := RetainList(list, c.now);
      bonding := bonding[c.sender := kept];
      if c.usdc == 0 { return Err(NativeInputZero); }
      if c.usdc < state.1 { return Err(InsufficientFee); }
      if c.fury < state.0 { return Err(InsufficientFury); }
      if !c.delivered { return Err(SubmessageFailed); }
      return Ok(());
    }

    method Dispatch(c: Call) returns (r: Result<(), Error>)
      modifies this
      ensures match Exec(old(View()), c)
              case Ok(v) => r == Ok(()) && View() == v
              case Err(e) => r == Err(e)
    {
      match c.msg {
        case UpdateOwner(_) =>
          return if c.sender != config.owner then Err(Disabled) else Ok(());
        case UpdateEnabled(enabled) =>
          if c.sender != config.owner { return Err(Disabled); }
          config := config.(enabled := enabled);
          return Ok(());
        case UpdateConfig(lock, discount, tx, platform, daily) =>
          if c.sender != config.owner { return Err(Disabled); }
          config := config.(lockSeconds := lock, discount := discount, txFee := tx, platformFee := platform);
          if config.dailyVesting != daily {
            config := config.(dailyVesting := daily);
          }
          return Ok(());
        case Bond(_) => r := ExecuteBond(c);
        case LpBond(_, _) => r := ExecuteLpBond(c);
        case Unbond => r := ExecuteUnbond(c);
        case Withdraw(amount) =>
          if c.sender != config.owner { return Err(Disabled); }
          if c.fury < amount { return Err(InsufficientFury); }
          if !c.delivered { return Err(SubmessageFailed); }
          return Ok(());
      }
    }

    method Execute(c: Call) returns (r: Result<(), Error>)
      modifies this
      ensures Commits(old(View()), Exec(old(View()), c), View(), r)
    {
      var before := View();
      r := Dispatch(c);
      if r.Err? {
        config, bonding := before.config, before.bonding;
      }
    }
  }
}
