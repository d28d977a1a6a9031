/** Laws of the bonding contract over every run: three fields of the configuration stand for the
    whole day-by-day history, and every record ever bonded is either still listed or was paid
    once, not before its time. */
module BondingLaws {
  import opened Chain
  import opened BondingVault

  // What a run did.

  /** Calls in time order, none before `start` and none after `until`. */
  predicate InTimeOrder(start: nat, calls: seq<Call>, until: nat) {
    && start <= until
    && (forall i :: 0 <= i < |calls| ==> start <= calls[i].now <= until)
    && (forall i, j :: 0 <= i < j < |calls| ==> calls[i].now <= calls[j].now)
  }

  predicate KeepsDailyAmount(calls: seq<Call>, daily: nat) {
    forall i :: 0 <= i < |calls| && calls[i].msg.UpdateConfig? ==> calls[i].msg.dailyVesting == daily
  }

  /** The record a call adds: its amount after the discount, locked for the configured time. */
  function NewRecord(v: Vault, c: Call): Option<(Addr, Record)> {
    if Exec(v, c).Err? then None
    else if c.msg.Bond? then
      Some((c.sender, Record(Receiving(c.price.value, v.config.discount).value, c.now + v.config.lockSeconds)))
    else if c.msg.LpBond? then
      Some((c.msg.address, Record(Receiving(c.msg.amount, v.config.discount).value, c.now + v.config.lockSeconds)))
    else None
  }

  /** The records a call pays out to an address. */
  function PaidRecords(v: Vault, c: Call, a: Addr): seq<Record> {
    if Exec(v, c).Ok? && c.msg.Unbond? && c.sender == a then Matured(v.Listed(a), c.now) else []
  }

  // The daily cap.

  datatype Day = Day(index: nat, total: nat)

  /** The state after one call: an error leaves it as it was. */
  function After(v: Vault, c: Call): Vault {
    if Exec(v, c).Ok? then Exec(v, c).value else v
  }

  /** The active days of a run in order, the day of instantiation first, each with all it took. */
  function Days(v: Vault, calls: seq<Call>): (days: seq<Day>)
    ensures |days| > 0
  {
    if calls == [] then [Day(DayOf(v.config.lastTimestamp), v.config.dailyCurrent)] else
      var n := |calls| - 1;
      var days := Days(v, calls[..n]);
      match NewRecord(Run(v, calls[..n]), calls[n])
      case None => days
      case Some(r) => Booked(days, DayOf(calls[n].now), r.1.amount)
  }

  function Booked(days: seq<Day>, index: nat, amount: nat): (r: seq<Day>)
    requires |days| > 0
    ensures |r| > 0
  {
    var last := days[|days| - 1];
    if last.index == index then days[|days| - 1 := Day(index, last.total + amount)]
    else days + [Day(index, amount)]
  }

  /** What the bonds that a run accepted on one day add up to. */
  function BondedOn(v: Vault, calls: seq<Call>, index: nat): nat {
    if calls == [] then 0 else
      var n := |calls| - 1;
      BondedOn(v, calls[..n], index) +
      match NewRecord(Run(v, calls[..n]), calls[n])
      case None => 0
      case Some(r) => if DayOf(calls[n].now) == index then r.1.amount else 0
  }

  /** What the given days left unused of the daily amount. */
  function Carry(days: seq<Day>, daily: nat): nat {
    if days == [] then 0 else
      var last := days[|days| - 1];
      Carry(days[..|days| - 1], daily) + (if last.total <= daily then daily - last.total else 0)
  }

  predicate WithinCap(days: seq<Day>, daily: nat) {
    forall i :: 0 <= i < |days| ==> days[i].total <= daily + Carry(days[..i], daily)
  }

  predicate DaysAscend(days: seq<Day>) {
    forall i, j :: 0 <= i < j < |days| ==> days[i].index < days[j].index
  }

  ghost predicate Refines(cfg: Config, days: seq<Day>) {
    && |days| > 0
    && days[|days| - 1] == Day(DayOf(cfg.lastTimestamp), cfg.dailyCurrent)
    && cfg.cumulated == Carry(days[..|days| - 1], cfg.dailyVesting)
    && WithinCap(days, cfg.dailyVesting)
    && DaysAscend(days)
  }

  /** What an accepted message does, in terms of the record it adds. */
  lemma StepEffect(v: Vault, c: Call)
    requires Exec(v, c).Ok?
    ensures var v' := Exec(v, c).value;
            match NewRecord(v, c)
            case Some((a, r)) =>
              && CheckDailyVesting(v.config, c.now, r.amount).Ok?
              && v'.config == CheckDailyVesting(v.config, c.now, r.amount).value
              && v'.bonding == v.bonding[a := v.Listed(a) + [r]]
            case None =>
              && v'.config.cumulated == v.config.cumulated
              && v'.config.dailyCurrent == v.config.dailyCurrent
              && v'.config.lastTimestamp == v.config.lastTimestamp
              && (v'.config.dailyVesting == v.config.dailyVesting
                  || (c.msg.UpdateConfig? && v'.config.dailyVesting == c.msg.dailyVesting))
  {
  }

  lemma GrowToday(days: seq<Day>, daily: nat, amount: nat)
    requires |days| > 0 && WithinCap(days, daily)
    requires days[|days| - 1].total + amount <= daily + Carry(days[..|days| - 1], daily)
    ensures WithinCap(Booked(days, days[|days| - 1].index, amount), daily)
    ensures Booked(days, days[|days| - 1].index, amount)[..|days| - 1] == days[..|days| - 1]
  {
    var booked := Booked(days, days[|days| - 1].index, amount);
    forall i | 0 <= i < |booked| ensures booked[i].total <= daily + Carry(booked[..i], daily) {
      assert booked[..i] == days[..i];
    }
  }

  lemma OpenToday(days: seq<Day>, daily: nat, index: nat, amount: nat)
    requires |days| > 0 && WithinCap(days, daily) && days[|days| - 1].index != index
    requires amount <= daily + Carry(days, daily)
    ensures WithinCap(Booked(days, index, amount), daily)
    ensures Booked(days, index, amount)[..|days|] == days
  {
    var booked := Booked(days, index, amount);
    forall i | 0 <= i < |booked| ensures booked[i].total <= daily + Carry(booked[..i], daily) {
      assert booked[..i] == days[..i];
      if i == |days| {
        assert days[..i] == days;
      }
    }
  }

  lemma DaysGoForward(earlier: nat, later: nat)
    requires earlier <= later
    ensures DayOf(earlier) <= DayOf(later)
  {
  }

  lemma CheckRefines(cfg: Config, days: seq<Day>, now: nat, amount: nat)
    requires Refines(cfg, days) && cfg.lastTimestamp <= now
    requires CheckDailyVesting(cfg, now, amount).Ok?
    ensures Refines(CheckDailyVesting(cfg, now, amount).value, Booked(days, DayOf(now), amount))
  {
    DaysGoForward(cfg.lastTimestamp, now);
    if days[|days| - 1].index == DayOf(now) {
      GrowToday(days, cfg.dailyVesting, amount);
    } else {
      OpenToday(days, cfg.dailyVesting, DayOf(now), amount);
    }
  }

  /** The three fields of the cap are exactly what the full history of active days amounts to. */
  lemma {:induction false} CapRefinesHistory(v: Vault, calls: seq<Call>, until: nat)
    requires IsGenesis(v)
    requires InTimeOrder(v.config.lastTimestamp, calls, until)
    requires KeepsDailyAmount(calls, v.config.dailyVesting)
    ensures Refines(Run(v, calls).config, Days(v, calls))
    ensures Run(v, calls).config.dailyVesting == v.config.dailyVesting
    ensures Run(v, calls).config.lastTimestamp <= until
  {
    if calls == [] {
      CapAtTheStart(v);
    } else {
      CapRefinesHistory(v, calls[..|calls| - 1], calls[|calls| - 1].now);
      CapStep(v, calls);
    }
  }

  lemma {:induction false} OneMoreDay(v: Vault, calls: seq<Call>, c: Call)
    ensures Run(v, calls + [c]) == After(Run(v, calls), c)
    ensures Days(v, calls + [c]) == match NewRecord(Run(v, calls), c)
                                    case None => Days(v, calls)
                                    case Some(r) => Booked(Days(v, calls), DayOf(c.now), r.1.amount)
  {
    assert (calls + [c])[..|calls|] == calls;
  }

  lemma CapMoves(u: Vault, days: seq<Day>, c: Call)
    requires KeepsDailyAmount([c], u.config.dailyVesting)
    requires Refines(u.config, days) && u.config.lastTimestamp <= c.now
    ensures var t := After(u, c).config;
            && Refines(t, match NewRecord(u, c)
                          case None => days
                          case Some(r) => Booked(days, DayOf(c.now), r.1.amount))
            && t.dailyVesting == u.config.dailyVesting && t.lastTimestamp <= c.now
  {
    if Exec(u, c).Ok? {
      StepEffect(u, c);
      assert [c][0] == c;
      if NewRecord(u, c).Some? {
        CheckRefines(u.config, days, c.now, NewRecord(u, c).value.1.amount);
      }
    }
  }

  lemma {:induction false} CapStep(v: Vault, calls: seq<Call>)
    requires calls != [] && KeepsDailyAmount(calls[|calls| - 1..], v.config.dailyVesting)
    requires var n := |calls| - 1;
             && Refines(Run(v, calls[..n]).config, Days(v, calls[..n]))
             && Run(v, calls[..n]).config.dailyVesting == v.config.dailyVesting
             && Run(v, calls[..n]).config.lastTimestamp <= calls[n].now
    ensures Refines(Run(v, calls).config, Days(v, calls))
    ensures Run(v, calls).config.dailyVesting == v.config.dailyVesting
    ensures Run(v, calls).config.lastTimestamp <= calls[|calls| - 1].now
  {
    var n := |calls| - 1;
    assert calls[n..] == [calls[n]];
    CapMoves(Run(v, calls[..n]), Days(v, calls[..n]), calls[n]);
  }

  lemma CapAtTheStart(v: Vault)
    requires IsGenesis(v)
    ensures Refines(Run(v, []).config, Days(v, []))
  {
    assert Days(v, [])[..0] == [];
  }

  lemma {:induction false} CarryBound(days: seq<Day>, daily: nat)
    ensures Carry(days, daily) <= |days| * daily
  {
    if days != [] {
      CarryBound(days[..|days| - 1], daily);
    }
  }

  lemma DayBound(days: seq<Day>, daily: nat, n: nat)
    requires WithinCap(days, daily) && n < |days|
    ensures days[n].total <= (n + 1) * daily
  {
    CarryBound(days[..n], daily);
    assert (n + 1) * daily == n * daily + daily;
  }

  /** The n-th active day takes at most n daily amounts. */
  lemma NthDayIsBounded(v: Vault, calls: seq<Call>, until: nat, n: nat)
    requires IsGenesis(v)
    requires InTimeOrder(v.config.lastTimestamp, calls, until)
    requires KeepsDailyAmount(calls, v.config.dailyVesting)
    requires n < |Days(v, calls)|
    ensures Days(v, calls)[n].total <= (n + 1) * v.config.dailyVesting
  {
    CapRefinesHistory(v, calls, until);
    DayBound(Days(v, calls), v.config.dailyVesting, n);
  }

  predicate Lists(days: seq<Day>, index: nat) {
    exists i :: 0 <= i < |days| && days[i].index == index
  }

  /** `on(index)` is what each day of the history took, and 0 for every other day. */
  ghost predicate Complete(days: seq<Day>, on: nat -> nat) {
    && (forall i :: 0 <= i < |days| ==> days[i].total == on(days[i].index))
    && (forall d :: !Lists(days, d) ==> on(d) == 0)
  }

  lemma BookedComplete(days: seq<Day>, index: nat, amount: nat, on: nat -> nat, on': nat -> nat)
    requires |days| > 0 && days[|days| - 1].index <= index
    requires DaysAscend(days) && Complete(days, on)
    requires forall d :: on'(d) == on(d) + (if d == index then amount else 0)
    ensures Complete(Booked(days, index, amount), on')
  {
    var booked := Booked(days, index, amount);
    var n := |days| - 1;
    assert booked[|booked| - 1].index == index;
    forall d ensures Lists(days, d) ==> Lists(booked, d) {
      if i :| 0 <= i < |days| && days[i].index == d {
        assert booked[i].index == d;
      }
    }
    assert days[n].index != index ==> !Lists(days, index);
  }

  lemma BondedOnNext(v: Vault, calls: seq<Call>, d: nat)
    requires calls != []
    ensures var n := |calls| - 1;
            BondedOn(v, calls, d) == BondedOn(v, calls[..n], d) +
              match NewRecord(Run(v, calls[..n]), calls[n])
              case None => 0
              case Some(r) => if d == DayOf(calls[n].now) then r.1.amount else 0
  {
  }

  lemma HistoryStep(v: Vault, calls: seq<Call>, on: nat -> nat, on': nat -> nat)
    requires calls != []
    requires on == (d => BondedOn(v, calls[..|calls| - 1], d)) && on' == (d => BondedOn(v, calls, d))
    requires var days := Days(v, calls[..|calls| - 1]);
             DaysAscend(days) && days[|days| - 1].index <= DayOf(calls[|calls| - 1].now) && Complete(days, on)
    ensures Complete(Days(v, calls), on')
  {
    var n := |calls| - 1;
    var r := NewRecord(Run(v, calls[..n]), calls[n]);
    forall d ensures on'(d) == on(d) + if r.Some? && d == DayOf(calls[n].now) then r.value.1.amount else 0 {
      BondedOnNext(v, calls, d);
    }
    if r.Some? {
      BookedComplete(Days(v, calls[..n]), DayOf(calls[n].now), r.value.1.amount, on, on');
    }
  }

  /** The totals in the history are what was really bonded on those days, and nothing was bonded
      on any other day. */
  lemma {:induction false} HistoryIsComplete(v: Vault, calls: seq<Call>, until: nat)
    requires IsGenesis(v)
    requires InTimeOrder(v.config.lastTimestamp, calls, until)
    requires KeepsDailyAmount(calls, v.config.dailyVesting)
    ensures Complete(Days(v, calls), d => BondedOn(v, calls, d))
  {
    if calls != [] {
      var n := |calls| - 1;
      HistoryIsComplete(v, calls[..n], calls[n].now);
      CapRefinesHistory(v, calls[..n], calls[n].now);
      DaysGoForward(Run(v, calls[..n]).config.lastTimestamp, calls[n].now);
      HistoryStep(v, calls, d => BondedOn(v, calls[..n], d), d => BondedOn(v, calls, d));
    }
  }

  // Is the carry-over the unspent budget?

  /** All that the given days took, and what they took beyond the daily amount. */
  function Taken(days: seq<Day>): nat {
    if days == [] then 0 else Taken(days[..|days| - 1]) + days[|days| - 1].total
  }

  function Overspent(days: seq<Day>, daily: nat): nat {
    if days == [] then 0 else
      var last := days[|days| - 1];
      Overspent(days[..|days| - 1], daily) + (if last.total > daily then last.total - daily else 0)
  }

  /** The carry-over counts what days left, and never what they overspent. */
  lemma {:induction false} CarryAccount(days: seq<Day>, daily: nat)
    ensures Taken(days) + Carry(days, daily) == |days| * daily + Overspent(days, daily)
  {
    if days != [] {
      var n := |days| - 1;
      CarryAccount(days[..n], daily);
      assert |days| * daily == n * daily + daily;
    }
  }

  lemma {:induction false} NothingOverspent(days: seq<Day>, daily: nat)
    ensures Overspent(days, daily) == 0 <==> forall i :: 0 <= i < |days| ==> days[i].total <= daily
  {
    if days != [] {
      var n := |days| - 1;
      NothingOverspent(days[..n], daily);
      assert forall i :: 0 <= i < n ==> days[..n][i] == days[i];
    }
  }

  /** In every run the stored carry-over is the unspent budget of the earlier active days plus what
      they overspent; so it is the unspent budget exactly when none of them took more than the daily
      amount. */
  lemma CarryOverIsTheUnspentBudgetExactlyWhen(v: Vault, calls: seq<Call>, until: nat)
    requires IsGenesis(v)
    requires InTimeOrder(v.config.lastTimestamp, calls, until)
    requires KeepsDailyAmount(calls, v.config.dailyVesting)
    ensures var daily, days := v.config.dailyVesting, Days(v, calls);
            var earlier := days[..|days| - 1];
            var unspent := |earlier| * daily - Taken(earlier);
            && Run(v, calls).config.cumulated == unspent + Overspent(earlier, daily)
            && (Run(v, calls).config.cumulated == unspent
                <==> forall i :: 0 <= i < |earlier| ==> earlier[i].total <= daily)
  {
    var daily, days := v.config.dailyVesting, Days(v, calls);
    var earlier := days[..|days| - 1];
    CapRefinesHistory(v, calls, until);
    CarryAccount(earlier, daily);
    NothingOverspent(earlier, daily);
  }

  /** Bonds of twice the daily amount on the three days after the instantiation. */
  function Spree(v: Vault, a: Addr): seq<Call> {
    [SpreeBond(v, a, 1)] + [SpreeBond(v, a, 2)] + [SpreeBond(v, a, 3)]
  }

  function SpreeBond(v: Vault, a: Addr, day: nat): Call {
    Call((DayOf(v.config.lastTimestamp) + day) * SECONDS_PER_DAY, v.config.pool, 0, None, 0, true,
         LpBond(a, 2 * v.config.dailyVesting))
  }

  lemma {:induction false} SpreeDay(v: Vault, u: Vault, a: Addr, day: nat)
    requires 0 < v.config.dailyVesting <= U64_MAX && 1 <= day <= 3
    requires SpreeBond(v, a, day).now + v.config.lockSeconds <= U64_MAX
    requires v.config.enabled && !v.config.isNativeBonding && v.config.discount == 0
    requires u.config == v.config.(cumulated := u.config.cumulated, dailyCurrent := u.config.dailyCurrent,
                                   lastTimestamp := u.config.lastTimestamp)
    requires DayOf(u.config.lastTimestamp) == DayOf(v.config.lastTimestamp) + day - 1
    requires if day == 1 then u.config.cumulated == 0 && u.config.dailyCurrent == 0
             else u.config.cumulated == v.config.dailyVesting && u.config.dailyCurrent == 2 * v.config.dailyVesting
    ensures var c := SpreeBond(v, a, day);
            && Exec(u, c).Ok?
            && var t := Exec(u, c).value;
            && NewRecord(u, c) == Some((a, Record(2 * v.config.dailyVesting, c.now + v.config.lockSeconds)))
            && t.config == v.config.(cumulated := v.config.dailyVesting, dailyCurrent := 2 * v.config.dailyVesting,
                                     lastTimestamp := c.now)
            && DayOf(t.config.lastTimestamp) == DayOf(v.config.lastTimestamp) + day
  {
    var c := SpreeBond(v, a, day);
    assert DayOf(c.now) == DayOf(v.config.lastTimestamp) + day;
    assert Receiving(2 * v.config.dailyVesting, 0) == Ok(2 * v.config.dailyVesting);
  }

  lemma {:induction false} SpreeStep(v: Vault, calls: seq<Call>, a: Addr, day: nat)
    requires 0 < v.config.dailyVesting <= U64_MAX && 1 <= day <= 3
    requires SpreeBond(v, a, day).now + v.config.lockSeconds <= U64_MAX
    requires v.config.enabled && !v.config.isNativeBonding && v.config.discount == 0
    requires var u := Run(v, calls);
             && u.config == v.config.(cumulated := u.config.cumulated, dailyCurrent := u.config.dailyCurrent,
                                      lastTimestamp := u.config.lastTimestamp)
             && DayOf(u.config.lastTimestamp) == DayOf(v.config.lastTimestamp) + day - 1
             && if day == 1 then u.config.cumulated == 0 && u.config.dailyCurrent == 0
                else u.config.cumulated == v.config.dailyVesting && u.config.dailyCurrent == 2 * v.config.dailyVesting
    ensures var c, d := SpreeBond(v, a, day), DayOf(v.config.lastTimestamp) + day;
            && Run(v, calls + [c]).config
               == v.config.(cumulated := v.config.dailyVesting, dailyCurrent := 2 * v.config.dailyVesting,
                            lastTimestamp := c.now)
            && DayOf(c.now) == d
            && Days(v, calls + [c]) == Booked(Days(v, calls), d, 2 * v.config.dailyVesting)
  {
    SpreeDay(v, Run(v, calls), a, day);
    OneMoreDay(v, calls, SpreeBond(v, a, day));
  }

  lemma {:induction false} TwoSpreeDays(v: Vault, a: Addr)
    requires IsGenesis(v)
    requires 0 < v.config.dailyVesting <= U64_MAX
    requires SpreeBond(v, a, 3).now + v.config.lockSeconds <= U64_MAX
    requires v.config.enabled && !v.config.isNativeBonding && v.config.discount == 0
    ensures var daily, day := v.config.dailyVesting, DayOf(v.config.lastTimestamp);
            var calls := [SpreeBond(v, a, 1)] + [SpreeBond(v, a, 2)];
            && Days(v, calls) == [Day(day, 0), Day(day + 1, 2 * daily), Day(day + 2, 2 * daily)]
            && Run(v, calls).config == v.config.(cumulated := daily, dailyCurrent := 2 * daily,
                                                 lastTimestamp := SpreeBond(v, a, 2).now)
            && DayOf(SpreeBond(v, a, 2).now) == day + 2
  {
    var c1 := SpreeBond(v, a, 1);
    assert Run(v, []) == v && Days(v, []) == [Day(DayOf(v.config.lastTimestamp), 0)];
    SpreeStep(v, [], a, 1);
    assert [] + [c1] == [c1];
    SpreeStep(v, [c1], a, 2);
  }

  /** A run in which it is not: whenever the contract starts, three accepted bonds take six daily
      amounts in four active days, and the carry-over stays at one. */
  lemma {:induction false} CarryOverIsNotSpent(v: Vault, a: Addr)
    requires IsGenesis(v)
    requires 0 < v.config.dailyVesting <= U64_MAX
    requires SpreeBond(v, a, 3).now + v.config.lockSeconds <= U64_MAX
    requires v.config.enabled && !v.config.isNativeBonding && v.config.discount == 0
    ensures var daily, calls := v.config.dailyVesting, Spree(v, a);
            && |Days(v, calls)| == 4 && Taken(Days(v, calls)) == 6 * daily
            && Run(v, calls).config.cumulated == daily
  {
    var day, daily := DayOf(v.config.lastTimestamp), v.config.dailyVesting;
    TwoSpreeDays(v, a);
    SpreeStep(v, [SpreeBond(v, a, 1)] + [SpreeBond(v, a, 2)], a, 3);
    SpreeTakes(Days(v, Spree(v, a)), day, daily);
  }

  lemma TakenMore(days: seq<Day>, d: Day)
    ensures Taken(days + [d]) == Taken(days) + d.total
  {
    assert (days + [d])[..|days|] == days;
  }

  lemma SpreeTakes(days: seq<Day>, day: nat, daily: nat)
    requires days == [Day(day, 0), Day(day + 1, 2 * daily), Day(day + 2, 2 * daily), Day(day + 3, 2 * daily)]
    ensures Taken(days) == 6 * daily
  {
    TakenMore([], days[0]);
    TakenMore([days[0]], days[1]);
    TakenMore([days[0], days[1]], days[2]);
    TakenMore([days[0], days[1], days[2]], days[3]);
    assert [] + [days[0]] == [days[0]] && [days[0]] + [days[1]] == [days[0], days[1]];
    assert [days[0], days[1]] + [days[2]] == [days[0], days[1], days[2]];
    assert [days[0], days[1], days[2]] + [days[3]] == days;
  }

  // The records.

  /** All records a run ever added for an address, and all it ever paid, in order. */
  function Bonded(v: Vault, calls: seq<Call>, a: Addr): seq<Record> {
    if calls == [] then v.Listed(a) else
      var n := |calls| - 1;
      Bonded(v, calls[..n], a) + Added(Run(v, calls[..n]), calls[n], a)
  }

  function Paid(v: Vault, calls: seq<Call>, a: Addr): seq<Record> {
    if calls == [] then [] else
      var n := |calls| - 1;
      Paid(v, calls[..n], a) + PaidRecords(Run(v, calls[..n]), calls[n], a)
  }

  lemma {:induction false} MaturedAreDue(list: seq<Record>, now: nat)
    ensures forall r :: r in Matured(list, now) ==> r.timestamp <= now
    ensures forall r :: r in Retained(list, now) ==> r.timestamp > now
  {
    if list != [] {
      MaturedAreDue(list[..|list| - 1], now);
    }
  }

  /** The summing loop and the retention loop split a list exactly in two. */
  lemma {:induction false} LoopsPartition(list: seq<Record>, now: nat)
    ensures multiset(Matured(list, now)) + multiset(Retained(list, now)) == multiset(list)
  {
    if list != [] {
      var n := |list| - 1;
      LoopsPartition(list[..n], now);
      assert list[..n] + [list[n]] == list;
    }
  }

  lemma {:induction false} LoopsSplitTotal(list: seq<Record>, now: nat)
    ensures Total(Matured(list, now)) + Total(Retained(list, now)) == Total(list)
  {
    if list != [] {
      var n := |list| - 1;
      LoopsSplitTotal(list[..n], now);
      TotalAppend(Matured(list[..n], now), [list[n]]);
      TotalAppend(Retained(list[..n], now), [list[n]]);
    }
  }

  lemma {:induction false} TotalAppend(s: seq<Record>, t: seq<Record>)
    ensures Total(s + t) == Total(s) + Total(t)
  {
    if t == [] {
      assert s + t == s;
    } else {
      TotalAppend(s, t[..|t| - 1]);
      assert (s + t)[..|s + t| - 1] == s + t[..|t| - 1];
    }
  }

  /** The record a call adds to an address, as a list of none or one. */
  function Added(v: Vault, c: Call, a: Addr): seq<Record> {
    match NewRecord(v, c)
    case None => []
    case Some(r) => if r.0 == a then [r.1] else []
  }

  /** One message: what it pays and what it leaves is what was there and what it adds. */
  lemma StepConserves(v: Vault, c: Call, a: Addr)
    requires Exec(v, c).Ok?
    ensures multiset(PaidRecords(v, c, a)) + multiset(Exec(v, c).value.Listed(a))
            == multiset(v.Listed(a)) + multiset(Added(v, c, a))
  {
    StepLists(v, c, a);
    LoopsPartition(v.Listed(a), c.now);
  }

  /** One message either pays the due records of a list or appends to it. */
  lemma StepLists(v: Vault, c: Call, a: Addr)
    requires Exec(v, c).Ok?
    ensures if c.msg.Unbond? && c.sender == a then
              && PaidRecords(v, c, a) == Matured(v.Listed(a), c.now)
              && Exec(v, c).value.Listed(a) == Retained(v.Listed(a), c.now)
              && Added(v, c, a) == []
            else
              && PaidRecords(v, c, a) == []
              && Exec(v, c).value.Listed(a) == v.Listed(a) + Added(v, c, a)
  {
    StepEffect(v, c);
  }

  lemma StepConservesTotal(v: Vault, c: Call, a: Addr)
    requires Exec(v, c).Ok?
    ensures Total(PaidRecords(v, c, a)) + Total(Exec(v, c).value.Listed(a))
            == Total(v.Listed(a)) + Total(Added(v, c, a))
  {
    StepLists(v, c, a);
    LoopsSplitTotal(v.Listed(a), c.now);
    TotalAppend(v.Listed(a), Added(v, c, a));
  }

  lemma Accumulate(bonded: seq<Record>, paid: seq<Record>, listed: seq<Record>,
                   added: seq<Record>, paidNow: seq<Record>, listed': seq<Record>)
    requires multiset(bonded) == multiset(paid) + multiset(listed)
    requires multiset(paidNow) + multiset(listed') == multiset(listed) + multiset(added)
    ensures multiset(bonded + added) == multiset(paid + paidNow) + multiset(listed')
  {
    var before, now := multiset(listed) + multiset(added), multiset(paidNow) + multiset(listed');
    assert multiset(bonded + added) == multiset(paid) + before;
    assert multiset(paid + paidNow) + multiset(listed') == multiset(paid) + now;
  }

  /** Every record ever bonded for an address is still listed or has been paid, and none twice. */
  lemma {:induction false} RecordsAreConserved(v: Vault, calls: seq<Call>, a: Addr)
    ensures multiset(Bonded(v, calls, a)) == multiset(Paid(v, calls, a)) + multiset(Run(v, calls).Listed(a))
  {
    if calls != [] {
      var n := |calls| - 1;
      RecordsAreConserved(v, calls[..n], a);
      var before, c := Run(v, calls[..n]), calls[n];
      if Exec(before, c).Ok? {
        StepConserves(before, c, a);
      }
      Accumulate(Bonded(v, calls[..n], a), Paid(v, calls[..n], a), before.Listed(a),
                 Added(before, c, a), PaidRecords(before, c, a), Run(v, calls).Listed(a));
    }
  }

  /** So the amounts bonded are the amounts paid and the amounts still listed. */
  lemma {:induction false} AmountsAreConserved(v: Vault, calls: seq<Call>, a: Addr)
    ensures Total(Bonded(v, calls, a)) == Total(Paid(v, calls, a)) + Total(Run(v, calls).Listed(a))
  {
    if calls != [] {
      var n := |calls| - 1;
      AmountsAreConserved(v, calls[..n], a);
      var before, c := Run(v, calls[..n]), calls[n];
      if Exec(before, c).Ok? {
        StepConservesTotal(before, c, a);
      }
      TotalAppend(Bonded(v, calls[..n], a), Added(before, c, a));
      TotalAppend(Paid(v, calls[..n], a), PaidRecords(before, c, a));
    }
  }

  /** What an accepted Unbond transfers is the total of the records it removes; each of them is
      due, and every record it keeps is not. */
  lemma UnbondPaysExactlyTheDue(v: Vault, c: Call)
    requires c.msg.Unbond? && Exec(v, c).Ok?
    ensures BondState(v.config, v.Listed(c.sender), c.price.value, c.now).value.0
            == Total(PaidRecords(v, c, c.sender)) > 0
    ensures forall r :: r in PaidRecords(v, c, c.sender) ==> r.timestamp <= c.now
    ensures forall r :: r in Exec(v, c).value.Listed(c.sender) ==> r.timestamp > c.now
    ensures forall a :: a != c.sender ==> Exec(v, c).value.Listed(a) == v.Listed(a)
  {
    MaturedAreDue(v.Listed(c.sender), c.now);
  }
}
