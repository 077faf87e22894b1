/** The recurring-payment scheduler: which active rules fall due on a given
    day, and one pass over them that executes each due rule at most once per
    day. */
module Scheduler {
  import opened Common
  import opened Calendar
  import opened Store

  datatype Frecuencia = Diario | Semanal | Mensual | Bimestral | Trimestral | Semestral | Anual

  /** The switch over the stored `frecuencia` text; any other text is not a
      frequency. */
  function ParseFrecuencia(s: string): (f: Option<Frecuencia>)
    ensures f.None? <==> s !in {"DIARIO", "SEMANAL", "MENSUAL", "BIMESTRAL", "TRIMESTRAL", "SEMESTRAL", "ANUAL"}
    ensures f == Some(Diario) <==> s == "DIARIO"
    ensures f == Some(Semanal) <==> s == "SEMANAL"
    ensures f == Some(Mensual) <==> s == "MENSUAL"
    ensures f == Some(Bimestral) <==> s == "BIMESTRAL"
    ensures f == Some(Trimestral) <==> s == "TRIMESTRAL"
    ensures f == Some(Semestral) <==> s == "SEMESTRAL"
    ensures f == Some(Anual) <==> s == "ANUAL"
  {
    if s == "DIARIO" then Some(Diario)
    else if s == "SEMANAL" then Some(Semanal)
    else if s == "MENSUAL" then Some(Mensual)
    else if s == "BIMESTRAL" then Some(Bimestral)
    else if s == "TRIMESTRAL" then Some(Trimestral)
    else if s == "SEMESTRAL" then Some(Semestral)
    else if s == "ANUAL" then Some(Anual)
    else None
  }

  /** Months between two due dates of a monthly-family rule. */
  function MesesPaso(f: Frecuencia): (step: int)
    ensures step in {1, 2, 3, 6, 12} && 12 % step == 0
    ensures f == Mensual <==> step == 1 && f != Diario && f != Semanal
    ensures step == 1 <==> f in {Diario, Semanal, Mensual}
    ensures f == Bimestral <==> step == 2
    ensures f == Trimestral <==> step == 3
    ensures f == Semestral <==> step == 6
    ensures f == Anual <==> step == 12
  {
    match f
    case Mensual => 1
    case Bimestral => 2
    case Trimestral => 3
    case Semestral => 6
    case Anual => 12
    case _ => 1
  }

  /** How many times a year a rule of the monthly family falls due, by the
      meaning of the frequency's name. */
  function TimesPerYear(f: Frecuencia): nat
  {
    match f
    case Mensual => 12
    case Bimestral => 6
    case Trimestral => 4
    case Semestral => 2
    case Anual => 1
    case _ => 0
  }

  /** The step in months divides the year into as many periods as the
      frequency's name promises. */
  lemma MesesPasoSplitsYear(f: Frecuencia)
    requires f !in {Diario, Semanal}
    ensures MesesPaso(f) * TimesPerYear(f) == 12
  {
  }

  /** The due day `dia` clamped to the last day of the month. */
  function AjustarDiaMes(year: int, month: int, dia: int): (d: int)
    requires 1 <= month <= 12
    ensures d <= dia && d <= DaysInMonth(year, month)
    ensures d == dia || d == DaysInMonth(year, month)
    ensures dia >= 1 ==> 1 <= d
  {
    var ultimo := DaysInMonth(year, month);
    if dia < ultimo then dia else ultimo
  }

  /** Compares year, month and day only. */
  function SameDate(a: Date, b: Date): (same: bool)
    ensures same <==> a == b
  {
    a.year == b.year && a.month == b.month && a.day == b.day
  }

  /** JavaScript `v || 1` on a NULL-able day number: NULL and 0 give 1. */
  function OrOne(v: Option<nat>): (d: nat)
    ensures d >= 1
    ensures v.Some? && v.value != 0 ==> d == v.value
    ensures v.None? || v.value == 0 ==> d == 1
  {
    if v.Some? && v.value != 0 then v.value else 1
  }

  /** Whether `fecha` lies between midnight of `fechaInicio` and 23:59:59 of
      `fechaFin` (no upper bound without `fechaFin`). */
  function EstaEnVentana(r: Rule, fecha: Moment): (ok: bool)
    requires 0 <= fecha.second < SecondsPerDay
    ensures ok <==> DateLe(r.fechaInicio, fecha.date) && (r.fechaFin.None? || DateLe(fecha.date, r.fechaFin.value))
  {
    DayBounds(fecha, r.fechaInicio);
    if MomentLt(fecha, StartOfDay(r.fechaInicio)) then false
    else if r.fechaFin.Some? then
      DayBounds(fecha, r.fechaFin.value);
      !MomentLt(EndOfDay(r.fechaFin.value), fecha)
    else true
  }

  /** Closed form of the monthly-family walk: `hoy`'s month is a whole number
      of steps after the month of `start`, and `hoy` is the clamped due day. */
  predicate MonthlyDue(start: Date, step: int, dia: int, hoy: Date)
    requires step >= 1
  {
    var offset := MonthIndex(hoy) - MonthIndex(start);
    && 1 <= hoy.month <= 12
    && offset >= 0
    && offset % step == 0
    && hoy.day == AjustarDiaMes(hoy.year, hoy.month, dia)
  }

  /** Whether rule `r` falls due on the day of `hoy`. */
  predicate DueToday(r: Rule, hoy: Moment)
  {
    match ParseFrecuencia(r.frecuencia)
    case None => false
    case Some(Diario) => true
    case Some(Semanal) => IsoWeekday(hoy.date) == OrOne(r.diaSemana)
    case Some(f) => MonthlyDue(r.fechaInicio, MesesPaso(f), OrOne(r.diaVencimiento), hoy.date)
  }

  /** Within one step after a multiple of the step, only the step's ends are
      multiples of it. */
  lemma {:induction false} ModAfterStep(a: int, step: int, d: int)
    requires step in {1, 2, 3, 6, 12} && a % step == 0 && 0 <= d <= step
    ensures (a + d) % step == 0 <==> d == 0 || d == step
  {
    if step == 1 {
    } else if step == 2 {
    } else if step == 3 {
    } else if step == 6 {
    } else {
    }
  }

  /** One step of the monthly walk that did not match keeps "no due date
      before the candidate month" true for the next candidate. */
  lemma {:induction false} WalkAdvance(base: Date, step: int, dia: int, cand: Date, hoy: Date)
    requires step in {1, 2, 3, 6, 12} && 1 <= cand.month <= 12 && 1 <= hoy.month <= 12
    requires MonthIndex(cand) >= MonthIndex(base) && (MonthIndex(cand) - MonthIndex(base)) % step == 0
    requires MonthIndex(hoy) < MonthIndex(cand) ==> !MonthlyDue(base, step, dia, hoy)
    requires MonthIndex(cand) <= MonthIndex(hoy)
    requires Date(cand.year, cand.month, AjustarDiaMes(cand.year, cand.month, dia)) != hoy
    ensures (MonthIndex(AddMonths(cand, step)) - MonthIndex(base)) % step == 0
    ensures MonthIndex(hoy) < MonthIndex(AddMonths(cand, step)) ==> !MonthlyDue(base, step, dia, hoy)
  {
    var offset := MonthIndex(cand) - MonthIndex(base);
    var gap := MonthIndex(hoy) - MonthIndex(cand);
    ModAfterStep(offset, step, step);
    if gap == 0 {
      assert cand.year == hoy.year && cand.month == hoy.month;
    } else if gap < step {
      ModAfterStep(offset, step, gap);
    }
  }

  /** A candidate whose clamped due date is `hoy` witnesses the closed form. */
  lemma {:induction false} WalkHit(base: Date, step: int, dia: int, cand: Date, hoy: Date)
    requires step in {1, 2, 3, 6, 12} && 1 <= cand.month <= 12
    requires MonthIndex(cand) >= MonthIndex(base) && (MonthIndex(cand) - MonthIndex(base)) % step == 0
    requires Date(cand.year, cand.month, AjustarDiaMes(cand.year, cand.month, dia)) == hoy
    ensures MonthlyDue(base, step, dia, hoy)
  {
  }

  /** The frequency matcher. The monthly family walks forward from the first
      of `fechaInicio`'s month in steps of `MesesPaso` months, while the
      candidate's midnight is not after `hoy`, and matches when the clamped
      due day of the candidate month is `hoy`'s day. */
  method CorrespondeHoy(r: Rule, hoy: Moment) returns (b: bool)
    requires ValidMoment(hoy) && ValidDate(r.fechaInicio)
    ensures b == DueToday(r, hoy)
  {
    var frecuencia := ParseFrecuencia(r.frecuencia);
    match frecuencia {
      case None =>
        return false;
      case Some(Diario) =>
        return true;
      case Some(Semanal) =>
        var jsDay := JsDay(hoy.date);
        var sqlDay := if jsDay == 0 then 7 else jsDay;
        return sqlDay == OrOne(r.diaSemana);
      case Some(f) =>
        b := WalkMonths(r.fechaInicio, MesesPaso(f), OrOne(r.diaVencimiento), hoy);
    }
  }

  /** The monthly family's loop: from the first of `base`'s month, every
      `step` months while the candidate's midnight is not after `hoy`, test
      the due day clamped to the candidate month against `hoy`'s day. */
  method WalkMonths(base: Date, step: int, dia: int, hoy: Moment) returns (b: bool)
    requires ValidMoment(hoy) && ValidDate(base) && step in {1, 2, 3, 6, 12}
    ensures b == MonthlyDue(base, step, dia, hoy.date)
  {
    var cand := Date(base.year, base.month, 1);
    FirstOfMonthLe(cand, hoy);
    while MomentLe(StartOfDay(cand), hoy)
      invariant cand.day == 1 && 1 <= cand.month <= 12
      invariant MonthIndex(cand) >= MonthIndex(base)
      invariant (MonthIndex(cand) - MonthIndex(base)) % step == 0
      invariant MonthIndex(hoy.date) < MonthIndex(cand) ==> !MonthlyDue(base, step, dia, hoy.date)
      invariant MomentLe(StartOfDay(cand), hoy) <==> MonthIndex(cand) <= MonthIndex(hoy.date)
      decreases MonthIndex(hoy.date) - MonthIndex(cand)
    {
      var ejec := Date(cand.year, cand.month, AjustarDiaMes(cand.year, cand.month, dia));
      if SameDate(ejec, hoy.date) {
        WalkHit(base, step, dia, cand, hoy.date);
        return true;
      }
      WalkAdvance(base, step, dia, cand, hoy.date);
      cand := AddMonths(cand, step);
      FirstOfMonthLe(cand, hoy);
    }
    return false;
  }

  /** `ISNULL(x, -1)` in the duplicate query. */
  function IsNullKey(o: Option<int>): (k: int)
    ensures o.Some? ==> k == o.value
    ensures o.None? ==> k == -1
  {
    if o.None? then -1 else o.value
  }

  /** Two references compare equal under `ISNULL(.., -1)` exactly when they
      are equal, or when one is NULL and the other the id -1. */
  lemma {:induction false} NullKeyEquality(a: Option<int>, b: Option<int>)
    ensures IsNullKey(a) == IsNullKey(b) <==> a == b || (a.None? && b == Some(-1)) || (a == Some(-1) && b.None?)
  {
  }

  /** Rules that the duplicate query cannot tell apart: same user, account,
      category and amount. The rule's own id is not part of the key. */
  predicate SameKey(a: Rule, b: Rule)
  {
    && a.usuarioId == b.usuarioId
    && IsNullKey(a.cuentaId) == IsNullKey(b.cuentaId)
    && IsNullKey(a.categoriaId) == IsNullKey(b.categoriaId)
    && a.monto == b.monto
  }

  /** A transaction the duplicate query reports for rule `r` on day `d`:
      same user, account and category up to `ISNULL(.., -1)`, same amount,
      `repetir = 1`, dated between 00:00:00 and 23:59:59 of `d`. */
  predicate DuplicateOf(t: Txn, r: Rule, d: Date)
  {
    && t.usuarioId == r.usuarioId
    && IsNullKey(t.cuentaId) == IsNullKey(r.cuentaId)
    && IsNullKey(t.categoriaId) == IsNullKey(r.categoriaId)
    && t.monto == r.monto
    && t.repetir
    && MomentLe(StartOfDay(d), t.fecha) && MomentLe(t.fecha, EndOfDay(d))
  }

  /** `SELECT TOP 1 1 FROM transacciones WHERE ...` returned a row. */
  predicate HasDuplicate(log: seq<Txn>, r: Rule, d: Date)
  {
    exists i :: 0 <= i < |log| && DuplicateOf(log[i], r, d)
  }

  /** The type recorded on a transaction generated by a recurring payment. */
  const RecurringTipo: string := "GASTO"

  /** The transaction `sp_pago_recurrente_execute_now` records for rule `r`
      executed at `now`, as far as the duplicate query sees it. */
  function Executed(r: Rule, now: Moment): (t: Txn)
    ensures t.repetir && t.fecha == now
  {
    Txn(r.usuarioId, r.cuentaId, r.categoriaId, RecurringTipo, r.monto, now, true, true)
  }

  /** `SELECT * FROM pagos_recurrentes WHERE activo = 1` */
  function ActiveRules(table: seq<Rule>): (rs: seq<Rule>)
    ensures forall r :: r in rs <==> r in table && r.activo
    ensures |rs| <= |table|
  {
    if table == [] then []
    else (if table[0].activo then [table[0]] else []) + ActiveRules(table[1..])
  }

  /** A rule the pass would execute, before the duplicate check. */
  predicate Eligible(r: Rule, now: Moment)
    requires ValidMoment(now)
    ensures Eligible(r, now) <==>
      DateLe(r.fechaInicio, now.date) && (r.fechaFin.None? || DateLe(now.date, r.fechaFin.value)) && DueToday(r, now)
    ensures Eligible(r, now) ==> ParseFrecuencia(r.frecuencia).Some?
  {
    EstaEnVentana(r, now) && DueToday(r, now)
  }

  /** The outcome of a pass: the transaction log afterwards, the ids of the
      rules executed (in order), and whether an exception cut the pass short. */
  datatype PassResult = PassResult(log: seq<Txn>, executed: seq<int>, aborted: bool)

  /** Which database calls of a pass throw, by rule id: the duplicate query
      for the rules in `query`, `sp_pago_recurrente_execute_now` for those in
      `exec`. */
  datatype Faults = Faults(query: set<int>, exec: set<int>)

  /** The pass over `rules` from a transaction log `log`, with the ids in
      `executed` already executed. A call that throws (as `faults` says)
      ends the pass: the single `try` is around the whole loop. */
  function PassFrom(rules: seq<Rule>, log: seq<Txn>, now: Moment, faults: Faults, executed: seq<int>): PassResult
    requires ValidMoment(now)
    decreases |rules|
  {
    if rules == [] then PassResult(log, executed, false)
    else
      var r := rules[0];
      if !Eligible(r, now) then
        PassFrom(rules[1..], log, now, faults, executed)
      else if r.id in faults.query then
        PassResult(log, executed, true)
      else if HasDuplicate(log, r, now.date) then
        PassFrom(rules[1..], log, now, faults, executed)
      else if r.id in faults.exec then
        PassResult(log, executed, true)
      else
        PassFrom(rules[1..], log + [Executed(r, now)], now, faults, executed + [r.id])
  }

  /** One step of the pass, unfolded once: the rule is skipped, throws, or
      is executed. */
  lemma PassStep(rules: seq<Rule>, log: seq<Txn>, now: Moment, faults: Faults, executed: seq<int>)
    requires ValidMoment(now) && rules != []
    ensures var r := rules[0];
      !Eligible(r, now) || (r.id !in faults.query && HasDuplicate(log, r, now.date)) ==>
        PassFrom(rules, log, now, faults, executed) == PassFrom(rules[1..], log, now, faults, executed)
    ensures var r := rules[0];
      Eligible(r, now) && (r.id in faults.query || (!HasDuplicate(log, r, now.date) && r.id in faults.exec)) ==>
        PassFrom(rules, log, now, faults, executed) == PassResult(log, executed, true)
    ensures var r := rules[0];
      Eligible(r, now) && r.id !in faults.query && !HasDuplicate(log, r, now.date) && r.id !in faults.exec ==>
        PassFrom(rules, log, now, faults, executed)
          == PassFrom(rules[1..], log + [Executed(r, now)], now, faults, executed + [r.id])
  {
  }

  /** The scheduler service: a timer handle, whether that timer still fires,
      and the database it queries. */
  class PagosRecurrentesScheduler {
    const db: Db
    var timer: Option<int>
    var ticking: bool

    ghost predicate Valid()
      reads this
    {
      ticking ==> timer.Some?
    }

    constructor (db: Db)
      ensures this.db == db && timer == None && !ticking && Valid()
    {
      this.db := db;
      timer := None;
      ticking := false;
    }

    /** One pass: fetch the active rules (a failed fetch ends the pass), then
        for each rule check the window, the frequency and the duplicate query,
        and execute it now. `fetchFails` and `faults` say which database calls
        throw; any of them ends the pass. */
    method Run(now: Moment, fetchFails: bool, faults: Faults) returns (executed: seq<int>)
      requires ValidMoment(now)
      requires forall i :: 0 <= i < |db.pagosRecurrentes| ==> ValidDate(db.pagosRecurrentes[i].fechaInicio)
      modifies db`transacciones
      ensures fetchFails ==> db.transacciones == old(db.transacciones) && executed == []
      ensures !fetchFails ==>
        var out := PassFrom(ActiveRules(db.pagosRecurrentes), old(db.transacciones), now, faults, []);
        db.transacciones == out.log && executed == out.executed
    {
      executed := [];
      if fetchFails {
        return;
      }
      var reglas := ActiveRules(db.pagosRecurrentes);
      var i := 0;
      var aborted := false;
      while i < |reglas| && !aborted
        invariant 0 <= i <= |reglas|
        invariant !aborted ==>
          PassFrom(reglas[i..], db.transacciones, now, faults, executed) == PassFrom(reglas, old(db.transacciones), now, faults, [])
        invariant aborted ==>
          PassResult(db.transacciones, executed, true) == PassFrom(reglas, old(db.transacciones), now, faults, [])
        decreases |reglas| - i, if aborted then 0 else 1
      {
        var r := reglas[i];
        assert reglas[i..][0] == r && reglas[i..][1..] == reglas[i + 1..];
        assert r in db.pagosRecurrentes;
        PassStep(reglas[i..], db.transacciones, now, faults, executed);
        if !EstaEnVentana(r, now) {
          i := i + 1;
        } else {
          var corresponde := CorrespondeHoy(r, now);
          if !corresponde {
            i := i + 1;
          } else if r.id in faults.query {
            aborted := true;
          } else if HasDuplicate(db.transacciones, r, now.date) {
            i := i + 1;
          } else if r.id in faults.exec {
            aborted := true;
          } else {
            db.transacciones := db.transacciones + [Executed(r, now)];
            executed := executed + [r.id];
            i := i + 1;
          }
        }
      }
    }

    /** Registers the 15-minute timer under `handle` and runs one pass
        immediately. */
    method OnModuleInit(handle: int, now: Moment, fetchFails: bool, faults: Faults)
      requires ValidMoment(now)
      requires forall i :: 0 <= i < |db.pagosRecurrentes| ==> ValidDate(db.pagosRecurrentes[i].fechaInicio)
      modifies this, db`transacciones
      ensures timer == Some(handle) && ticking && Valid()
      ensures fetchFails ==> db.transacciones == old(db.transacciones)
      ensures !fetchFails ==>
        db.transacciones == PassFrom(ActiveRules(db.pagosRecurrentes), old(db.transacciones), now, faults, []).log
    {
      timer := Some(handle);
      ticking := true;
      var _ := Run(now, fetchFails, faults);
    }

    /** Clears the timer if one was registered; the handle field is left as
        it was. */
    method OnModuleDestroy()
      requires Valid()
      modifies this`ticking
      ensures Valid() && !ticking && timer == old(timer)
    {
      if timer.Some? {
        ticking := false;
      }
    }
  }

  // ---------------------------------------------------------------------
  // Properties of the frequency matcher

  /** Whether a rule is eligible depends on the day of `now` only, not on the
      time within that day. */
  lemma {:induction false} EligibleByDay(r: Rule, a: Moment, b: Moment)
    requires ValidMoment(a) && ValidMoment(b) && a.date == b.date
    ensures Eligible(r, a) <==> Eligible(r, b)
  {
  }

  /** A monthly-family rule falls due on at most one day of any month. */
  lemma {:induction false} MonthlyOncePerMonth(start: Date, step: int, dia: int, a: Date, b: Date)
    requires step >= 1
    requires MonthlyDue(start, step, dia, a) && MonthlyDue(start, step, dia, b)
    requires a.year == b.year && a.month == b.month
    ensures a == b
  {
  }

  /** Two due dates of a monthly-family rule are whole periods apart: no due
      date falls strictly inside a period. */
  lemma {:induction false} MonthlyWholePeriods(start: Date, step: int, dia: int, a: Date, b: Date)
    requires step in {1, 2, 3, 6, 12}
    requires MonthlyDue(start, step, dia, a) && MonthlyDue(start, step, dia, b)
    requires MonthIndex(a) <= MonthIndex(b)
    ensures (MonthIndex(b) - MonthIndex(a)) % step == 0
  {
    ModDifference(MonthIndex(a) - MonthIndex(start), MonthIndex(b) - MonthIndex(start), step);
  }

  /** The difference of two multiples of a step is a multiple of it. */
  lemma {:induction false} ModDifference(x: int, y: int, step: int)
    requires step in {1, 2, 3, 6, 12} && x % step == 0 && y % step == 0
    ensures (y - x) % step == 0
  {
    if step == 2 {
      ModDifference2(x, y);
    } else if step == 3 {
      ModDifference3(x, y);
    } else if step == 6 {
      ModDifference6(x, y);
    } else if step == 12 {
      ModDifference12(x, y);
    }
  }

  // One instance per step, each with a literal modulus.
  lemma ModDifference2(x: int, y: int)
    requires x % 2 == 0 && y % 2 == 0
    ensures (y - x) % 2 == 0
  {
  }

  lemma ModDifference3(x: int, y: int)
    requires x % 3 == 0 && y % 3 == 0
    ensures (y - x) % 3 == 0
  {
  }

  lemma ModDifference6(x: int, y: int)
    requires x % 6 == 0 && y % 6 == 0
    ensures (y - x) % 6 == 0
  {
  }

  lemma ModDifference12(x: int, y: int)
    requires x % 12 == 0 && y % 12 == 0
    ensures (y - x) % 12 == 0
  {
  }

  /** In every month a whole number of periods after the start month, the
      rule falls due on the due day clamped to that month, which is a real
      day of it. */
  lemma {:induction false} MonthlyDueEachPeriod(start: Date, step: int, dia: int, y: int, m: int)
    requires step >= 1 && dia >= 1 && 1 <= m <= 12
    requires MonthIndex(Date(y, m, 1)) >= MonthIndex(start)
    requires (MonthIndex(Date(y, m, 1)) - MonthIndex(start)) % step == 0
    ensures ValidDate(Date(y, m, AjustarDiaMes(y, m, dia)))
    ensures MonthlyDue(start, step, dia, Date(y, m, AjustarDiaMes(y, m, dia)))
  {
  }

  function MonthlyRule(frecuencia: string, dia: nat, inicio: Date): Rule
  {
    Rule(1, 1, None, None, 100.0, frecuencia, Some(dia), None, inicio, None, true)
  }

  /** A MENSUAL rule due on day 31 from 2025-01-15 falls due on 2025-01-31 and
      on the last day of February (2025-02-28), and not on 2025-02-27. */
  lemma MonthlyEndOfMonthExample()
    ensures DueToday(MonthlyRule("MENSUAL", 31, Date(2025, 1, 15)), Moment(Date(2025, 2, 28), 0))
    ensures !DueToday(MonthlyRule("MENSUAL", 31, Date(2025, 1, 15)), Moment(Date(2025, 2, 27), 0))
    ensures DueToday(MonthlyRule("MENSUAL", 31, Date(2025, 1, 15)), Moment(Date(2025, 1, 31), 0))
    ensures DueToday(MonthlyRule("MENSUAL", 31, Date(2024, 1, 15)), Moment(Date(2024, 2, 29), 0))
  {
  }

  /** A BIMESTRAL rule from 2025-01-01 due on day 10 falls due in January and
      March, not in February. */
  lemma BimonthlyExample()
    ensures DueToday(MonthlyRule("BIMESTRAL", 10, Date(2025, 1, 1)), Moment(Date(2025, 3, 10), 0))
    ensures !DueToday(MonthlyRule("BIMESTRAL", 10, Date(2025, 1, 1)), Moment(Date(2025, 2, 10), 0))
    ensures DueToday(MonthlyRule("BIMESTRAL", 10, Date(2025, 1, 1)), Moment(Date(2025, 1, 10), 0))
  {
  }

  /** An unknown frequency never falls due, and a NULL weekday means Monday. */
  lemma FrequencyDefaultsExample()
    ensures !DueToday(MonthlyRule("QUINCENAL", 1, Date(2025, 1, 1)), Moment(Date(2025, 1, 1), 0))
    ensures DueToday(Rule(1, 1, None, None, 1.0, "SEMANAL", None, None, Date(2025, 1, 1), None, true), Moment(Date(2025, 10, 6), 0))
    ensures !DueToday(Rule(1, 1, None, None, 1.0, "SEMANAL", None, None, Date(2025, 1, 1), None, true), Moment(Date(2025, 10, 5), 0))
  {
    WeekdayExample();
  }

  // ---------------------------------------------------------------------
  // Properties of the pass

  /** The transaction recorded for a rule is found by the duplicate query for
      exactly the rules with the same key. */
  lemma {:induction false} ExecutedIsDuplicate(r: Rule, q: Rule, now: Moment)
    requires ValidMoment(now)
    ensures DuplicateOf(Executed(r, now), q, now.date) <==> SameKey(r, q)
  {
    DayBounds(now, now.date);
  }

  /** Rules with the same key have the same duplicates. */
  lemma {:induction false} DuplicateSameKey(log: seq<Txn>, r: Rule, q: Rule, d: Date)
    requires SameKey(r, q)
    ensures HasDuplicate(log, r, d) <==> HasDuplicate(log, q, d)
  {
    if HasDuplicate(log, r, d) {
      var i :| 0 <= i < |log| && DuplicateOf(log[i], r, d);
      assert DuplicateOf(log[i], q, d);
    }
    if HasDuplicate(log, q, d) {
      var i :| 0 <= i < |log| && DuplicateOf(log[i], q, d);
      assert DuplicateOf(log[i], r, d);
    }
  }

  /** Appending to the log never removes a duplicate. */
  lemma {:induction false} DuplicateKept(log: seq<Txn>, extra: seq<Txn>, r: Rule, d: Date)
    requires HasDuplicate(log, r, d)
    ensures HasDuplicate(log + extra, r, d)
  {
    var i :| 0 <= i < |log| && DuplicateOf(log[i], r, d);
    assert (log + extra)[i] == log[i];
  }

  /** `t` and `id` are the transaction and id of executing an eligible rule
      of `rules`. */
  predicate ExecutedFrom(rules: seq<Rule>, now: Moment, t: Txn, id: int)
    requires ValidMoment(now)
  {
    exists j :: 0 <= j < |rules| && Eligible(rules[j], now) && t == Executed(rules[j], now) && id == rules[j].id
  }

  lemma {:induction false} ExecutedFromTail(rules: seq<Rule>, now: Moment, t: Txn, id: int)
    requires ValidMoment(now) && rules != []
    requires ExecutedFrom(rules[1..], now, t, id)
    ensures ExecutedFrom(rules, now, t, id)
  {
    var j :| 0 <= j < |rules[1..]| && Eligible(rules[1..][j], now) && t == Executed(rules[1..][j], now) && id == rules[1..][j].id;
    assert rules[j + 1] == rules[1..][j];
  }

  /** The pass only appends to the log, one transaction per executed rule. */
  lemma {:induction false} PassGrows(rules: seq<Rule>, log: seq<Txn>, now: Moment, faults: Faults, executed: seq<int>)
    requires ValidMoment(now)
    ensures var out := PassFrom(rules, log, now, faults, executed);
      && |log| <= |out.log|
      && |out.executed| - |executed| == |out.log| - |log|
      && out.log[..|log|] == log
      && out.executed[..|executed|] == executed
    decreases |rules|
  {
    if rules != [] {
      var r := rules[0];
      var out := PassFrom(rules, log, now, faults, executed);
      if !Eligible(r, now) || (r.id !in faults.query && HasDuplicate(log, r, now.date)) {
        PassGrows(rules[1..], log, now, faults, executed);
      } else if r.id !in faults.query && r.id !in faults.exec {
        var log' := log + [Executed(r, now)];
        var executed' := executed + [r.id];
        PassGrows(rules[1..], log', now, faults, executed');
        assert out == PassFrom(rules[1..], log', now, faults, executed');
        assert out.log[..|log|] == out.log[..|log'|][..|log|];
        assert out.executed[..|executed|] == out.executed[..|executed'|][..|executed|];
      }
    }
  }

  /** The pass only appends to the log, one transaction per executed rule,
      each the transaction of an eligible rule of the pass. */
  lemma {:induction false} PassAppends(rules: seq<Rule>, log: seq<Txn>, now: Moment, faults: Faults, executed: seq<int>)
    requires ValidMoment(now)
    ensures var out := PassFrom(rules, log, now, faults, executed);
      && |log| <= |out.log|
      && |out.executed| - |executed| == |out.log| - |log|
      && out.log[..|log|] == log
      && out.executed[..|executed|] == executed
      && forall k :: |log| <= k < |out.log| ==> ExecutedFrom(rules, now, out.log[k], out.executed[k - |log| + |executed|])
    decreases |rules|
  {
    PassGrows(rules, log, now, faults, executed);
    if rules != [] {
      var r := rules[0];
      var out := PassFrom(rules, log, now, faults, executed);
      PassStep(rules, log, now, faults, executed);
      if !Eligible(r, now) || (r.id !in faults.query && HasDuplicate(log, r, now.date)) {
        PassAppends(rules[1..], log, now, faults, executed);
        forall k | |log| <= k < |out.log|
          ensures ExecutedFrom(rules, now, out.log[k], out.executed[k - |log| + |executed|])
        {
          ExecutedFromTail(rules, now, out.log[k], out.executed[k - |log| + |executed|]);
        }
      } else if r.id !in faults.query && r.id !in faults.exec {
        var log' := log + [Executed(r, now)];
        var executed' := executed + [r.id];
        PassAppends(rules[1..], log', now, faults, executed');
        assert out == PassFrom(rules[1..], log', now, faults, executed');
        forall k | |log| <= k < |out.log|
          ensures ExecutedFrom(rules, now, out.log[k], out.executed[k - |log| + |executed|])
        {
          if k == |log| {
            assert out.log[k] == out.log[..|log'|][k] == Executed(r, now);
            assert out.executed[|executed|] == out.executed[..|executed'|][|executed|] == r.id;
            assert Eligible(rules[0], now);
          } else {
            ExecutedFromTail(rules, now, out.log[k], out.executed[k - |log'| + |executed'|]);
          }
        }
      }
    }
  }

  /** A pass that finishes leaves every eligible rule of the pass with a
      duplicate in the log: it was executed, or already had one. */
  lemma {:induction false} PassCovers(rules: seq<Rule>, log: seq<Txn>, now: Moment, faults: Faults, executed: seq<int>)
    requires ValidMoment(now)
    ensures var out := PassFrom(rules, log, now, faults, executed);
      !out.aborted ==> forall r :: r in rules && Eligible(r, now) ==> HasDuplicate(out.log, r, now.date)
    decreases |rules|
  {
    if rules != [] {
      var r := rules[0];
      var out := PassFrom(rules, log, now, faults, executed);
      if !Eligible(r, now) || (r.id !in faults.query && HasDuplicate(log, r, now.date)) {
        PassCovers(rules[1..], log, now, faults, executed);
        if Eligible(r, now) {
          PassAppends(rules[1..], log, now, faults, executed);
          DuplicateKept(log, out.log[|log|..], r, now.date);
          assert log + out.log[|log|..] == out.log;
        }
      } else if r.id !in faults.query && r.id !in faults.exec {
        var log' := log + [Executed(r, now)];
        PassCovers(rules[1..], log', now, faults, executed + [r.id]);
        PassAppends(rules[1..], log', now, faults, executed + [r.id]);
        ExecutedIsDuplicate(r, r, now);
        assert DuplicateOf(log'[|log|], r, now.date);
        DuplicateKept(log', out.log[|log'|..], r, now.date);
        assert log' + out.log[|log'|..] == out.log;
      }
    }
  }

  /** Some eligible rule of `rules` has a duplicate query that throws. */
  predicate QueryThrows(rules: seq<Rule>, now: Moment, faults: Faults)
    requires ValidMoment(now)
  {
    exists r :: r in rules && Eligible(r, now) && r.id in faults.query
  }

  /** A pass over rules that all have a duplicate already changes nothing and
      executes nothing, whatever execution would throw; it ends early exactly
      when the duplicate query of an eligible rule throws. */
  lemma {:induction false} PassNoOpWhenCovered(rules: seq<Rule>, log: seq<Txn>, now: Moment, faults: Faults, executed: seq<int>)
    requires ValidMoment(now)
    requires forall r :: r in rules && Eligible(r, now) ==> HasDuplicate(log, r, now.date)
    ensures var out := PassFrom(rules, log, now, faults, executed);
      && out.log == log && out.executed == executed
      && (out.aborted <==> QueryThrows(rules, now, faults))
    decreases |rules|
  {
    if rules != [] {
      var r := rules[0];
      assert forall x :: x in rules <==> x == r || x in rules[1..];
      PassNoOpWhenCovered(rules[1..], log, now, faults, executed);
      if Eligible(r, now) && r.id in faults.query {
        assert QueryThrows(rules, now, faults);
      }
    }
  }

  /** Running the pass twice on the same day, at any time of that day, and
      whatever would throw the second time: provided the first pass finished,
      the second adds no transaction and executes nothing, and it ends early
      only when an eligible rule's duplicate query throws. */
  lemma {:induction false} SecondPassSameDayIsNoOp(rules: seq<Rule>, log: seq<Txn>, now1: Moment, now2: Moment, faults1: Faults, faults2: Faults)
    requires ValidMoment(now1) && ValidMoment(now2) && now1.date == now2.date
    ensures var out := PassFrom(rules, log, now1, faults1, []);
      var again := PassFrom(rules, out.log, now2, faults2, []);
      !out.aborted ==>
        && again.log == out.log && again.executed == []
        && (again.aborted <==> QueryThrows(rules, now2, faults2))
        && (faults2.query == {} ==> again == PassResult(out.log, [], false))
  {
    var out := PassFrom(rules, log, now1, faults1, []);
    if !out.aborted {
      PassCovers(rules, log, now1, faults1, []);
      forall r | r in rules && Eligible(r, now2)
        ensures HasDuplicate(out.log, r, now2.date)
      {
        EligibleByDay(r, now1, now2);
      }
      PassNoOpWhenCovered(rules, out.log, now2, faults2, []);
    }
  }

  /** The number of transactions in `log` the duplicate query reports for
      rule `r` on day `d`. */
  function CountDuplicates(log: seq<Txn>, r: Rule, d: Date): (n: nat)
    ensures n <= |log|
    ensures n == 0 <==> !HasDuplicate(log, r, d)
  {
    if log == [] then 0
    else
      var rest := CountDuplicates(log[..|log| - 1], r, d);
      assert forall i :: 0 <= i < |log| - 1 ==> log[..|log| - 1][i] == log[i];
      rest + (if DuplicateOf(log[|log| - 1], r, d) then 1 else 0)
  }

  /** For any duplicate key, one pass adds at most one transaction the
      duplicate query reports, and none if it reported one before the pass. */
  lemma {:induction false} PassAtMostOncePerKey(rules: seq<Rule>, log: seq<Txn>, now: Moment, faults: Faults, executed: seq<int>, q: Rule)
    requires ValidMoment(now)
    ensures var out := PassFrom(rules, log, now, faults, executed);
      var before := CountDuplicates(log, q, now.date);
      var after := CountDuplicates(out.log, q, now.date);
      after == before || (before == 0 && after == 1)
    decreases |rules|
  {
    if rules != [] {
      var r := rules[0];
      if !Eligible(r, now) || (r.id !in faults.query && HasDuplicate(log, r, now.date)) {
        PassAtMostOncePerKey(rules[1..], log, now, faults, executed, q);
      } else if r.id !in faults.query && r.id !in faults.exec {
        var log' := log + [Executed(r, now)];
        assert log'[..|log'| - 1] == log;
        ExecutedIsDuplicate(r, q, now);
        PassAtMostOncePerKey(rules[1..], log', now, faults, executed + [r.id], q);
        if SameKey(r, q) {
          DuplicateSameKey(log, r, q, now.date);
          DuplicateSameKey(log', r, q, now.date);
          ExecutedIsDuplicate(r, r, now);
          assert HasDuplicate(log', r, now.date) by {
            assert DuplicateOf(log'[|log|], r, now.date);
          }
        }
      }
    }
  }

  /** Two eligible rules with the same key (and different ids): the first
      one executed masks the second, which the same pass skips. */
  lemma {:induction false} SameKeyMasked(r1: Rule, r2: Rule, log: seq<Txn>, now: Moment, faults: Faults)
    requires ValidMoment(now)
    requires SameKey(r1, r2) && Eligible(r1, now) && Eligible(r2, now)
    requires !HasDuplicate(log, r1, now.date) && r1.id !in faults.query && r1.id !in faults.exec
    requires r2.id !in faults.query
    ensures PassFrom([r1, r2], log, now, faults, [])
      == PassResult(log + [Executed(r1, now)], [r1.id], false)
  {
    var log' := log + [Executed(r1, now)];
    ExecutedIsDuplicate(r1, r2, now);
    assert DuplicateOf(log'[|log|], r2, now.date);
    PassStep([r1, r2], log, now, faults, []);
    assert [r1, r2][1..] == [r2];
    PassStep([r2], log', now, faults, [r1.id]);
    assert [r2][1..] == [];
  }

  /** A pass over two lists is the pass over the first, then, unless an
      exception ended it, the pass over the second from where it left off. */
  lemma {:induction false} PassConcat(rules1: seq<Rule>, rules2: seq<Rule>, log: seq<Txn>, now: Moment, faults: Faults, executed: seq<int>)
    requires ValidMoment(now)
    ensures var first := PassFrom(rules1, log, now, faults, executed);
      PassFrom(rules1 + rules2, log, now, faults, executed)
        == if first.aborted then first else PassFrom(rules2, first.log, now, faults, first.executed)
    decreases |rules1|
  {
    if rules1 == [] {
      assert rules1 + rules2 == rules2;
    } else {
      assert (rules1 + rules2)[0] == rules1[0];
      assert (rules1 + rules2)[1..] == rules1[1..] + rules2;
      var r := rules1[0];
      if !Eligible(r, now) || (r.id !in faults.query && HasDuplicate(log, r, now.date)) {
        PassConcat(rules1[1..], rules2, log, now, faults, executed);
      } else if r.id !in faults.query && r.id !in faults.exec {
        PassConcat(rules1[1..], rules2, log + [Executed(r, now)], now, faults, executed + [r.id]);
      }
    }
  }

  /** An exception, from the duplicate query or from the stored procedure,
      aborts the rest of the pass: the rules after the one that failed are not
      executed, and the log is as the earlier rules left it. */
  lemma {:induction false} PassAbortSkipsRest(rules1: seq<Rule>, r: Rule, rules2: seq<Rule>, log: seq<Txn>, now: Moment, faults: Faults)
    requires ValidMoment(now)
    requires var first := PassFrom(rules1, log, now, faults, []);
      && !first.aborted && Eligible(r, now)
      && (r.id in faults.query || (!HasDuplicate(first.log, r, now.date) && r.id in faults.exec))
    ensures var first := PassFrom(rules1, log, now, faults, []);
      PassFrom(rules1 + [r] + rules2, log, now, faults, []) == PassResult(first.log, first.executed, true)
  {
    assert rules1 + [r] + rules2 == rules1 + ([r] + rules2);
    PassConcat(rules1, [r] + rules2, log, now, faults, []);
  }
}
