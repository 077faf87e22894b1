# Personal-finance backend: recurring payments, transactions, accounts, categories, NFC devices

This project is a Dafny model of the core of a NestJS personal-finance
backend that runs on SQL Server. It covers the following parts.

- **The recurring-payment scheduler** (`PagosRecurrentesScheduler`):
  - which active rule of `pagos_recurrentes` is in its date window and due today: daily, weekly on an ISO weekday, or every 1, 2, 3, 6 or 12 months on a due day clamped to the month's last day;
  - the pass that executes each due rule unless the duplicate query finds a repeating transaction for it today;
  - the timer state set in `onModuleInit` and cleared in `onModuleDestroy`.
- **The transaction service**:
  - the local date-string parser and the date fallback;
  - the amount and same-account guards of `create` and `createTransfer`;
  - the twelve-parameter `update` builder for `sp_transaccion_update`;
  - the `|| default` arguments and the catch blocks.
- **The account service**:
  - the seven account types with default BANCARIA;
  - the duplicate active-name guard;
  - the `saldo_actual` formula;
  - the `update` SET-list builder;
  - the guards of `remove`;
  - `findByType`.
- **The category service**:
  - INGRESO/GASTO/AMBOS with default GASTO;
  - the duplicate-name guard, which also counts inactive rows;
  - the ownership check of `findOne`, which hides system categories;
  - the `findByType` filter, which includes AMBOS;
  - the `update` builder;
  - the `remove` guard;
  - seeding of the fifteen default categories.
- **The NFC device service** `registerOrGet`.

### Structure

The database is the class `Store.Db`. It holds one `seq` field per table, and one `nextId` counter stands in for the identity columns. Each service is a class holding the `Db` it queries. Its methods change the tables they write (`modifies`), and each is proved against specification functions on the table contents. Those functions carry the lemmas.

| Module | What it models |
|---|---|
| `Calendar` | Days and instants at one-second resolution, as the scheduler reads them from JavaScript `Date`s. |
| `Scheduler` | The frequency matcher, the duplicate check, the pass, and the timer. |
| `SqlParams` | The `updateFields`/`params`/`paramIndex` builder shared by the `update` methods, and the `UPDATE ... WHERE id` and `DELETE ... WHERE id` statements on a table of any row type. |
| `Transacciones` | The transaction service. |
| `Cuentas` | The account service. |
| `Categorias` | The category service. |
| `DispositivosNfc` | The NFC device service. |
| `Store` | The rows of the tables, the `Db` object, and the active-transaction count on an account or category reference. |
| `Common` | Errors, `Result`/`Option`, JavaScript `||` defaults, and the catch blocks. |

### Conventions

- **Months.** Months are numbered 1..12 throughout (JavaScript numbers them 0..11). The parsed `LocalDateTime.month0` keeps the source's 0-based month, because it is what the source hands to `new Date`.
- **Recorded transaction type.** The transaction that `sp_pago_recurrente_execute_now` records is assumed to carry the rule's user, account, category and amount, with `repetir = 1`, dated `now`, of type GASTO. The procedure's body is not part of this model.
- **Table order.** `SELECT TOP 1` without `ORDER BY` is taken as the first matching row in table order.

## Model

| member | source | states |
|---|---|---|
| Scheduler.ParseFrecuencia | src/pagos-recurrentes/pagos-recurrentes.scheduler.ts:84-114 | each of the seven names DIARIO, SEMANAL, MENSUAL, BIMESTRAL, TRIMESTRAL, SEMESTRAL, ANUAL is recognised as its own frequency and only that name gives it; any other text (the `default` branch) is no frequency |
| Scheduler.MesesPaso | src/pagos-recurrentes/pagos-recurrentes.scheduler.ts:117-126 | MENSUAL steps 1 month, BIMESTRAL 2, TRIMESTRAL 3, SEMESTRAL 6 and ANUAL 12; DIARIO and SEMANAL fall to the default 1; every step divides 12 |
| Scheduler.MesesPasoSplitsYear | src/pagos-recurrentes/pagos-recurrentes.scheduler.ts:117-126 | for the monthly family, the step times the number of due months a year the name promises (12, 6, 4, 2, 1) is twelve |
| Scheduler.AjustarDiaMes | src/pagos-recurrentes/pagos-recurrentes.scheduler.ts:128-132 | the result is the due day or the month's last day, whichever is smaller, and at least 1 for a positive due day |
| Scheduler.SameDate | src/pagos-recurrentes/pagos-recurrentes.scheduler.ts:134-136 | comparing year, month and day is equality of days |
| Scheduler.OrOne | src/pagos-recurrentes/pagos-recurrentes.scheduler.ts:92-100 | `dia_semana \|\| 1` and `dia_vencimiento \|\| 1`: NULL and 0 give 1, any other value is kept |
| Scheduler.EstaEnVentana | src/pagos-recurrentes/pagos-recurrentes.scheduler.ts:75-81 | the time-of-day comparison against midnight of `fecha_inicio` and 23:59:59 of `fecha_fin` holds iff the day lies between the two days, with no upper bound without `fecha_fin` |
| Scheduler.MonthlyDue | src/pagos-recurrentes/pagos-recurrentes.scheduler.ts:99-110 | the closed form of the monthly walk: today's month is a whole number of steps after the start month and today is the clamped due day; `WalkMonths` is proved equal to it, and `MonthlyOncePerMonth`, `MonthlyWholePeriods` and `MonthlyDueEachPeriod` state its properties |
| Scheduler.DueToday | src/pagos-recurrentes/pagos-recurrentes.scheduler.ts:83-115 | whether a rule falls due today, frequency by frequency; `CorrespondeHoy` is proved equal to it, and `FrequencyDefaultsExample`, `BimonthlyExample` and `MonthlyEndOfMonthExample` pin its cases |
| Scheduler.CorrespondeHoy | src/pagos-recurrentes/pagos-recurrentes.scheduler.ts:83-115 | the loop-based matcher (the monthly walk from the first of the start month in steps of `mesesPaso`) agrees with the closed form `DueToday`: daily always; weekly iff the ISO weekday is `dia_semana \|\| 1`; monthly family iff today's month is a whole number of steps after the start month and today is the clamped due day; unknown text never |
| Scheduler.WalkMonths | src/pagos-recurrentes/pagos-recurrentes.scheduler.ts:99-110 | the `while (cand <= hoy)` walk returns true iff today's month is a whole number of steps after the start month and today is the due day clamped to that month |
| Scheduler.IsNullKey | src/pagos-recurrentes/pagos-recurrentes.scheduler.ts:47-48 | `ISNULL(x, -1)`: NULL becomes -1 and an id is kept as it is |
| Scheduler.NullKeyEquality | src/pagos-recurrentes/pagos-recurrentes.scheduler.ts:47-48 | two references compare equal under `ISNULL(.., -1)` iff they are equal, or one is NULL and the other the id -1 |
| Scheduler.DuplicateOf | src/pagos-recurrentes/pagos-recurrentes.scheduler.ts:44-59 | the WHERE of the duplicate query; `ExecutedIsDuplicate` proves it matches the executed transaction exactly for the rules with the same key |
| Scheduler.HasDuplicate | src/pagos-recurrentes/pagos-recurrentes.scheduler.ts:43-61 | the duplicate query returns a row; `DuplicateSameKey`, `DuplicateKept` and `CountDuplicates` state its properties |
| Scheduler.Executed | src/pagos-recurrentes/pagos-recurrentes.scheduler.ts:64-67 | the executed transaction is a repeating one dated at the time of the pass |
| Scheduler.ActiveRules | src/pagos-recurrentes/pagos-recurrentes.scheduler.ts:35-37 | the fetched rules are exactly the active rows |
| Scheduler.PassFrom | src/pagos-recurrentes/pagos-recurrentes.scheduler.ts:29-72 | the pass as a function of the rules, the log and the faults: window and frequency first, then the duplicate query, then execution, with any throwing call ending the pass; `PassCovers`, `PassConcat`, `PassAbortSkipsRest` and `PassAtMostOncePerKey` state what it does |
| Scheduler.PagosRecurrentesScheduler.constructor | src/pagos-recurrentes/pagos-recurrentes.scheduler.ts:10-15 | the scheduler starts with no timer |
| Scheduler.PagosRecurrentesScheduler.Run | src/pagos-recurrentes/pagos-recurrentes.scheduler.ts:28-73 | the loop leaves the transaction table and the executed ids exactly as the pass specification `PassFrom` over the active rules says, including a duplicate query or execution that throws and ends the pass; a failed fetch changes nothing |
| Scheduler.PagosRecurrentesScheduler.OnModuleInit | src/pagos-recurrentes/pagos-recurrentes.scheduler.ts:17-22 | the timer is registered and running, and one pass has run |
| Scheduler.PagosRecurrentesScheduler.OnModuleDestroy | src/pagos-recurrentes/pagos-recurrentes.scheduler.ts:24-26 | the timer stops firing; the handle field is not reset |
| Scheduler.Eligible | src/pagos-recurrentes/pagos-recurrentes.scheduler.ts:40-41 | a rule gets past the two `continue`s iff the day lies in its `[fecha_inicio, fecha_fin]` window and its frequency is due that day; only a known frequency is ever eligible |
| Scheduler.EligibleByDay | src/pagos-recurrentes/pagos-recurrentes.scheduler.ts:30-41 | whether a rule passes the window and frequency checks depends only on the day, not the time of day of the pass |
| Scheduler.MonthlyOncePerMonth | src/pagos-recurrentes/pagos-recurrentes.scheduler.ts:104-110 | a monthly-family rule is due on at most one day of any month |
| Scheduler.MonthlyWholePeriods | src/pagos-recurrentes/pagos-recurrentes.scheduler.ts:104-110 | two due dates of a monthly-family rule are a whole number of periods apart |
| Scheduler.MonthlyDueEachPeriod | src/pagos-recurrentes/pagos-recurrentes.scheduler.ts:104-110 | in every month a whole number of periods after the start, the rule is due on the clamped due day, which is a real day of that month |
| Scheduler.MonthlyEndOfMonthExample | src/pagos-recurrentes/pagos-recurrentes.scheduler.ts:128-132 | a MENSUAL rule on day 31 falls due on 31 January, on 28 February 2025 and on 29 February 2024, and not on 27 February |
| Scheduler.BimonthlyExample | src/pagos-recurrentes/pagos-recurrentes.scheduler.ts:117-126 | a BIMESTRAL rule from January is due in January and March, not February |
| Scheduler.FrequencyDefaultsExample | src/pagos-recurrentes/pagos-recurrentes.scheduler.ts:88-113 | an unknown frequency is never due; a SEMANAL rule with NULL weekday is due on Mondays only |
| Scheduler.ExecutedIsDuplicate | src/pagos-recurrentes/pagos-recurrentes.scheduler.ts:43-61 | the duplicate query finds the transaction executed for a rule exactly for the rules with the same user, account, category and amount (up to `ISNULL(.., -1)`) |
| Scheduler.DuplicateSameKey | src/pagos-recurrentes/pagos-recurrentes.scheduler.ts:44-51 | rules with the same key have the same duplicates |
| Scheduler.DuplicateKept | src/pagos-recurrentes/pagos-recurrentes.scheduler.ts:44-61 | appending transactions never hides a duplicate |
| Scheduler.PassAppends | src/pagos-recurrentes/pagos-recurrentes.scheduler.ts:39-69 | the pass only appends, one transaction per executed id, each the transaction of an eligible rule of the pass |
| Scheduler.PassGrows | src/pagos-recurrentes/pagos-recurrentes.scheduler.ts:39-69 | the pass keeps the existing log and executed ids as prefixes and adds as many transactions as executed ids |
| Scheduler.PassCovers | src/pagos-recurrentes/pagos-recurrentes.scheduler.ts:39-69 | a pass that finishes leaves a duplicate in the log for every eligible rule. This rests on the assumption stated for `Scheduler.Executed` under "## Left out": `sp_pago_recurrente_execute_now` records a `repetir = 1` row with the rule's key, dated now, which the duplicate query then sees. |
| Scheduler.PassNoOpWhenCovered | src/pagos-recurrentes/pagos-recurrentes.scheduler.ts:43-61 | when every eligible rule already has a duplicate, the pass adds nothing and executes nothing; it ends early exactly when an eligible rule's duplicate query throws |
| Scheduler.SecondPassSameDayIsNoOp | src/pagos-recurrentes/pagos-recurrentes.scheduler.ts:28-73 | a second pass on the same day (the 15-minute timer) after a finished pass executes nothing and leaves the log unchanged, whatever throws; it is a complete no-op unless a duplicate query throws. This rests on the assumption stated for `Scheduler.Executed` under "## Left out": `sp_pago_recurrente_execute_now` records a `repetir = 1` row with the rule's key, dated now, which the duplicate query then sees. |
| Scheduler.CountDuplicates | src/pagos-recurrentes/pagos-recurrentes.scheduler.ts:44-61 | the number of matching transactions is zero iff the duplicate query finds none |
| Scheduler.PassAtMostOncePerKey | src/pagos-recurrentes/pagos-recurrentes.scheduler.ts:43-67 | for any key, a pass adds at most one matching transaction, and none if one existed. This rests on the assumption stated for `Scheduler.Executed` under "## Left out": `sp_pago_recurrente_execute_now` records a `repetir = 1` row with the rule's key, dated now, which the duplicate query then sees. |
| Scheduler.SameKeyMasked | src/pagos-recurrentes/pagos-recurrentes.scheduler.ts:44-61 | of two eligible rules with the same key, only the first is executed |
| Scheduler.PassConcat | src/pagos-recurrentes/pagos-recurrentes.scheduler.ts:39-69 | a pass over two lists is the pass over the first, then, unless it aborted, the pass over the second |
| Scheduler.PassAbortSkipsRest | src/pagos-recurrentes/pagos-recurrentes.scheduler.ts:29-72 | a duplicate query or an execution that throws ends the pass: later rules are not executed and the log is as the earlier rules left it |
| Calendar.DaysInMonth | src/pagos-recurrentes/pagos-recurrentes.scheduler.ts:130 | February has 29 days in leap years and 28 otherwise; April, June, September and November have 30; the other months 31 |
| Calendar.DaysInMonthIsGap | src/pagos-recurrentes/pagos-recurrentes.scheduler.ts:130 | `new Date(y, m + 1, 0).getDate()`: the month's length is the number of days from its first to the first of the next month, in the day count behind `getDay()` |
| Calendar.MarchYearLength | src/pagos-recurrentes/pagos-recurrentes.scheduler.ts:130 | a year counted from March has 366 days exactly when the February that ends it is a leap February |
| Calendar.AddMonths | src/pagos-recurrentes/pagos-recurrentes.scheduler.ts:108 | `setMonth(getMonth() + k)` on a first of month advances the month index by k and stays on day 1 |
| Calendar.IsoWeekday | src/pagos-recurrentes/pagos-recurrentes.scheduler.ts:90-91 | `getDay()`'s Sunday (0) becomes 7 and the other days keep their number; `IsoWeekdayNextDay` shows the result runs Monday 1 .. Sunday 7 day after day |
| Calendar.NextDayIsOneLater | src/pagos-recurrentes/pagos-recurrentes.scheduler.ts:90-91 | the day after a valid day is a valid, later day whose day number is one more, across month and year ends |
| Calendar.IsoWeekdayNextDay | src/pagos-recurrentes/pagos-recurrentes.scheduler.ts:90-91 | on every valid day the next day's weekday is the following one, Sunday 7 wrapping to Monday 1; with `WeekdayExample`'s anchors this fixes every day's weekday |
| Calendar.JsDay | src/pagos-recurrentes/pagos-recurrentes.scheduler.ts:90 | `getDay()` lies in 0 .. 6; `JsDayNextDay` shows it moves on by one each day, Saturday 6 wrapping to Sunday 0, and `WeekdayExample` anchors it |
| Calendar.JsDayNextDay | src/pagos-recurrentes/pagos-recurrentes.scheduler.ts:90 | on every valid day the next day's `getDay()` is one more, modulo 7 |
| Calendar.DayBounds | src/pagos-recurrentes/pagos-recurrentes.scheduler.ts:75-81 | comparing an instant against midnight or 23:59:59 of a day is comparing its day |
| Calendar.FirstOfMonthLe | src/pagos-recurrentes/pagos-recurrentes.scheduler.ts:104-105 | the loop test `cand <= hoy` compares month indices only |
| Calendar.WeekdayExample | src/pagos-recurrentes/pagos-recurrentes.scheduler.ts:90-91 | 2025-10-01 is a Wednesday (3), 2025-10-05 a Sunday (7), 2025-10-06 a Monday (1), 2024-02-29 a Thursday (4) |
| Common.Rethrow | src/transacciones/transacciones.service.ts:99-107 | the catch blocks rethrow the named exception classes unchanged and wrap any other error as a plain error with the context message in front |
| Common.NatToString | src/cuentas/cuentas.service.ts:290-292 | the count interpolated into the message is the decimal numeral of the count: digits only, denoting the count, with no leading zero |
| Common.IdOrNull | src/transacciones/transacciones.service.ts:83-86 | `id \|\| null`: a missing id and 0 give NULL, any other id is kept |
| Common.StringOr | src/transacciones/transacciones.service.ts:88 | `s \|\| fallback`: a missing or empty string gives the fallback, any other is kept |
| Common.StringOrNull | src/transacciones/transacciones.service.ts:89-93 | `s \|\| null`: a missing or empty string gives NULL, any other is kept |
| Common.BitOf | src/transacciones/transacciones.service.ts:94 | `b ? 1 : 0`: 1 exactly for a given true flag |
| SqlParams.BuiltInRange | src/transacciones/transacciones.service.ts:178-285 | every placeholder the builder writes names a value it pushed |
| SqlParams.PlaceholdersOneToOne | src/transacciones/transacciones.service.ts:178-285 | placeholders are numbered strictly increasingly and every pushed value is named by one |
| SqlParams.PushValue | src/cuentas/cuentas.service.ts:195-199 | `push(column = @paramIndex); params.push(v); paramIndex++` keeps the numbering and binds the column to the value |
| SqlParams.PushNull | src/transacciones/transacciones.service.ts:186-188 | `push(column = NULL)` keeps the numbering and binds the column to NULL |
| SqlParams.PushIfGiven | src/cuentas/cuentas.service.ts:195-199 | an `!== undefined` block binds the column iff the field is given |
| SqlParams.ResolveExtend | src/transacciones/transacciones.service.ts:278 | pushing the id and user after the assignments leaves what each assignment binds unchanged |
| Transacciones.MatchLocal | src/transacciones/transacciones.service.ts:46-53 | only strings of 10, 16 or 19 characters match; the captured groups are in range; missing time groups give 0 |
| Transacciones.ParseFormatRoundTrip | src/transacciones/transacciones.service.ts:46-54 | every date written as `YYYY-MM-DD`, `YYYY-MM-DDTHH:mm` or `YYYY-MM-DD HH:mm:ss` is read back to the same components |
| Transacciones.MatchedIsFormatted | src/transacciones/transacciones.service.ts:46-54 | every string the pattern accepts is the formatted form of what it yields (the other direction of the round trip) |
| Transacciones.ResolveFecha | src/transacciones/transacciones.service.ts:42-63 | no or empty date gives the clock; a match gives its components; otherwise the `new Date(str)` fallback, and BadRequest iff that is invalid |
| Transacciones.Create | src/transacciones/transacciones.service.ts:20-108 | a non-positive amount and an invalid date are BadRequest; a procedure failure is wrapped with the context message; on success the call carries every argument: the user, the amount, `cuentaId`/`categoriaId`/`metodoPagoId \|\| null`, `tipoTransaccionId` as given, `moneda \|\| 'COP'`, `titulo`/`descripcion`/`archivoAdjunto`/`notas \|\| null`, `repetir ? 1 : 0`, and the resolved date |
| Transacciones.CreateTransfer | src/transacciones/transacciones.service.ts:420-499 | amount guard first, then same-account guard, then the date (BadRequest when unparseable); a procedure failure is wrapped; success iff all pass and the procedure succeeds, and the call then carries the user, the two distinct accounts, the positive amount, `moneda \|\| 'COP'`, the resolved date and `titulo`/`descripcion`/`notas \|\| null` |
| Transacciones.TransferGuards | src/transacciones/transacciones.service.ts:433-439 | a transfer from an account to itself always fails, and a non-positive amount fails with the amount message |
| Transacciones.SameDateHandling | src/transacciones/transacciones.service.ts:441-462 | `create` and `createTransfer` accept and record dates identically |
| Transacciones.PushOrNull | src/transacciones/transacciones.service.ts:182-188 | each block binds its parameter to the given value or to NULL, appending one assignment |
| Transacciones.PushReferences | src/transacciones/transacciones.service.ts:182-212 | the four reference blocks bind `@CuentaId`, `@TipoTransaccionId`, `@CategoriaId` and `@MetodoPagoId` to the given id or NULL, in that order |
| Transacciones.PushDetails | src/transacciones/transacciones.service.ts:214-244 | the next four blocks bind `@Monto`, `@Moneda`, `@Descripcion` and `@FechaTransaccion` to the given value or NULL |
| Transacciones.PushFlags | src/transacciones/transacciones.service.ts:246-276 | the last four blocks bind `@ArchivoAdjunto`, `@Notas`, `@Repetir` and `@Activa` (flags as 1/0) to the given value or NULL |
| Transacciones.BuildAssignments | src/transacciones/transacciones.service.ts:178-276 | the builder yields exactly twelve assignments, numbered densely, binding each field the request gives to its value and every other one to NULL |
| Transacciones.Update | src/transacciones/transacciones.service.ts:169-298 | a missing transaction is NotFound; otherwise twelve assignments bind each field or NULL, and `@Id`/`@UsuarioId` point at the id and user pushed after them |
| Transacciones.UpdateIgnoresTitulo | src/transacciones/transacciones.service.ts:178-285 | the update binds the same values whatever `titulo` is, and has no `@Titulo` assignment |
| Cuentas.SaldoAfterInsert | src/cuentas/cuentas.service.ts:146-157 | a new transaction moves its account's `saldo_actual` by +monto (INGRESO), -monto (GASTO) or 0, and no other account's |
| Cuentas.IngresoGastoCancel | src/cuentas/cuentas.service.ts:146-153 | an income and an expense of equal amount cancel out |
| Cuentas.Movement | src/cuentas/cuentas.service.ts:146-153 | the `CASE`: an income adds its amount, an expense subtracts it, any other type adds nothing; `IngresoGastoCancel` shows an income and an expense of one amount cancel out |
| Cuentas.Joins | src/cuentas/cuentas.service.ts:155-157 | the `LEFT JOIN` condition: an active transaction of the account's owner on the account; `SaldoAfterInsert` shows a transaction on another account leaves the balance unchanged |
| Cuentas.Movements | src/cuentas/cuentas.service.ts:146-157 | `ISNULL(SUM(CASE ...), 0)` over the owner's active transactions on the account; `SaldoAfterInsert` and `IngresoGastoCancel` state how each transaction moves it |
| Cuentas.SaldoActual | src/cuentas/cuentas.service.ts:146-157 | `saldo_inicial` plus the movements; `SaldoAfterInsert`, `SaldoWithoutRefs` and `RemoveNeedsZeroOpening` state its properties |
| Store.ActiveRefs | src/cuentas/cuentas.service.ts:282-285 | `COUNT(*) ... WHERE cuenta_id = @0 AND activa = 1` (and the same on `categoria_id`, categorias.service.ts:244-249): zero iff no active transaction, of any user, refers to the id |
| Cuentas.SaldoWithoutRefs | src/cuentas/cuentas.service.ts:282-298 | with no active transaction on the account, its balance is its opening balance |
| Cuentas.ActiveNamed | src/cuentas/cuentas.service.ts:30-33 | the duplicate-name query finds a row: an active account of the user with that name; `CreateKeepsNamesUnique` and `CuentasService.Create` use it as the Conflict guard |
| Cuentas.Lookup | src/cuentas/cuentas.service.ts:158-169 | the row found is the active account with that id and owner; none exists otherwise |
| SqlParams.DeleteWhereId | src/cuentas/cuentas.service.ts:304-308 | `DELETE FROM cuentas WHERE id = @0` (and `DELETE FROM categorias`, categorias.service.ts:257-261) keeps exactly the rows with another id; `RemovedNotFound` and `RemovedNotVisible` show the row is then gone |
| Cuentas.OfType | src/cuentas/cuentas.service.ts:358-364 | exactly the user's active accounts of that type |
| Cuentas.View | src/cuentas/cuentas.service.ts:451 | the mapper reports `saldo_actual` iff it is nonzero, and then as the balance formula's value |
| Cuentas.Views | src/cuentas/cuentas.service.ts:372 | `cuentas.map(mapToResponseDto)`: one view per row, in order |
| Cuentas.ViewsOfType | src/cuentas/cuentas.service.ts:339-372 | the views `findByType` lists are exactly those of the user's active accounts of the type, each with its balance reported iff nonzero |
| Cuentas.FindByTypeAsWritten | src/cuentas/cuentas.service.ts:325-377 | fails iff the type is unknown, and then with a plain error |
| Cuentas.FindByTypeCorrected | src/cuentas/cuentas.service.ts:325-377 | fails iff the type is unknown, with BadRequest; otherwise lists exactly the views of the user's active accounts of the type, `saldo_actual` given iff nonzero |
| Cuentas.FindByTypeWrapsBadRequest | src/cuentas/cuentas.service.ts:325-377 | for type "XYZ" the code as written answers a plain error, the corrected one BadRequest |
| Cuentas.FindByTypeAgreeOnValid | src/cuentas/cuentas.service.ts:325-377 | both versions agree on every valid type |
| Cuentas.SetListUpdatesGivenFields | src/cuentas/cuentas.service.ts:191-259 | running the SET list the builder produces changes exactly the given fields of the row, in builder order |
| Cuentas.UpdateWhereIdOutcome | src/cuentas/cuentas.service.ts:252-257 | after `UPDATE cuentas SET <the builder's list> WHERE id = @k`, every row with that id reads `Updated(row, dto)`, and a row with another id is in the table exactly when it was before |
| Cuentas.CuentasService.constructor | src/cuentas/cuentas.service.ts:12-15 | the service holds the shared connection |
| Cuentas.CuentasService.FindOne | src/cuentas/cuentas.service.ts:125-181 | NotFound iff no active owned row; `saldo_actual` is reported iff it is nonzero, and is then the formula's value |
| Cuentas.CuentasService.Create | src/cuentas/cuentas.service.ts:20-68 | type `tipo \|\| 'BANCARIA'` must be one of seven, else BadRequest; an active same-name account is a Conflict; otherwise one active row with the defaults is appended |
| Cuentas.CuentasService.Update | src/cuentas/cuentas.service.ts:186-271 | NotFound, then BadRequest for an unknown type; when nothing is given, no statement and the answer is `findOne`'s (the row and its nonzero balance); else the statement binds exactly the given fields, `WHERE id` points at the id pushed last, and afterwards the account reads `Updated(row, dto)` while every row with another id is kept as it was (`UpdateWhereIdOutcome`) |
| Cuentas.PushRemaining | src/cuentas/cuentas.service.ts:210-244 | after `nombre` and `tipo`, the remaining six blocks complete the SET list to exactly the given fields, in builder order |
| Cuentas.CuentasService.Remove | src/cuentas/cuentas.service.ts:276-320 | NotFound, then Conflict with the count of active transactions, then Conflict when the balance is nonzero; otherwise the rows are deleted |
| Cuentas.CuentasService.FindByType | src/cuentas/cuentas.service.ts:325-377 | behaves as `FindByTypeCorrected` on the current tables: every listed account is the user's, active and of the type, with `saldo_actual` reported iff nonzero |
| Cuentas.RemoveNeedsZeroOpening | src/cuentas/cuentas.service.ts:282-302 | once no active transaction references the account, the balance guard passes iff the opening balance is 0 |
| Cuentas.CreateKeepsNamesUnique | src/cuentas/cuentas.service.ts:30-38 | a successful create keeps active names unique per user, and the same name then conflicts |
| Cuentas.RemovedNotFound | src/cuentas/cuentas.service.ts:304-308 | after the delete, `findOne` finds the account no more |
| Categorias.ActiveById | src/categorias/categorias.service.ts:120-132 | the row read is an active row with that id; none exists otherwise |
| Categorias.Owner | src/categorias/categorias.service.ts:136 | `usuario_id ? parseInt(usuario_id) : null`: a NULL or 0 owner gives null, any other owner is kept |
| Categorias.Visible | src/categorias/categorias.service.ts:118-147 | a category `findOne` shows is an active row with that id owned by the user; `FindOneOwnership` states exactly what it hides |
| Categorias.NameTaken | src/categorias/categorias.service.ts:29-33 | some category of the user (active or not) has the name; `CreateThenConflict` and `SeedingIsOnce` state what it blocks |
| Categorias.HasAny | src/categorias/categorias.service.ts:329-337 | the user owns some category; `SeedingIsOnce` shows seeding makes it true |
| Categorias.FindOneOwnership | src/categorias/categorias.service.ts:118-147 | `findOne` hides exactly the missing row, a system category (owner NULL or 0) and another user's category |
| Categorias.OfType | src/categorias/categorias.service.ts:96-102 | exactly the user's active categories whose type is the requested one or AMBOS |
| Categorias.FindByTypeAsWritten | src/categorias/categorias.service.ts:90-112 | fails iff the type is unknown, and then with a plain error |
| Categorias.FindByTypeCorrected | src/categorias/categorias.service.ts:90-112 | fails iff the type is unknown, with BadRequest; otherwise lists the filter's rows |
| Categorias.FindByTypeWrapsBadRequest | src/categorias/categorias.service.ts:90-112 | for type "XYZ" the code as written answers a plain error, the corrected one BadRequest |
| Categorias.FindByTypeAgreeOnValid | src/categorias/categorias.service.ts:90-112 | both versions agree on every valid type |
| Categorias.AmbosListedForBoth | src/categorias/categorias.service.ts:99-101 | an AMBOS category is listed for both types; INGRESO and GASTO ones only for their own |
| Categorias.SetListUpdatesGivenFields | src/categorias/categorias.service.ts:168-218 | running the SET list the builder produces changes exactly the given fields of the row |
| Categorias.UpdateWhereIdOutcome | src/categorias/categorias.service.ts:212-217 | after `UPDATE categorias SET <the builder's list> WHERE id = @k`, every row with that id reads `Updated(row, dto)`, and a row with another id is in the table exactly when it was before |
| Categorias.DefaultRowsShape | src/categorias/categorias.service.ts:339-373 | seeding adds fifteen active rows of the user: ten GASTO then five INGRESO, consecutive ids, pairwise distinct names |
| Categorias.DistinctNames | src/categorias/categorias.service.ts:339-358 | the fifteen default names differ pairwise |
| Categorias.CategoriasService.constructor | src/categorias/categorias.service.ts:12-15 | the service holds the shared connection |
| Categorias.CategoriasService.Create | src/categorias/categorias.service.ts:20-64 | a given non-empty unknown type is BadRequest; any same-name category of the user (active or not) is a Conflict; otherwise an active row with `tipo \|\| 'GASTO'` is appended |
| Categorias.CategoriasService.FindOne | src/categorias/categorias.service.ts:118-158 | NotFound unless the active row exists and belongs to the user |
| Categorias.CategoriasService.Update | src/categorias/categorias.service.ts:164-231 | NotFound, then BadRequest for an unknown type; no statement when nothing is given; else the statement binds exactly the given fields and afterwards the category reads `Updated(row, dto)` while every row with another id is kept as it was (`UpdateWhereIdOutcome`) |
| Categorias.CategoriasService.Remove | src/categorias/categorias.service.ts:238-273 | NotFound, then Conflict with the count of active transactions; otherwise the rows are deleted |
| Categorias.CategoriasService.FindByType | src/categorias/categorias.service.ts:90-112 | behaves as `FindByTypeCorrected` |
| Categorias.CategoriasService.InsertDefaultCategories | src/categorias/categorias.service.ts:326-386 | Conflict when the user has any category; otherwise the two loops append exactly the default rows |
| Categorias.CategoriasService.InsertSeeds | src/categorias/categorias.service.ts:360-374 | one `for ... of` loop inserts one active row per seed, in order, with consecutive ids |
| Categorias.SeedingIsOnce | src/categorias/categorias.service.ts:329-337 | after seeding, seeding again is a Conflict and every default name is taken |
| Categorias.CreatedIsListed | src/categorias/categorias.service.ts:20-64 | a created category is listed by `findByType` for its own type |
| Categorias.CreateThenConflict | src/categorias/categorias.service.ts:29-37 | after create, the same name conflicts for that user even once the row is deactivated |
| Categorias.RemovedNotVisible | src/categorias/categorias.service.ts:257-261 | after the delete, `findOne` finds the category no more |
| DispositivosNfc.Matches | src/dispositivos-nfc/dispositivos-nfc.service.ts:17-18 | `identificador_unico = @0 AND usuario_id = @1`; `FirstMatch` and `RegisterIdempotent` state what the lookup built on it finds |
| DispositivosNfc.FirstMatch | src/dispositivos-nfc/dispositivos-nfc.service.ts:16-26 | finds a row of the user with the identifier iff one exists |
| DispositivosNfc.Newest | src/dispositivos-nfc/dispositivos-nfc.service.ts:45-52 | the re-read row matches and no matching row is registered later |
| DispositivosNfc.FirstMatchAppend | src/dispositivos-nfc/dispositivos-nfc.service.ts:16-26 | an appended row becomes the first match only if there was none and it matches |
| DispositivosNfc.NewestAfterInsert | src/dispositivos-nfc/dispositivos-nfc.service.ts:39-52 | with no earlier row for the user and identifier, the re-read returns the inserted row |
| DispositivosNfc.ExistsForOther | src/dispositivos-nfc/dispositivos-nfc.service.ts:28-32 | another user has a row with the identifier; `OtherUsersDoNotBlock` shows it does not change the outcome |
| DispositivosNfc.Registered | src/dispositivos-nfc/dispositivos-nfc.service.ts:14-53 | the row returned matches the user and identifier: the existing row, or a new active row with the next id, the given name and type, stamped now |
| DispositivosNfc.DispositivosNfcService.constructor | src/dispositivos-nfc/dispositivos-nfc.service.ts:8 | the service holds the shared connection |
| DispositivosNfc.DispositivosNfcService.RegisterOrGet | src/dispositivos-nfc/dispositivos-nfc.service.ts:14-53 | returns the existing row unchanged, or appends one active row stamped now and returns it; either way that row is afterwards the user's row for the identifier |
| DispositivosNfc.RegisterIdempotent | src/dispositivos-nfc/dispositivos-nfc.service.ts:14-53 | registering the identifier again returns the same row and inserts nothing |
| DispositivosNfc.OtherUsersDoNotBlock | src/dispositivos-nfc/dispositivos-nfc.service.ts:28-36 | another user's row with the same identifier does not change the lookup |
| DispositivosNfc.TwoUsersTwoRows | src/dispositivos-nfc/dispositivos-nfc.service.ts:28-43 | two users registering the same identifier get one row each |

## Left out

- Timers and asynchrony: `setInterval`, the 15-minute period and concurrent passes are not modelled. The timer is a handle plus a running flag, and a pass is one synchronous call.
- Clock and current time: the clock is the `now` parameter.
- Failures of queries and stored procedures: in the scheduler a failed rule fetch is `fetchFails`, and `Faults` names the rules whose duplicate query or whose `sp_pago_recurrente_execute_now` call throws; in the transaction service a procedure error is `spError`. The services' other queries (lookups, counts, inserts, updates, deletes) are taken to succeed.
- Stored procedures: the bodies of `sp_pago_recurrente_execute_now`, `sp_transaccion_create`, `sp_transaccion_create_transfer` and `sp_transaccion_update` are not part of this model. The model states the arguments they receive.
- Fallback date parsing: `new Date(str)` for strings the pattern does not match is the `fallback` parameter.
- JavaScript `Date` details: time zones, milliseconds and the normalisation of out-of-range components (month 13, day 0) are not modelled. Nor is the rule by which `new Date(y, m, d, ...)` reads a year 0 .. 99 as 1900 + y: the program records "0025-01-01" in 1925, while `Transacciones.LocalDateTime` keeps the year 25. Parsed components are kept as integers, and instants have one-second resolution.
- Number parsing: `parseFloat`, `parseInt`, `NaN` and floating-point rounding are left out. Amounts are exact reals.
- Update DTO fields: a field sent as JSON `null` is treated like a given value. Only "absent" and "given" are distinguished.
- String comparison in SQL: `=` on names, types and device identifiers is exact sequence equality here. SQL Server ignores trailing blanks in `=` and, under a case-insensitive default collation, case, so "Ahorro" and "ahorro " collide in the program but not in the model. This affects Cuentas.ActiveNamed, Categorias.NameTaken, Cuentas.OfType, Categorias.OfType and DispositivosNfc.Matches, and the lemmas built on them (Cuentas.CreateKeepsNamesUnique, Categorias.CreateThenConflict, DispositivosNfc.RegisterIdempotent); the collation is not part of this model.
- Ordering: `ORDER BY` (names, types, totals) is left out. Result lists keep table order.
- Out of scope: `findAllByUser`, `getSummary`, `findByAccount`, `findByCategory`, transaction `findOne` and `remove`, and the response mappers beyond the nonzero `saldo_actual` rule. Also auth, controllers, DTO validation decorators, logging and the other services.
- Scheduler.Executed: assumes the recorded transaction is of type GASTO with the rule's fields, because the procedure's body is not available.
- Transacciones.Update: takes `found` (whether `findOne` returned the row) as a parameter. The transaction table is not modelled.
- DispositivosNfc.DispositivosNfcService.RegisterOrGet: ignores `ensureArray` on a non-array result and the `undefined` of an empty re-read. The model's re-read always finds the inserted row.

Further observations on the code as written, all modelled as written:

- `update` of transactions has no `@Titulo` assignment, and passes `fechaTransaccion` raw without the date parsing of `create`.
- `onModuleDestroy` does not reset the handle.
- `cuentas.remove` deletes physically, although its doc comment says soft delete.
- `remove` counts active transactions of any user, while the balance counts only the owner's.
- `update` of accounts and categories does not re-check duplicate names.

## Findings

| source | as written | input that shows it | evidently intended | confidence | as-written member | corrected member |
|---|---|---|---|---|---|---|
| src/cuentas/cuentas.service.ts:325-377 | the unknown-type BadRequest is thrown inside the `try`; the catch rethrows every error as a plain `Error`, so the caller gets a server error | `GET /cuentas?tipo=XYZ` (the controller passes the query unchecked, src/cuentas/cuentas.controller.ts:64-65) | BadRequest "El tipo de cuenta no es válido", as `create` and `update` raise for the same check | high, not executed | Cuentas.FindByTypeAsWritten | Cuentas.FindByTypeCorrected |
| src/categorias/categorias.service.ts:90-112 | the same: the BadRequest is wrapped into a plain `Error` by the catch | `GET /categorias?tipo=XYZ` (src/categorias/categorias.controller.ts:65-66) | BadRequest "El tipo debe ser INGRESO, GASTO o AMBOS" | high, not executed | Categorias.FindByTypeAsWritten | Categorias.FindByTypeCorrected |
