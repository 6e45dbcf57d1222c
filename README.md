# Tick timers and TEST setters of the MT4 expander, in Dafny

This project models two parts of the MT4 expander, a native DLL that extends
MetaTrader 4 terminals.

**Tick timers** (`src/lib/datetime.cpp`). A process-wide vector `tickTimers` holds
one `{id, hWnd, flags}` record per active timer. `SetupTickTimer` checks its
arguments. It then takes the next id from a static counter that starts at 10000
and asks Windows for a timer with that id. The record is appended only when
`SetTimer` answers with the same id. `TimerCallback` runs on every firing. It
looks the id up, optionally checks that the chart is visible, and posts one
message: a chart refresh, a tester step, or the default offline tick.
`RemoveTickTimer` erases a record only after `KillTimer` succeeds.
`RemoveTickTimers` drains whatever is left, from the last record to the first,
when the DLL is unloaded.

In the model these become the class `TickTimers.TickTimerRegistry`:
- `timers` is the vector and `lastId` the static counter.
- The ghost trace `events` records every warning and error reported, every
  `SetTimer`/`KillTimer` call and every posted message, in order.
- Windows' answers are inputs, gathered in the datatype `Os`: the owner thread
  of a window, the current thread, and the results of `SetTimer`, `KillTimer`
  and `GetClipBox`.
- The object invariant `Registered` says four things. Ids are strictly
  increasing in registration order, and so are distinct. Every id lies in
  `(10000, lastId]`. No record combines the refresh and tester flags.

**TEST setters** (`src/struct/xtrade/Test.cpp`). These are the validated field
setters of the TEST record that describes a strategy-tester run. They are
modelled as methods on a nullable `TestRecord.Test` reference. Each method states
three things:
- its result in every case: an if-and-only-if over the pointer and value checks
  where the error value cannot also be a legitimate result, and one implication
  per case where it can (`SetReportId`, `SetBarModel`);
- on success, that exactly its own field changed
  (`Snapshot() == old(Snapshot()).(field := value)`);
- on failure, that nothing changed.

The sizes of the char arrays come from `Test.h`, which is not part of this
model. They are therefore constructor parameters.

Constants taken from headers that are not part of this model:
- the flag bits `TICK_CHART_REFRESH` = 1, `TICK_TESTER` = 2, `TICK_IF_VISIBLE` = 4
  and `TICK_PAUSE_ON_WEEKEND` = 8 (the proofs use only that they are distinct
  single bits);
- `BARMODEL_EVERYTICK` = 0, `BARMODEL_CONTROLPOINTS` = 1 and `BARMODEL_BAROPEN` = 2;
- the error report `error(...)` returns 0. The doc comment of `SetupTickTimer`
  says it returns 0 on error, and that function returns `error(...)`.

## Model

| member | source | states |
|---|---|---|
| `TickTimers.Find` | src/lib/datetime.cpp:155-156 | the search returns the first index whose id matches, or none when no entry has the id |
| `TickTimers.SetupRejection` | src/lib/datetime.cpp:116-122 | setup is refused exactly when the window's thread is not the current thread, the period is not positive, or both refresh and tester are set; the reason is the first failing check (not a window if the thread id is 0, foreign window otherwise) |
| `TickTimers.Delivery` | src/lib/datetime.cpp:82-90 | the posted message is chosen by priority: refresh when its flag is set, else tester step, else the default offline tick |
| `TickTimers.Firing` | src/lib/datetime.cpp:58-95 | a firing has at most one effect: an unknown id gives exactly one "not found" warning; it posts iff the id is registered and the timer is not visibility-gated or the region is visible; a null region gives nothing; a failed region query gives exactly one Win32 warning about the window's clip box; what it posts follows the flag priority |
| `TickTimers.FindFirst` | src/lib/datetime.cpp:155-156 | looking up the id of entry i finds i whenever no earlier entry holds that id |
| `TickTimers.FindRegistered` | src/lib/datetime.cpp:176-179 | with increasing ids, looking up the id of entry i finds i, so the drain's removal by id removes the entry at the walk's position |
| `TickTimers.RemoveById` | src/lib/datetime.cpp:151-166 | a successful removal takes out exactly one entry; a failed one leaves the entries as they were |
| `TickTimers.RemoveAtKeepsRegistry` | src/lib/datetime.cpp:159 | erasing an entry keeps the registry invariant |
| `TickTimers.RemoveAtKeepsOthers` | src/lib/datetime.cpp:155-159 | after an entry is erased, every other id is found iff it was found before |
| `TickTimers.RemoveAtForgetsOnlyIt` | src/lib/datetime.cpp:155-159 | with increasing ids, the erased entry's id is no longer found, and every other id is found iff it was before |
| `TickTimers.FailedRemovalChangesNothing` | src/lib/datetime.cpp:151-163 | a failed removal leaves the entries unchanged; a non-positive or unknown id fails with exactly one error and no OS call |
| `TickTimers.RemoveFirst` | src/lib/datetime.cpp:155-162 | removing the id of the first entry holding it calls KillTimer with that entry's window and id; it succeeds iff KillTimer does, and then erases exactly that entry; otherwise it reports one Win32 error and keeps every entry |
| `TickTimers.SecondRemovalFails` | src/lib/datetime.cpp:151-166 | after a successful removal, removing the same id again fails as not found, whatever KillTimer would answer, and changes nothing |
| `TickTimers.AppendKeepsRegistry` | src/lib/datetime.cpp:126-137 | appending a record with the next counter value keeps ids increasing and bounded by the counter |
| `TickTimers.DrainLoopStep` | src/lib/datetime.cpp:176-179 | one pass of the drain removes the entry at the walk's position by its id, leaving the prefix before it plus the survivors from it onward, and adds that entry's orphan warning, KillTimer call and possible error |
| `TickTimers.DrainFromMeetsSpec` | src/lib/datetime.cpp:173-181 | removing by id from index i down to 0, after the entries above i were drained, leaves exactly the entries of the whole registry whose KillTimer failed, and completes the drain's events |
| `TickTimers.DrainWhole` | src/lib/datetime.cpp:173-181 | the drain loop as written, over a whole registry, leaves the entries whose KillTimer failed, in order, and emits the entries' orphan effects from last to first |
| `TickTimers.DrainAllKilled` | src/lib/datetime.cpp:173-181 | when every KillTimer succeeds, the drain leaves no entry |
| `TickTimers.SurvivorsAreFailedKills` | src/lib/datetime.cpp:157-159 | an entry that remains after the drain was registered before and its KillTimer failed |
| `TickTimers.SurvivorsIncreasing` | src/lib/datetime.cpp:176-179 | the entries that remain after the drain keep their relative order |
| `TickTimers.SurvivorsKeepRegistry` | src/lib/datetime.cpp:173-181 | the entries that remain after the drain still satisfy the registry invariant |
| `TickTimers.DrainWarnsInReverse` | src/lib/datetime.cpp:176-178 | the drain emits exactly one orphan warning per entry, the k-th naming the id of the k-th entry from the end |
| `TickTimers.DrainKillsEvery` | src/lib/datetime.cpp:157 | the drain asks the OS to kill every registered timer with its own window and id |
| `TickTimers.FindIgnoresFlags` | src/lib/datetime.cpp:61-62 | the lookup depends only on the ids of the entries |
| `TickTimers.FiringIgnoresWeekend` | src/lib/datetime.cpp:78-80 | registries that differ only in the weekend bit of their flags produce identical firings |
| `TickTimers.FiringAfterRemoval` | src/lib/datetime.cpp:61-94 | after an entry is erased, a firing for its id only warns "not found" and posts nothing |
| `TickTimers.TickTimerRegistry.constructor` | src/lib/datetime.cpp:46 | the registry starts empty with the counter at 10000, so the first id handed out is 10001 |
| `TickTimers.TickTimerRegistry.IndexOf` | src/lib/datetime.cpp:155-156 | the indexed loop returns the first index holding the id, or -1 when no entry holds it |
| `TickTimers.TickTimerRegistry.TimerCallback` | src/lib/datetime.cpp:58-95 | never changes the entries or the counter; appends exactly the effects of `Firing` for the visibility answer of the callback's window |
| `TickTimers.TickTimerRegistry.SetupTickTimer` | src/lib/datetime.cpp:114-141 | a rejected setup returns 0 and changes only the trace (one error); otherwise the counter advances by one even when SetTimer fails; the record `{id, hWnd, flags}` is appended and the id returned iff SetTimer echoes the id; a returned id exceeds 10000 and every registered id; the invariant is kept |
| `TickTimers.TickTimerRegistry.RemoveTickTimer` | src/lib/datetime.cpp:151-166 | a non-positive or unknown id fails with no change; for a registered id, KillTimer is called on the entry's window; the call succeeds iff KillTimer does, and then exactly that entry is erased with the others kept in order; the invariant is kept |
| `TickTimers.TickTimerRegistry.RemoveTickTimers` | src/lib/datetime.cpp:173-181 | the entries left are exactly those whose KillTimer failed, in order; the trace grows by the drain of all entries from last to first |
| `TestRecord.AsInt32` | src/struct/xtrade/Test.cpp:130 | the signed 32-bit reading equals the value or the value minus 2^32 and lies in the int range |
| `TestRecord.SetId` | src/struct/xtrade/Test.cpp:17-23 | succeeds iff the test is non-null and the id positive; then only `id` changes and the id is returned; otherwise 0 is returned and nothing changes |
| `TestRecord.SetCreated` | src/struct/xtrade/Test.cpp:34-40 | succeeds iff the test is non-null and the time positive; then only `created` changes |
| `TestRecord.SetStrategy` | src/struct/xtrade/Test.cpp:51-60 | succeeds iff test and name are non-null and the name has 1 to capacity-1 characters; then only `strategy` changes, the name is returned and the stored name fits its array; a record whose strings all fit keeps them fitting (other fields are neither required nor checked) |
| `TestRecord.SetReportId` | src/struct/xtrade/Test.cpp:71-77 | 0 is accepted and stored; only negative ids or a null test are refused; only `reportId` changes |
| `TestRecord.SetReportSymbol` | src/struct/xtrade/Test.cpp:88-97 | as written: succeeds iff test and symbol are non-null and the length is at most the full array size (empty allowed); only `reportSymbol` changes |
| `TestRecord.SetReportSymbolBounded` | src/struct/xtrade/Test.cpp:92 | corrected bound of at most capacity-1 characters; the stored symbol fits its array, and a record whose strings all fit keeps them fitting |
| `TestRecord.SetSymbol` | src/struct/xtrade/Test.cpp:108-117 | as written: succeeds iff test and symbol are non-null and the length is 1 to the full array size; only `symbol` changes |
| `TestRecord.SetSymbolBounded` | src/struct/xtrade/Test.cpp:112 | corrected bound of 1 to capacity-1 characters; the stored symbol fits its array, and a record whose strings all fit keeps them fitting |
| `TestRecord.SymbolAtCapacityOverflows` | src/struct/xtrade/Test.cpp:91-114 | a symbol exactly as long as its array is accepted by both as-written setters and leaves the record without room for the terminating NUL |
| `TestRecord.SetTimeframe` | src/struct/xtrade/Test.cpp:128-134 | succeeds iff the test is non-null and 0 < timeframe < 2^31, i.e. its signed reading is positive; then only `timeframe` changes |
| `TestRecord.SetStartTime` | src/struct/xtrade/Test.cpp:145-151 | succeeds iff the test is non-null and the time positive; then only `startTime` changes |
| `TestRecord.SetEndTime` | src/struct/xtrade/Test.cpp:162-168 | succeeds iff the test is non-null and the time positive; then only `endTime` changes |
| `TestRecord.SetBarModel` | src/struct/xtrade/Test.cpp:179-190 | as written: one of the three bar models is stored and returned; any other value returns EMPTY with no change; a null test returns 0 |
| `TestRecord.NullTestLooksLikeEveryTick` | src/struct/xtrade/Test.cpp:180-187 | a null test and a successful BARMODEL_EVERYTICK call return the same value, and it is not EMPTY |
| `TestRecord.SetBarModelChecked` | src/struct/xtrade/Test.cpp:177-190 | returns EMPTY iff the test is null or the value is not a bar model; otherwise stores and returns the value |
| `TestRecord.SetBars` | src/struct/xtrade/Test.cpp:218-224 | succeeds iff the test is non-null and bars is not 0; then only `bars` changes |
| `TestRecord.SetTicks` | src/struct/xtrade/Test.cpp:235-241 | succeeds iff the test is non-null and ticks is not 0; then only `ticks` changes |

## Left out

- `GetGmtTime` and `GetLocalTime` (datetime.cpp:14-43) read the system clock and do nothing worth specifying.
- The real behaviour of Windows is not modelled. `SetTimer`, `KillTimer`, `GetClipBox` and `GetWindowThreadProcessId` are answers taken from `Os`. `GetDC`, `ReleaseDC` and `GetLastError` are not modelled, and the OS error number added to `ERR_WIN32_ERROR` is not recorded.
- Message-queue delivery is not modelled. A `PostMessageA` call is a `Post` event naming the window and the message kind. A `Post` event does not record the `WM_COMMAND`/`MT4InternalMsg()` identifiers or the `MT4_TICK`/`TICK_OFFLINE_EA` parameters.
- `TimerCallback` takes the WM_TIMER message number and the tick count as parameters but never reads them, so the model drops them.
- `TimerCallback` and `RemoveTickTimers` run without concurrency. All calls are treated as sequential on the owning thread.
- The text of warnings and errors is not modelled. A report is an event carrying the error code and what it is about. The logging shim `header/lib/log.h` is not part of this model.
- `TickTimers.TickTimerRegistry.SetupTickTimer`: the id counter is an unbounded integer. The source's 32-bit `uint` counter would wrap to 0 after 4294957295 setups, and monotonicity would then fail. That wrap is not modelled.
- `TickTimers.TickTimerRegistry.RemoveTickTimer`: the id is compared as a mathematical integer. In the source, an id of 2^31 or more (reached only after about 2.1 billion setups) reads as negative through the `int` parameter and would be refused.
- `test_SetSpread` (Test.cpp:201-207) rounds a double, and floating point is not modelled.
- `TEST_toStr` (Test.cpp:252-284) does string-stream and time formatting, which is not modelled.
- The setters' error reports are not modelled as events. Only the returned error value is.
- The `strcpy` NULL-result branches (Test.cpp:57-58, 94-95, 114-115) cannot be taken, since `strcpy` returns its destination. They are omitted.
- Pointer validity is NULL or not. The `MIN_VALID_POINTER` address heuristic is not modelled.
- Strings are modelled as their content up to the first NUL, so `strlen` is the sequence length.
- The TEST fields `orders` (a pointer to a vector) and the struct's memory layout are not modelled.

## Findings

| source | as written | input that shows it | evidently intended | confidence | as-written member | corrected member |
|---|---|---|---|---|---|---|
| src/struct/xtrade/Test.cpp:112 | `test_SetSymbol` refuses only `len > sizeof(test->symbol)`, so it accepts a symbol exactly as long as the array; `strcpy` then writes its NUL one byte past the end | a symbol of exactly `sizeof(test->symbol)` characters (`SymbolAtCapacityOverflows`) | at most `sizeof-1` characters, the bound the error message itself reports | high for the overflow; not executed | `TestRecord.SetSymbol` | `TestRecord.SetSymbolBounded` |
| src/struct/xtrade/Test.cpp:92 | `test_SetReportSymbol` has the same `len > sizeof` bound | a report symbol of exactly `sizeof(test->reportSymbol)` characters (`SymbolAtCapacityOverflows`) | at most `sizeof-1` characters ("max %d characters" with `sizeof-1`) | high for the overflow; not executed | `TestRecord.SetReportSymbol` | `TestRecord.SetReportSymbolBounded` |
| src/struct/xtrade/Test.cpp:180 | with a NULL test `test_SetBarModel` returns `error(...)`, i.e. 0, the value of `BARMODEL_EVERYTICK` | `test_SetBarModel(NULL, BARMODEL_EVERYTICK)` answers like a successful call (`NullTestLooksLikeEveryTick`) | EMPTY (-1) on every error, as the doc comment promises | medium (rests on the header values of `error` and `BARMODEL_EVERYTICK`); not executed | `TestRecord.SetBarModel` | `TestRecord.SetBarModelChecked` |
