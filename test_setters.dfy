/**
 * The TEST record of a strategy-tester run and its validated field setters.
 *
 * A setter receives a pointer that may be NULL (here a `Test?`), checks it and
 * its value, and then overwrites exactly one field. On failure it returns the
 * value the error report yields, ERROR_RESULT, and changes nothing. The
 * char-array fields hold C strings: their content must leave room for the
 * terminating NUL, so a string of length n needs a capacity of at least n + 1.
 */
module TestRecord {
  import opened Wrappers

  /** An unsigned 32-bit value (uint). */
  type uint32 = x: int | 0 <= x < 0x1_0000_0000

  /** The value the error report returns, and with it every failing setter. */
  const ERROR_RESULT := 0

  /** The "no value" marker. */
  const EMPTY := -1

  // The tester's bar models.
  const BARMODEL_EVERYTICK := 0
  const BARMODEL_CONTROLPOINTS := 1
  const BARMODEL_BAROPEN := 2

  /** The signed 32-bit reading of an unsigned value, as a cast (int)x gives it. */
  function AsInt32(x: uint32): (r: int)
    ensures -0x8000_0000 <= r < 0x8000_0000
    ensures r == x || r == x - 0x1_0000_0000
  {
    if x < 0x8000_0000 then x else x - 0x1_0000_0000
  }

  predicate IsBarModel(t: int) {
    t == BARMODEL_EVERYTICK || t == BARMODEL_CONTROLPOINTS || t == BARMODEL_BAROPEN
  }

  /** All fields of a TEST, as one value: what a setter may change and what it must keep. */
  datatype Fields = Fields(
    id: int,
    created: int,
    strategy: string,
    reportId: int,
    reportSymbol: string,
    symbol: string,
    timeframe: uint32,
    startTime: int,
    endTime: int,
    barModel: int,
    bars: uint32,
    ticks: uint32,
    spread: real,
    tradeDirections: int)

  class Test {
    // Sizes of the char arrays, the terminating NUL included.
    const strategyCapacity: nat
    const reportSymbolCapacity: nat
    const symbolCapacity: nat

    var id: int
    var created: int
    var strategy: string
    var reportId: int
    var reportSymbol: string
    var symbol: string
    var timeframe: uint32
    var startTime: int
    var endTime: int
    var barModel: int
    var bars: uint32
    var ticks: uint32
    var spread: real
    var tradeDirections: int

    ghost function Snapshot(): Fields
      reads this
    {
      Fields(id, created, strategy, reportId, reportSymbol, symbol, timeframe,
             startTime, endTime, barModel, bars, ticks, spread, tradeDirections)
    }

    /** Every string field fits its char array together with its terminating NUL. */
    ghost predicate Valid()
      reads this
    {
      |strategy| < strategyCapacity &&
      |reportSymbol| < reportSymbolCapacity &&
      |symbol| < symbolCapacity
    }

    /** A zero-initialised TEST. */
    constructor (strategyCapacity: nat, reportSymbolCapacity: nat, symbolCapacity: nat)
      requires 0 < strategyCapacity && 0 < reportSymbolCapacity && 0 < symbolCapacity
      ensures Valid()
      ensures this.strategyCapacity == strategyCapacity
      ensures this.reportSymbolCapacity == reportSymbolCapacity
      ensures this.symbolCapacity == symbolCapacity
      ensures Snapshot() == Fields(0, 0, "", 0, "", "", 0, 0, 0, 0, 0, 0, 0.0, 0)
    {
      this.strategyCapacity := strategyCapacity;
      this.reportSymbolCapacity := reportSymbolCapacity;
      this.symbolCapacity := symbolCapacity;
      id, created, strategy, reportId := 0, 0, "", 0;
      reportSymbol, symbol, timeframe := "", "", 0;
      startTime, endTime, barModel, bars, ticks := 0, 0, 0, 0, 0;
      spread, tradeDirections := 0.0, 0;
    }
  }

  /** Sets the test id, which must be positive; returns it. */
  method SetId(test: Test?, id: int) returns (r: int)
    modifies test
    ensures r != ERROR_RESULT <==> test != null && id > 0
    ensures r != ERROR_RESULT ==> r == id && test.Snapshot() == old(test.Snapshot()).(id := id)
    ensures r == ERROR_RESULT && test != null ==> test.Snapshot() == old(test.Snapshot())
  {
    if test == null {
      return ERROR_RESULT;
    }
    if id <= 0 {
      return ERROR_RESULT;
    }
    test.id := id;
    return id;
  }

  /** Sets the creation time, which must be positive; returns it. */
  method SetCreated(test: Test?, time: int) returns (r: int)
    modifies test
    ensures r != ERROR_RESULT <==> test != null && time > 0
    ensures r != ERROR_RESULT ==> r == time && test.Snapshot() == old(test.Snapshot()).(created := time)
    ensures r == ERROR_RESULT && test != null ==> test.Snapshot() == old(test.Snapshot())
  {
    if test == null {
      return ERROR_RESULT;
    }
    if time <= 0 {
      return ERROR_RESULT;
    }
    test.created := time;
    return time;
  }

  /**
   * Sets the strategy name: 1 to capacity-1 characters, so that it fits its
   * char array with its NUL. Returns the name, or NULL (None) on failure.
   */
  method SetStrategy(test: Test?, name: Option<string>) returns (r: Option<string>)
    modifies test
    ensures test != null && old(test.Valid()) ==> test.Valid()
    ensures r.Some? ==> test != null && |test.strategy| < test.strategyCapacity
    ensures r.Some? <==> test != null && name.Some? && 1 <= |name.value| <= test.strategyCapacity - 1
    ensures r.Some? ==> r == name && test.Snapshot() == old(test.Snapshot()).(strategy := name.value)
    ensures r.None? && test != null ==> test.Snapshot() == old(test.Snapshot())
  {
    if test == null {
      return None;
    }
    if name.None? {
      return None;
    }
    var len := |name.value|;
    if len == 0 || len > test.strategyCapacity - 1 {
      return None;
    }
    test.strategy := name.value;
    return name;
  }

  /** Sets the reporting id; 0 is accepted, only negative ids are refused. Returns the id. */
  method SetReportId(test: Test?, id: int) returns (r: int)
    modifies test
    ensures test == null || id < 0 ==> r == ERROR_RESULT
    ensures test != null && id >= 0 ==> r == id && test.Snapshot() == old(test.Snapshot()).(reportId := id)
    ensures test != null && id < 0 ==> test.Snapshot() == old(test.Snapshot())
  {
    if test == null {
      return ERROR_RESULT;
    }
    if id < 0 {
      return ERROR_RESULT;
    }
    test.reportId := id;
    return id;
  }

  /**
   * Sets the reporting symbol as the source does: any length up to the full
   * size of the char array is accepted, the empty symbol included. A symbol as
   * long as the array leaves no room for its NUL; see SymbolAtCapacityOverflows.
   */
  method SetReportSymbol(test: Test?, symbol: Option<string>) returns (r: Option<string>)
    modifies test
    ensures r.Some? <==> test != null && symbol.Some? && |symbol.value| <= test.reportSymbolCapacity
    ensures r.Some? ==> r == symbol && test.Snapshot() == old(test.Snapshot()).(reportSymbol := symbol.value)
    ensures r.None? && test != null ==> test.Snapshot() == old(test.Snapshot())
  {
    if test == null {
      return None;
    }
    if symbol.None? {
      return None;
    }
    var len := |symbol.value|;
    if len > test.reportSymbolCapacity {
      return None;
    }
    test.reportSymbol := symbol.value;
    return symbol;
  }

  /** SetReportSymbol with the bound its error message names: at most capacity-1 characters. */
  method SetReportSymbolBounded(test: Test?, symbol: Option<string>) returns (r: Option<string>)
    modifies test
    ensures test != null && old(test.Valid()) ==> test.Valid()
    ensures r.Some? ==> test != null && |test.reportSymbol| < test.reportSymbolCapacity
    ensures r.Some? <==> test != null && symbol.Some? && |symbol.value| <= test.reportSymbolCapacity - 1
    ensures r.Some? ==> r == symbol && test.Snapshot() == old(test.Snapshot()).(reportSymbol := symbol.value)
    ensures r.None? && test != null ==> test.Snapshot() == old(test.Snapshot())
  {
    if test == null {
      return None;
    }
    if symbol.None? {
      return None;
    }
    var len := |symbol.value|;
    if len > test.reportSymbolCapacity - 1 {
      return None;
    }
    test.reportSymbol := symbol.value;
    return symbol;
  }

  /**
   * Sets the symbol as the source does: the empty symbol is refused, but any
   * length up to the full size of the char array is accepted.
   */
  method SetSymbol(test: Test?, symbol: Option<string>) returns (r: Option<string>)
    modifies test
    ensures r.Some? <==> test != null && symbol.Some? && 1 <= |symbol.value| <= test.symbolCapacity
    ensures r.Some? ==> r == symbol && test.Snapshot() == old(test.Snapshot()).(symbol := symbol.value)
    ensures r.None? && test != null ==> test.Snapshot() == old(test.Snapshot())
  {
    if test == null {
      return None;
    }
    if symbol.None? {
      return None;
    }
    var len := |symbol.value|;
    if len == 0 || len > test.symbolCapacity {
      return None;
    }
    test.symbol := symbol.value;
    return symbol;
  }

  /** SetSymbol with the bound its error message names: 1 to capacity-1 characters. */
  method SetSymbolBounded(test: Test?, symbol: Option<string>) returns (r: Option<string>)
    modifies test
    ensures test != null && old(test.Valid()) ==> test.Valid()
    ensures r.Some? ==> test != null && |test.symbol| < test.symbolCapacity
    ensures r.Some? <==> test != null && symbol.Some? && 1 <= |symbol.value| <= test.symbolCapacity - 1
    ensures r.Some? ==> r == symbol && test.Snapshot() == old(test.Snapshot()).(symbol := symbol.value)
    ensures r.None? && test != null ==> test.Snapshot() == old(test.Snapshot())
  {
    if test == null {
      return None;
    }
    if symbol.None? {
      return None;
    }
    var len := |symbol.value|;
    if len == 0 || len > test.symbolCapacity - 1 {
      return None;
    }
    test.symbol := symbol.value;
    return symbol;
  }

  /**
   * A symbol exactly as long as its char array passes the checks of
   * SetSymbol and SetReportSymbol, and the record then no longer holds a
   * NUL-terminated string in that field.
   */
  method SymbolAtCapacityOverflows(capacity: nat) returns (test: Test, symbolSet: Option<string>, reportSymbolSet: Option<string>)
    requires 0 < capacity
    ensures symbolSet.Some? && reportSymbolSet.Some?
    ensures |test.symbol| == capacity && |test.reportSymbol| == capacity
    ensures !test.Valid()
  {
    test := new Test(capacity, capacity, capacity);
    var s := seq(capacity, _ => 'X');
    symbolSet := SetSymbol(test, Some(s));
    reportSymbolSet := SetReportSymbol(test, Some(s));
  }

  /**
   * Sets the timeframe. The value is refused when its signed 32-bit reading is
   * not positive, that is when it is 0 or at least 2^31. Returns it.
   */
  method SetTimeframe(test: Test?, timeframe: uint32) returns (r: uint32)
    modifies test
    ensures r != ERROR_RESULT <==> test != null && 0 < timeframe < 0x8000_0000
    ensures r != ERROR_RESULT ==> r == timeframe && test.Snapshot() == old(test.Snapshot()).(timeframe := timeframe)
    ensures r == ERROR_RESULT && test != null ==> test.Snapshot() == old(test.Snapshot())
  {
    if test == null {
      return ERROR_RESULT;
    }
    if AsInt32(timeframe) <= 0 {
      return ERROR_RESULT;
    }
    test.timeframe := timeframe;
    return timeframe;
  }

  /** Sets the time of the first tick, which must be positive; returns it. */
  method SetStartTime(test: Test?, time: int) returns (r: int)
    modifies test
    ensures r != ERROR_RESULT <==> test != null && time > 0
    ensures r != ERROR_RESULT ==> r == time && test.Snapshot() == old(test.Snapshot()).(startTime := time)
    ensures r == ERROR_RESULT && test != null ==> test.Snapshot() == old(test.Snapshot())
  {
    if test == null {
      return ERROR_RESULT;
    }
    if time <= 0 {
      return ERROR_RESULT;
    }
    test.startTime := time;
    return time;
  }

  /** Sets the time of the last tick, which must be positive; returns it. */
  method SetEndTime(test: Test?, time: int) returns (r: int)
    modifies test
    ensures r != ERROR_RESULT <==> test != null && time > 0
    ensures r != ERROR_RESULT ==> r == time && test.Snapshot() == old(test.Snapshot()).(endTime := time)
    ensures r == ERROR_RESULT && test != null ==> test.Snapshot() == old(test.Snapshot())
  {
    if test == null {
      return ERROR_RESULT;
    }
    if time <= 0 {
      return ERROR_RESULT;
    }
    test.endTime := time;
    return time;
  }

  /**
   * Sets the bar model as the source does: one of the three models is stored
   * and returned, any other value gives EMPTY, but a NULL test gives the error
   * report's own value, ERROR_RESULT.
   */
  method SetBarModel(test: Test?, modelType: int) returns (r: int)
    modifies test
    ensures test == null ==> r == ERROR_RESULT
    ensures test != null && IsBarModel(modelType) ==>
      r == modelType && test.Snapshot() == old(test.Snapshot()).(barModel := modelType)
    ensures test != null && !IsBarModel(modelType) ==>
      r == EMPTY && test.Snapshot() == old(test.Snapshot())
  {
    if test == null {
      return ERROR_RESULT;
    }
    if modelType == BARMODEL_EVERYTICK || modelType == BARMODEL_CONTROLPOINTS || modelType == BARMODEL_BAROPEN {
      test.barModel := modelType;
      return modelType;
    }
    return EMPTY;
  }

  /**
   * With a NULL test, SetBarModel answers exactly what a successful call that
   * stores BARMODEL_EVERYTICK answers, so a caller cannot tell the two apart.
   */
  method NullTestLooksLikeEveryTick() returns (onNull: int, onSuccess: int)
    ensures onNull == onSuccess && onNull != EMPTY
  {
    onNull := SetBarModel(null, BARMODEL_EVERYTICK);
    var test := new Test(1, 1, 1);
    onSuccess := SetBarModel(test, BARMODEL_EVERYTICK);
  }

  /** SetBarModel that answers EMPTY on every error, the NULL test included. */
  method SetBarModelChecked(test: Test?, modelType: int) returns (r: int)
    modifies test
    ensures r == EMPTY <==> test == null || !IsBarModel(modelType)
    ensures r != EMPTY ==> r == modelType && test.Snapshot() == old(test.Snapshot()).(barModel := modelType)
    ensures r == EMPTY && test != null ==> test.Snapshot() == old(test.Snapshot())
  {
    if test == null {
      return EMPTY;
    }
    if modelType == BARMODEL_EVERYTICK || modelType == BARMODEL_CONTROLPOINTS || modelType == BARMODEL_BAROPEN {
      test.barModel := modelType;
      return modelType;
    }
    return EMPTY;
  }

  /** Sets the number of bars, which must not be 0; returns it. */
  method SetBars(test: Test?, bars: uint32) returns (r: uint32)
    modifies test
    ensures r != ERROR_RESULT <==> test != null && bars != 0
    ensures r != ERROR_RESULT ==> r == bars && test.Snapshot() == old(test.Snapshot()).(bars := bars)
    ensures r == ERROR_RESULT && test != null ==> test.Snapshot() == old(test.Snapshot())
  {
    if test == null {
      return ERROR_RESULT;
    }
    if bars <= 0 {
      return ERROR_RESULT;
    }
    test.bars := bars;
    return bars;
  }

  /** Sets the number of ticks, which must not be 0; returns it. */
  method SetTicks(test: Test?, ticks: uint32) returns (r: uint32)
    modifies test
    ensures r != ERROR_RESULT <==> test != null && ticks != 0
    ensures r != ERROR_RESULT ==> r == ticks && test.Snapshot() == old(test.Snapshot()).(ticks := ticks)
    ensures r == ERROR_RESULT && test != null ==> test.Snapshot() == old(test.Snapshot())
  {
    if test == null {
      return ERROR_RESULT;
    }
    if ticks <= 0 {
      return ERROR_RESULT;
    }
    test.ticks := ticks;
    return ticks;
  }
}
