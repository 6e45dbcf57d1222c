/**
 * The tick-timer subsystem: a process-wide registry of timers that post
 * synthetic ticks (or chart commands) into a window's message queue.
 *
 * The Win32 calls the subsystem makes are inputs of the model, gathered in
 * `Os`; what it reports, posts and asks of the OS is recorded in the ghost
 * trace `events` of the registry.
 */
module TickTimers {
  import opened Wrappers

  // Delivery flags of a timer (a DWORD bitset).
  const TICK_CHART_REFRESH: bv32 := 1
  const TICK_TESTER: bv32 := 2
  const TICK_IF_VISIBLE: bv32 := 4
  const TICK_PAUSE_ON_WEEKEND: bv32 := 8

  /** Start value of the id counter: the first id handed out is one above it. */
  const FIRST_ID_BASE: nat := 10000

  predicate Has(flags: bv32, flag: bv32) {
    flags & flag != 0
  }

  /** A window handle; 0 stands for NULL. */
  type WindowHandle = nat

  /** A thread id; 0 is what the OS reports as the owner of something that is not a window. */
  type ThreadId = nat

  /** One registered timer (TICK_TIMER_DATA); immutable once created. */
  datatype TickTimerData = TickTimerData(id: nat, hWnd: WindowHandle, flags: bv32)

  datatype ErrorCode = NoError | InvalidParameter | Win32Error | RuntimeError | NotImplemented

  /** What a logged warning or error is about. */
  datatype Subject =
    | NotAWindow(hWnd: WindowHandle)
    | ForeignWindow(hWnd: WindowHandle)
    | Period(millis: int)
    | FlagCombination
    | WeekendPause
    | ClipBox(hWnd: WindowHandle)
    | TimerId(id: int)

  /** The three kinds of message a firing can post. */
  datatype Message =
    | ChartRefresh       // WM_COMMAND with ID_CHART_REFRESH
    | ChartStepForward   // WM_COMMAND with ID_CHART_STEPFORWARD
    | OfflineTick        // the host's internal message, MT4_TICK with the TICK_OFFLINE_EA marker

  /** The region codes GetClipBox can answer. */
  datatype ClipRegion = NullRegion | SimpleRegion | ComplexRegion | RegionError

  /** Observable effects, in the order they happen. */
  datatype Event =
    | Warn(code: ErrorCode, subject: Subject)
    | Error(code: ErrorCode, subject: Subject)
    | SetTimerCall(hWnd: WindowHandle, id: nat, millis: int)
    | KillTimerCall(hWnd: WindowHandle, id: nat)
    | Post(hWnd: WindowHandle, msg: Message)

  /** The answers of the operating system, as functions of the call's arguments. */
  datatype Os = Os(
    windowThread: WindowHandle -> ThreadId,        // GetWindowThreadProcessId
    currentThread: ThreadId,                       // GetCurrentThreadId
    setTimer: (WindowHandle, nat, int) -> nat,     // SetTimer(hWnd, id, millis)
    killTimer: (WindowHandle, nat) -> bool,        // KillTimer(hWnd, id)
    clipBox: WindowHandle -> ClipRegion)           // GetClipBox on the window's DC

  /** Registered ids are distinct and appear in the order they were handed out. */
  ghost predicate IdsIncreasing(ts: seq<TickTimerData>) {
    forall j, k :: 0 <= j < k < |ts| ==> ts[j].id < ts[k].id
  }

  /** The linear search by id: the first index holding `id`, if any. */
  function Find(ts: seq<TickTimerData>, id: int): (r: Option<nat>)
    ensures r.Some? ==> r.value < |ts| && ts[r.value].id == id
    ensures r.Some? ==> forall j :: 0 <= j < r.value ==> ts[j].id != id
    ensures r.None? ==> forall j :: 0 <= j < |ts| ==> ts[j].id != id
  {
    if ts == [] then None
    else if ts[0].id == id then Some(0)
    else match Find(ts[1..], id)
      case None => None
      case Some(k) => Some(k + 1)
  }

  /**
   * Why SetupTickTimer refuses its arguments, checked in the source's order:
   * the window's owner thread, then the period, then the flag combination.
   */
  function SetupRejection(hWnd: WindowHandle, millis: int, flags: bv32, os: Os): (r: Option<Subject>)
    ensures r.None? <==>
      os.windowThread(hWnd) == os.currentThread && millis > 0 &&
      !(Has(flags, TICK_CHART_REFRESH) && Has(flags, TICK_TESTER))
    ensures r == Some(NotAWindow(hWnd)) <==>
      os.windowThread(hWnd) != os.currentThread && os.windowThread(hWnd) == 0
    ensures r == Some(ForeignWindow(hWnd)) <==>
      os.windowThread(hWnd) != os.currentThread && os.windowThread(hWnd) != 0
    ensures r == Some(Period(millis)) <==>
      os.windowThread(hWnd) == os.currentThread && millis <= 0
    ensures r == Some(FlagCombination) <==>
      os.windowThread(hWnd) == os.currentThread && millis > 0 &&
      Has(flags, TICK_CHART_REFRESH) && Has(flags, TICK_TESTER)
  {
    var owner := os.windowThread(hWnd);
    if owner != os.currentThread then
      (if owner == 0 then Some(NotAWindow(hWnd)) else Some(ForeignWindow(hWnd)))
    else if millis <= 0 then Some(Period(millis))
    else if Has(flags, TICK_CHART_REFRESH) && Has(flags, TICK_TESTER) then Some(FlagCombination)
    else None
  }

  /** The warning a setup with the (unimplemented) weekend flag emits. */
  function WeekendWarning(flags: bv32): seq<Event> {
    if Has(flags, TICK_PAUSE_ON_WEEKEND) then [Warn(NotImplemented, WeekendPause)] else []
  }

  /** The message a firing posts, by flag priority: refresh, then tester step, then the default tick. */
  function Delivery(flags: bv32): (m: Message)
    ensures m == ChartRefresh <==> Has(flags, TICK_CHART_REFRESH)
    ensures m == ChartStepForward <==> !Has(flags, TICK_CHART_REFRESH) && Has(flags, TICK_TESTER)
    ensures m == OfflineTick <==> !Has(flags, TICK_CHART_REFRESH) && !Has(flags, TICK_TESTER)
  {
    if Has(flags, TICK_CHART_REFRESH) then ChartRefresh
    else if Has(flags, TICK_TESTER) then ChartStepForward
    else OfflineTick
  }

  /** Is a Post among the events? */
  predicate Posts(evs: seq<Event>) {
    exists k :: 0 <= k < |evs| && evs[k].Post?
  }

  /**
   * The effects of one firing of timer `timerId` on window `hWnd`, given the
   * answer `region` the visibility query would give.
   */
  function Firing(ts: seq<TickTimerData>, hWnd: WindowHandle, timerId: int, region: ClipRegion): (evs: seq<Event>)
    ensures |evs| <= 1
    ensures Find(ts, timerId).None? ==> evs == [Warn(RuntimeError, TimerId(timerId))]
    ensures Posts(evs) <==>
      Find(ts, timerId).Some? &&
      (!Has(ts[Find(ts, timerId).value].flags, TICK_IF_VISIBLE) || region == SimpleRegion || region == ComplexRegion)
    ensures Posts(evs) ==> evs == [Post(hWnd, Delivery(ts[Find(ts, timerId).value].flags))]
    ensures evs == [] <==>
      Find(ts, timerId).Some? && Has(ts[Find(ts, timerId).value].flags, TICK_IF_VISIBLE) && region == NullRegion
    ensures Find(ts, timerId).Some? && Has(ts[Find(ts, timerId).value].flags, TICK_IF_VISIBLE) && region == RegionError ==>
      evs == [Warn(Win32Error, ClipBox(hWnd))]
  {
    match Find(ts, timerId)
    case None => [Warn(RuntimeError, TimerId(timerId))]
    case Some(i) =>
      var flags := ts[i].flags;
      if Has(flags, TICK_IF_VISIBLE) && region == NullRegion then []
      else if Has(flags, TICK_IF_VISIBLE) && region == RegionError then [Warn(Win32Error, ClipBox(hWnd))]
      else
        assert region == SimpleRegion || region == ComplexRegion || !Has(flags, TICK_IF_VISIBLE);
        var evs := [Post(hWnd, Delivery(flags))];
        assert evs[0].Post?;
        assert Posts(evs);
        evs
  }

  /** The effects of removing one orphaned entry during the final drain. */
  function OrphanEvents(e: TickTimerData, kill: (WindowHandle, nat) -> bool): seq<Event> {
    [Warn(NoError, TimerId(e.id)), KillTimerCall(e.hWnd, e.id)] +
    (if kill(e.hWnd, e.id) then [] else [Error(Win32Error, TimerId(e.id))])
  }

  /** The effects of draining `ts`, walked from its last entry to its first. */
  function DrainEvents(ts: seq<TickTimerData>, kill: (WindowHandle, nat) -> bool): seq<Event> {
    if ts == [] then [] else DrainEvents(ts[1..], kill) + OrphanEvents(ts[0], kill)
  }

  /** The entries whose KillTimer fails, in their original order. */
  function Survivors(ts: seq<TickTimerData>, kill: (WindowHandle, nat) -> bool): seq<TickTimerData> {
    if ts == [] then []
    else (if kill(ts[0].hWnd, ts[0].id) then [] else [ts[0]]) + Survivors(ts[1..], kill)
  }

  /** The ids named by the "removing orphaned timer" warnings among `evs`, in order. */
  function OrphanWarnings(evs: seq<Event>): seq<int> {
    if evs == [] then [] else OrphanWarning(evs[0]) + OrphanWarnings(evs[1..])
  }

  function OrphanWarning(e: Event): seq<int> {
    match e
    case Warn(NoError, TimerId(id)) => [id]
    case _ => []
  }

  /** The entry at index `i` taken out, the others kept in order (vector::erase). */
  function RemoveAt(ts: seq<TickTimerData>, i: nat): seq<TickTimerData>
    requires i < |ts|
  {
    ts[..i] + ts[i + 1..]
  }

  /** The outcome of a removal: success, the entries left, and the effects in order. */
  datatype Removal = Removal(ok: bool, rest: seq<TickTimerData>, effects: seq<Event>)

  /** Removing timer `timerId` from `ts` when KillTimer answers `kill`. */
  function RemoveById(ts: seq<TickTimerData>, timerId: int, kill: (WindowHandle, nat) -> bool): (r: Removal)
    ensures r.ok ==> |r.rest| == |ts| - 1
    ensures !r.ok ==> r.rest == ts
  {
    if timerId <= 0 then Removal(false, ts, [Error(InvalidParameter, TimerId(timerId))])
    else match Find(ts, timerId)
      case None => Removal(false, ts, [Error(RuntimeError, TimerId(timerId))])
      case Some(i) =>
        var e := ts[i];
        if kill(e.hWnd, e.id) then Removal(true, RemoveAt(ts, i), [KillTimerCall(e.hWnd, e.id)])
        else Removal(false, ts, [KillTimerCall(e.hWnd, e.id), Error(Win32Error, TimerId(timerId))])
  }

  /** The registry's invariant over the entries and the id counter. */
  ghost predicate Registered(ts: seq<TickTimerData>, lastId: nat) {
    FIRST_ID_BASE <= lastId &&
    IdsIncreasing(ts) &&
    (forall k :: 0 <= k < |ts| ==> FIRST_ID_BASE < ts[k].id <= lastId) &&
    (forall k :: 0 <= k < |ts| ==> !(Has(ts[k].flags, TICK_CHART_REFRESH) && Has(ts[k].flags, TICK_TESTER)))
  }

  /** The search for the id at index `i` finds `i` when no earlier entry holds that id. */
  lemma FindFirst(ts: seq<TickTimerData>, i: nat)
    requires i < |ts| && forall j :: 0 <= j < i ==> ts[j].id != ts[i].id
    ensures Find(ts, ts[i].id) == Some(i)
  {
  }

  /** In a registry with increasing ids, the search for a registered id finds its own index. */
  lemma FindRegistered(ts: seq<TickTimerData>, i: nat)
    requires IdsIncreasing(ts) && i < |ts|
    ensures Find(ts, ts[i].id) == Some(i)
  {
    FindFirst(ts, i);
  }

  /** Where each entry goes when the entry at `i` is erased. */
  lemma RemoveAtIndex(ts: seq<TickTimerData>, i: nat)
    requires i < |ts|
    ensures |RemoveAt(ts, i)| == |ts| - 1
    ensures forall k :: 0 <= k < i ==> RemoveAt(ts, i)[k] == ts[k]
    ensures forall k :: i <= k < |ts| - 1 ==> RemoveAt(ts, i)[k] == ts[k + 1]
  {
  }

  /** Erasing an entry keeps the registry's invariant. */
  lemma RemoveAtKeepsRegistry(ts: seq<TickTimerData>, lastId: nat, i: nat)
    requires Registered(ts, lastId) && i < |ts|
    ensures Registered(RemoveAt(ts, i), lastId)
  {
    RemoveAtIndex(ts, i);
  }

  /** Erasing an entry keeps every other id findable exactly when it was. */
  lemma RemoveAtKeepsOthers(ts: seq<TickTimerData>, i: nat, id: int)
    requires i < |ts| && id != ts[i].id
    ensures Find(RemoveAt(ts, i), id).Some? <==> Find(ts, id).Some?
  {
    var rest := RemoveAt(ts, i);
    RemoveAtIndex(ts, i);
    if Find(ts, id).Some? {
      var k := Find(ts, id).value;
      assert rest[if k < i then k else k - 1].id == id;
    }
    if Find(rest, id).Some? {
      var k := Find(rest, id).value;
      assert ts[if k < i then k else k + 1].id == id;
    }
  }

  /**
   * After erasing an entry its id is no longer found, so a second removal of
   * the same id fails; every other id is found exactly when it was before.
   */
  lemma RemoveAtForgetsOnlyIt(ts: seq<TickTimerData>, i: nat)
    requires IdsIncreasing(ts) && i < |ts|
    ensures Find(RemoveAt(ts, i), ts[i].id).None?
    ensures forall id :: id != ts[i].id ==> (Find(RemoveAt(ts, i), id).Some? <==> Find(ts, id).Some?)
  {
    RemoveAtIndex(ts, i);
    forall id | id != ts[i].id
      ensures Find(RemoveAt(ts, i), id).Some? <==> Find(ts, id).Some?
    {
      RemoveAtKeepsOthers(ts, i, id);
    }
  }

  /** A removal that fails leaves the entries as they were. */
  lemma FailedRemovalChangesNothing(ts: seq<TickTimerData>, timerId: int, kill: (WindowHandle, nat) -> bool)
    ensures !RemoveById(ts, timerId, kill).ok ==> RemoveById(ts, timerId, kill).rest == ts
    ensures timerId <= 0 || Find(ts, timerId).None? ==>
      !RemoveById(ts, timerId, kill).ok && |RemoveById(ts, timerId, kill).effects| == 1 &&
      RemoveById(ts, timerId, kill).effects[0].Error?
  {
  }

  /**
   * Removing the id of the first entry that holds it calls KillTimer on that
   * entry's window; it succeeds iff KillTimer does, and then erases exactly
   * that entry.
   */
  lemma RemoveFirst(ts: seq<TickTimerData>, i: nat, kill: (WindowHandle, nat) -> bool)
    requires i < |ts| && 0 < ts[i].id && forall j :: 0 <= j < i ==> ts[j].id != ts[i].id
    ensures RemoveById(ts, ts[i].id, kill) ==
      if kill(ts[i].hWnd, ts[i].id) then Removal(true, RemoveAt(ts, i), [KillTimerCall(ts[i].hWnd, ts[i].id)])
      else Removal(false, ts, [KillTimerCall(ts[i].hWnd, ts[i].id), Error(Win32Error, TimerId(ts[i].id))])
  {
    FindFirst(ts, i);
  }

  /** After a successful removal, removing the same id again fails as "not found" and changes nothing. */
  lemma SecondRemovalFails(ts: seq<TickTimerData>, lastId: nat, timerId: int, kill: (WindowHandle, nat) -> bool,
                           kill2: (WindowHandle, nat) -> bool)
    requires Registered(ts, lastId) && RemoveById(ts, timerId, kill).ok
    ensures var rest := RemoveById(ts, timerId, kill).rest;
      RemoveById(rest, timerId, kill2) == Removal(false, rest, [Error(RuntimeError, TimerId(timerId))])
  {
    var i := Find(ts, timerId).value;
    RemoveAtForgetsOnlyIt(ts, i);
  }

  /** Appending an entry with a fresh, larger id keeps the invariant. */
  lemma AppendKeepsRegistry(ts: seq<TickTimerData>, lastId: nat, e: TickTimerData)
    requires Registered(ts, lastId) && e.id == lastId + 1
    requires !(Has(e.flags, TICK_CHART_REFRESH) && Has(e.flags, TICK_TESTER))
    ensures Registered(ts + [e], lastId + 1)
  {
  }

  /** The drain's specification unfolded at the walk's position. */
  lemma DrainStep(ts0: seq<TickTimerData>, i: nat, kill: (WindowHandle, nat) -> bool)
    requires i < |ts0|
    ensures ts0[i..][1..] == ts0[i + 1..]
    ensures Survivors(ts0[i..], kill) ==
      (if kill(ts0[i].hWnd, ts0[i].id) then [] else [ts0[i]]) + Survivors(ts0[i + 1..], kill)
    ensures DrainEvents(ts0[i..], kill) == DrainEvents(ts0[i + 1..], kill) + OrphanEvents(ts0[i], kill)
    ensures ts0[..i + 1] == ts0[..i] + [ts0[i]]
  {
    assert ts0[i..][1..] == ts0[i + 1..];
  }

  /** Erasing the walk's position from the not-yet-walked prefix plus the survivors so far. */
  lemma RemoveAtPrefix(ts0: seq<TickTimerData>, i: nat, rest: seq<TickTimerData>)
    requires i < |ts0|
    ensures (ts0[..i + 1] + rest)[i] == ts0[i]
    ensures RemoveAt(ts0[..i + 1] + rest, i) == ts0[..i] + rest
    ensures ts0[..i + 1] + rest == ts0[..i] + ([ts0[i]] + rest)
  {
    var whole := ts0[..i + 1] + rest;
    assert whole[..i] == ts0[..i];
    assert whole[i + 1..] == rest;
  }

  /**
   * Regrouping the effects of one loop pass with those of the passes after it.
   * Stated apart so that the drain proofs use it as one fact rather than
   * re-deriving sequence associativity in their own, larger contexts.
   */
  lemma Regroup(p: seq<Event>, w: Event, q: seq<Event>, t: seq<Event>)
    ensures p + [w] + q + t == p + ([w] + q + t)
  {
  }

  /** Regrouping an orphan's warning with its KillTimer call, for the same reason. */
  lemma AppendOrphan(q: seq<Event>, w: Event, k: Event, t: seq<Event>)
    ensures q + [w] + ([k] + t) == q + ([w, k] + t)
  {
  }

  /** The drain's position is inside the not-yet-walked prefix, which is unchanged up to it. */
  lemma DrainPosition(ts0: seq<TickTimerData>, i: nat, kill: (WindowHandle, nat) -> bool, before: seq<TickTimerData>)
    requires i < |ts0| && before == ts0[..i + 1] + Survivors(ts0[i + 1..], kill)
    ensures i < |before| && forall j :: 0 <= j <= i ==> before[j] == ts0[j]
  {
  }

  /** One pass of the drain loop: the state it leaves is the drain of one more entry. */
  lemma DrainLoopStep(ts0: seq<TickTimerData>, i: nat, kill: (WindowHandle, nat) -> bool, before: seq<TickTimerData>)
    requires i < |ts0| && 0 < ts0[i].id && forall j :: 0 <= j < i ==> ts0[j].id != ts0[i].id
    requires before == ts0[..i + 1] + Survivors(ts0[i + 1..], kill)
    ensures RemoveById(before, ts0[i].id, kill).rest == ts0[..i] + Survivors(ts0[i..], kill)
    ensures DrainEvents(ts0[i + 1..], kill) + [Warn(NoError, TimerId(ts0[i].id))] + RemoveById(before, ts0[i].id, kill).effects
         == DrainEvents(ts0[i..], kill)
  {
    DrainStep(ts0, i, kill);
    var rest := Survivors(ts0[i + 1..], kill);
    RemoveAtPrefix(ts0, i, rest);
    DrainPosition(ts0, i, kill, before);
    RemoveFirst(before, i, kill);
    var e := ts0[i];
    var tail := if kill(e.hWnd, e.id) then [] else [Error(Win32Error, TimerId(e.id))];
    assert RemoveById(before, e.id, kill).effects == [KillTimerCall(e.hWnd, e.id)] + tail;
    AppendOrphan(DrainEvents(ts0[i + 1..], kill), Warn(NoError, TimerId(e.id)), KillTimerCall(e.hWnd, e.id), tail);
  }

  /** What the drain loop leaves: the entries not removed, and the effects in order. */
  datatype Drained = Drained(rest: seq<TickTimerData>, effects: seq<Event>)

  /**
   * The drain loop as written: warn about the entry at index `i`, remove it
   * by its id, and carry on with index `i - 1` down to 0.
   */
  function DrainFrom(ts: seq<TickTimerData>, i: int, kill: (WindowHandle, nat) -> bool): Drained
    decreases i + 1
  {
    if i < 0 || |ts| <= i then Drained(ts, [])
    else
      var removal := RemoveById(ts, ts[i].id, kill);
      var later := DrainFrom(removal.rest, i - 1, kill);
      Drained(later.rest, [Warn(NoError, TimerId(ts[i].id))] + removal.effects + later.effects)
  }

  /**
   * Walking the registry from index `i` down to 0, removing each entry by its
   * id, leaves the survivors of the whole walk and the rest of its events.
   */
  lemma {:induction false} DrainFromMeetsSpec(ts0: seq<TickTimerData>, i: int, lastId: nat, kill: (WindowHandle, nat) -> bool)
    requires -1 <= i < |ts0| && Registered(ts0, lastId)
    ensures DrainFrom(ts0[..i + 1] + Survivors(ts0[i + 1..], kill), i, kill).rest == Survivors(ts0, kill)
    ensures DrainEvents(ts0[i + 1..], kill) + DrainFrom(ts0[..i + 1] + Survivors(ts0[i + 1..], kill), i, kill).effects
         == DrainEvents(ts0, kill)
    decreases i + 1
  {
    var before := ts0[..i + 1] + Survivors(ts0[i + 1..], kill);
    if i < 0 {
      assert ts0[0..] == ts0;
      assert before == Survivors(ts0, kill);
    } else {
      DrainPosition(ts0, i, kill, before);
      var id := ts0[i].id;
      assert forall j :: 0 <= j < i ==> ts0[j].id < id;
      DrainLoopStep(ts0, i, kill, before);
      DrainFromMeetsSpec(ts0, i - 1, lastId, kill);
      var removal := RemoveById(before, id, kill);
      var later := DrainFrom(removal.rest, i - 1, kill);
      assert DrainFrom(before, i, kill).effects == [Warn(NoError, TimerId(id))] + removal.effects + later.effects;
      Regroup(DrainEvents(ts0[i + 1..], kill), Warn(NoError, TimerId(id)), removal.effects, later.effects);
    }
  }

  /** Draining a whole registry removes exactly the entries whose KillTimer succeeds. */
  lemma DrainWhole(ts: seq<TickTimerData>, lastId: nat, kill: (WindowHandle, nat) -> bool)
    requires Registered(ts, lastId)
    ensures DrainFrom(ts, |ts| - 1, kill) == Drained(Survivors(ts, kill), DrainEvents(ts, kill))
  {
    assert ts[..|ts|] + Survivors(ts[|ts|..], kill) == ts;
    DrainFromMeetsSpec(ts, |ts| - 1, lastId, kill);
  }

  lemma {:induction false} DrainAllKilled(ts: seq<TickTimerData>, kill: (WindowHandle, nat) -> bool)
    requires forall k :: 0 <= k < |ts| ==> kill(ts[k].hWnd, ts[k].id)
    ensures Survivors(ts, kill) == []
  {
    if ts != [] {
      assert kill(ts[0].hWnd, ts[0].id);
      DrainAllKilled(ts[1..], kill);
    }
  }

  /** A survivor is a registered entry whose KillTimer failed. */
  lemma {:induction false} SurvivorsAreFailedKills(ts: seq<TickTimerData>, kill: (WindowHandle, nat) -> bool)
    ensures forall e :: e in Survivors(ts, kill) ==> e in ts && !kill(e.hWnd, e.id)
  {
    if ts != [] {
      SurvivorsAreFailedKills(ts[1..], kill);
    }
  }

  /** The survivors of a drain keep their registration order. */
  lemma {:induction false} SurvivorsIncreasing(ts: seq<TickTimerData>, kill: (WindowHandle, nat) -> bool)
    requires IdsIncreasing(ts)
    ensures IdsIncreasing(Survivors(ts, kill))
  {
    if ts != [] {
      var tail := Survivors(ts[1..], kill);
      SurvivorsIncreasing(ts[1..], kill);
      SurvivorsAreFailedKills(ts[1..], kill);
      forall k | 0 <= k < |tail|
        ensures ts[0].id < tail[k].id
      {
        assert tail[k] in ts[1..];
      }
      var head := if kill(ts[0].hWnd, ts[0].id) then [] else [ts[0]];
      assert Survivors(ts, kill) == head + tail;
    }
  }

  /** What a drain leaves behind still satisfies the registry's invariant. */
  lemma SurvivorsKeepRegistry(ts: seq<TickTimerData>, lastId: nat, kill: (WindowHandle, nat) -> bool)
    requires Registered(ts, lastId)
    ensures Registered(Survivors(ts, kill), lastId)
  {
    SurvivorsAreFailedKills(ts, kill);
    SurvivorsIncreasing(ts, kill);
    var s := Survivors(ts, kill);
    forall k | 0 <= k < |s|
      ensures FIRST_ID_BASE < s[k].id <= lastId
      ensures !(Has(s[k].flags, TICK_CHART_REFRESH) && Has(s[k].flags, TICK_TESTER))
    {
      assert s[k] in ts;
    }
  }

  lemma {:induction false} OrphanWarningsAppend(a: seq<Event>, b: seq<Event>)
    ensures OrphanWarnings(a + b) == OrphanWarnings(a) + OrphanWarnings(b)
  {
    if a != [] {
      assert (a + b)[0] == a[0];
      assert (a + b)[1..] == a[1..] + b;
      OrphanWarningsAppend(a[1..], b);
      assert OrphanWarnings(a + b) == OrphanWarning(a[0]) + (OrphanWarnings(a[1..]) + OrphanWarnings(b));
    } else {
      assert a + b == b;
    }
  }

  /** The drain warns once per entry, in reverse registration order. */
  lemma {:induction false} DrainWarnsInReverse(ts: seq<TickTimerData>, kill: (WindowHandle, nat) -> bool)
    ensures |OrphanWarnings(DrainEvents(ts, kill))| == |ts|
    ensures forall k :: 0 <= k < |ts| ==> OrphanWarnings(DrainEvents(ts, kill))[k] == ts[|ts| - 1 - k].id
  {
    if ts != [] {
      DrainWarnsInReverse(ts[1..], kill);
      var e := ts[0];
      var tail := if kill(e.hWnd, e.id) then [] else [Error(Win32Error, TimerId(e.id))];
      OrphanWarningsAppend(DrainEvents(ts[1..], kill), OrphanEvents(e, kill));
      OrphanWarningsAppend([Warn(NoError, TimerId(e.id)), KillTimerCall(e.hWnd, e.id)], tail);
      assert OrphanWarnings([KillTimerCall(e.hWnd, e.id)]) == [];
      assert OrphanWarnings(OrphanEvents(e, kill)) == [e.id];
    }
  }

  /** The drain asks the OS to stop every registered timer, with its own window and id. */
  lemma {:induction false} DrainKillsEvery(ts: seq<TickTimerData>, kill: (WindowHandle, nat) -> bool)
    ensures forall k :: 0 <= k < |ts| ==> KillTimerCall(ts[k].hWnd, ts[k].id) in DrainEvents(ts, kill)
  {
    if ts != [] {
      DrainKillsEvery(ts[1..], kill);
      assert KillTimerCall(ts[0].hWnd, ts[0].id) in OrphanEvents(ts[0], kill);
      forall k | 1 <= k < |ts|
        ensures KillTimerCall(ts[k].hWnd, ts[k].id) in DrainEvents(ts, kill)
      {
        assert ts[1..][k - 1] == ts[k];
      }
    }
  }

  /** The search only looks at ids, never at windows or flags. */
  lemma {:induction false} FindIgnoresFlags(ts: seq<TickTimerData>, us: seq<TickTimerData>, id: int)
    requires |ts| == |us|
    requires forall k :: 0 <= k < |ts| ==> ts[k].id == us[k].id
    ensures Find(ts, id) == Find(us, id)
  {
    if ts != [] {
      FindIgnoresFlags(ts[1..], us[1..], id);
    }
  }

  /** The bits a firing looks at. */
  const FIRING_BITS: bv32 := TICK_CHART_REFRESH | TICK_TESTER | TICK_IF_VISIBLE

  /** Flags that agree on the firing bits select the same gating and the same message. */
  lemma SameFiringBits(f: bv32, g: bv32)
    requires f & FIRING_BITS == g & FIRING_BITS
    ensures Has(f, TICK_IF_VISIBLE) == Has(g, TICK_IF_VISIBLE)
    ensures Has(f, TICK_CHART_REFRESH) == Has(g, TICK_CHART_REFRESH)
    ensures Has(f, TICK_TESTER) == Has(g, TICK_TESTER)
  {
  }

  /** Flags that differ at most in the weekend bit agree on the firing bits. */
  lemma WeekendOutsideFiringBits(f: bv32, g: bv32)
    requires f & !TICK_PAUSE_ON_WEEKEND == g & !TICK_PAUSE_ON_WEEKEND
    ensures f & FIRING_BITS == g & FIRING_BITS
  {
  }

  /**
   * The weekend flag is inert at firing time: two registries that differ only
   * in the weekend bit of their entries' flags fire identically.
   */
  lemma FiringIgnoresWeekend(ts: seq<TickTimerData>, us: seq<TickTimerData>, hWnd: WindowHandle, timerId: int, region: ClipRegion)
    requires |ts| == |us|
    requires forall k :: 0 <= k < |ts| ==> ts[k].id == us[k].id
    requires forall k :: 0 <= k < |ts| ==>
      ts[k].flags & !TICK_PAUSE_ON_WEEKEND == us[k].flags & !TICK_PAUSE_ON_WEEKEND
    ensures Firing(ts, hWnd, timerId, region) == Firing(us, hWnd, timerId, region)
  {
    FindIgnoresFlags(ts, us, timerId);
    match Find(ts, timerId)
    case None =>
    case Some(i) =>
      WeekendOutsideFiringBits(ts[i].flags, us[i].flags);
      SameFiringBits(ts[i].flags, us[i].flags);
  }

  /** A firing for a removed timer only warns: nothing is delivered after a removal. */
  lemma FiringAfterRemoval(ts: seq<TickTimerData>, lastId: nat, i: nat, hWnd: WindowHandle, region: ClipRegion)
    requires Registered(ts, lastId) && i < |ts|
    ensures Firing(RemoveAt(ts, i), hWnd, ts[i].id, region) == [Warn(RuntimeError, TimerId(ts[i].id))]
  {
    RemoveAtForgetsOnlyIt(ts, i);
  }

  /** The registry of active tick timers together with the id counter. */
  class TickTimerRegistry {
    var timers: seq<TickTimerData>   // all active tick timers, in registration order
    var lastId: nat                  // the last id handed out
    ghost var events: seq<Event>     // everything reported, posted and asked of the OS

    ghost predicate Valid()
      reads this
    {
      Registered(timers, lastId)
    }

    /** The state before any timer was set up. */
    constructor ()
      ensures Valid()
      ensures timers == [] && lastId == FIRST_ID_BASE && events == []
    {
      timers := [];
      lastId := FIRST_ID_BASE;
      events := [];
    }

    /** The linear search shared by the callback and the removal. */
    method IndexOf(id: int) returns (i: int)
      ensures -1 <= i < |timers|
      ensures 0 <= i ==> timers[i].id == id && forall j :: 0 <= j < i ==> timers[j].id != id
      ensures i < 0 ==> forall j :: 0 <= j < |timers| ==> timers[j].id != id
    {
      var size := |timers|;
      i := 0;
      while i < size
        invariant 0 <= i <= size
        invariant forall j :: 0 <= j < i ==> timers[j].id != id
      {
        if timers[i].id == id {
          return;
        }
        i := i + 1;
      }
      i := -1;
    }

    /** The callback the OS invokes each time timer `timerId` of window `hWnd` elapses. */
    method TimerCallback(hWnd: WindowHandle, timerId: int, os: Os)
      requires Valid()
      modifies this
      ensures Valid()
      ensures timers == old(timers) && lastId == old(lastId)
      ensures events == old(events) + Firing(timers, hWnd, timerId, os.clipBox(hWnd))
    {
      var i := IndexOf(timerId);
      if i < 0 {
        events := events + [Warn(RuntimeError, TimerId(timerId))];
        return;
      }
      assert Find(timers, timerId) == Some(i);
      var ttd := timers[i];
      if Has(ttd.flags, TICK_IF_VISIBLE) {
        var rgn := os.clipBox(hWnd);
        if rgn == NullRegion {
          return;
        }
        if rgn == RegionError {
          events := events + [Warn(Win32Error, ClipBox(hWnd))];
          return;
        }
      }
      if Has(ttd.flags, TICK_PAUSE_ON_WEEKEND) {
        // skipping weekend firings is not implemented
      }
      if Has(ttd.flags, TICK_CHART_REFRESH) {
        events := events + [Post(hWnd, ChartRefresh)];
      } else if Has(ttd.flags, TICK_TESTER) {
        events := events + [Post(hWnd, ChartStepForward)];
      } else {
        events := events + [Post(hWnd, OfflineTick)];
      }
    }

    /**
     * Installs a timer that sends synthetic ticks to `hWnd` every `millis`
     * milliseconds. Returns the new timer's id, or 0 on failure.
     */
    method SetupTickTimer(hWnd: WindowHandle, millis: int, flags: bv32, os: Os) returns (r: nat)
      requires Valid()
      modifies this
      ensures Valid()
      ensures var why := SetupRejection(hWnd, millis, flags, os);
        why.Some? ==>
          r == 0 && timers == old(timers) && lastId == old(lastId) &&
          events == old(events) + [Error(InvalidParameter, why.value)]
      ensures SetupRejection(hWnd, millis, flags, os).None? ==>
        lastId == old(lastId) + 1 &&
        events == old(events) + WeekendWarning(flags) + [SetTimerCall(hWnd, lastId, millis)] +
          (if os.setTimer(hWnd, lastId, millis) == lastId then [] else [Error(Win32Error, TimerId(lastId))])
      ensures SetupRejection(hWnd, millis, flags, os).None? && os.setTimer(hWnd, lastId, millis) == lastId ==>
        r == lastId && timers == old(timers) + [TickTimerData(r, hWnd, flags)]
      ensures SetupRejection(hWnd, millis, flags, os).None? && os.setTimer(hWnd, lastId, millis) != lastId ==>
        r == 0 && timers == old(timers)
      ensures r != 0 ==> r > FIRST_ID_BASE && forall k :: 0 <= k < |old(timers)| ==> old(timers)[k].id < r
    {
      var owner := os.windowThread(hWnd);
      if owner != os.currentThread {
        if owner == 0 {
          events := events + [Error(InvalidParameter, NotAWindow(hWnd))];
          return 0;
        }
        events := events + [Error(InvalidParameter, ForeignWindow(hWnd))];
        return 0;
      }
      if millis <= 0 {
        events := events + [Error(InvalidParameter, Period(millis))];
        return 0;
      }
      if Has(flags, TICK_CHART_REFRESH) && Has(flags, TICK_TESTER) {
        events := events + [Error(InvalidParameter, FlagCombination)];
        return 0;
      }
      if Has(flags, TICK_PAUSE_ON_WEEKEND) {
        events := events + [Warn(NotImplemented, WeekendPause)];
      }

      lastId := lastId + 1;

      var result := os.setTimer(hWnd, lastId, millis);
      events := events + [SetTimerCall(hWnd, lastId, millis)];
      if result != lastId {
        events := events + [Error(Win32Error, TimerId(lastId))];
        return 0;
      }

      var ttd := TickTimerData(lastId, hWnd, flags);
      AppendKeepsRegistry(timers, lastId - 1, ttd);
      timers := timers + [ttd];
      return lastId;
    }

    /** Uninstalls the timer with id `timerId`; true on success. */
    method RemoveTickTimer(timerId: int, os: Os) returns (ok: bool)
      requires Valid()
      modifies this
      ensures Valid()
      ensures lastId == old(lastId)
      ensures var removal := RemoveById(old(timers), timerId, os.killTimer);
        ok == removal.ok && timers == removal.rest && events == old(events) + removal.effects
    {
      if timerId <= 0 {
        events := events + [Error(InvalidParameter, TimerId(timerId))];
        return false;
      }
      var i := IndexOf(timerId);
      if i < 0 {
        events := events + [Error(RuntimeError, TimerId(timerId))];
        return false;
      }
      assert Find(timers, timerId) == Some(i);
      var e := timers[i];
      events := events + [KillTimerCall(e.hWnd, e.id)];
      if !os.killTimer(e.hWnd, e.id) {
        events := events + [Error(Win32Error, TimerId(timerId))];
        return false;
      }
      RemoveAtKeepsRegistry(timers, lastId, i);
      timers := RemoveAt(timers, i);
      return true;
    }

    /**
     * Uninstalls every timer still registered, walking from the last entry to
     * the first and warning about each; run once when the module is unloaded.
     */
    method RemoveTickTimers(os: Os)
      requires Valid()
      modifies this
      ensures Valid()
      ensures lastId == old(lastId)
      ensures timers == Survivors(old(timers), os.killTimer)
      ensures events == old(events) + DrainEvents(old(timers), os.killTimer)
    {
      ghost var all := DrainFrom(timers, |timers| - 1, os.killTimer);
      DrainWhole(timers, lastId, os.killTimer);
      var size := |timers|;
      var i := size - 1;
      // the walk still to do from index i ends where the whole walk does
      while i >= 0
        invariant -1 <= i < |timers|
        invariant Valid() && lastId == old(lastId)
        invariant DrainFrom(timers, i, os.killTimer).rest == all.rest
        invariant events + DrainFrom(timers, i, os.killTimer).effects == old(events) + all.effects
      {
        ghost var before, evBefore := timers, events;
        var id := timers[i].id;
        events := events + [Warn(NoError, TimerId(id))];
        var _ := RemoveTickTimer(id, os);
        Regroup(evBefore, Warn(NoError, TimerId(id)), RemoveById(before, id, os.killTimer).effects,
                DrainFrom(timers, i - 1, os.killTimer).effects);
        i := i - 1;
      }
    }
  }
}
