/** The monitor walk of the Windows backend.

    The operating system enumerates the attached monitors in some order and
    calls back once per monitor with its handle, device context and bounding
    rectangle; the callback returns FALSE to end the walk early. Every screen
    query threads an EnumMonitorContext through the walk: an action saying
    what to look for, an offset counter, the captured handle, device context
    and rectangle, and a matched flag.

    Here the enumeration is a loop over a sequence of monitor records, the
    context is a class whose fields the callback updates in place, and the
    whole walk is specified by the pure function Enumerate. The lemmas at the
    end give Enumerate a closed form for each action. */
module MonitorEnum {

  // ---------------------------------------------------------------------
  // Win32 values
  // ---------------------------------------------------------------------

  /** A 32-bit unsigned integer (UINT, DWORD). */
  type Uint32 = x: int | 0 <= x < 0x1_0000_0000

  /** RECT: the four edges, in virtual-desktop coordinates. */
  datatype WinRect = WinRect(left: int, top: int, right: int, bottom: int)

  /** POINT. */
  datatype WinPoint = WinPoint(x: int, y: int)

  /** `RECT rect = {0}`. */
  const ZeroWinRect := WinRect(0, 0, 0, 0)

  /** HMONITOR and HDC are opaque; they are compared by identity only. 0
      stands for nullptr. */
  type MonitorHandle = nat
  type DeviceContext = nat

  const NullHandle: MonitorHandle := 0
  const NullDc: DeviceContext := 0

  /** What the enumeration hands the callback for one monitor. */
  datatype Monitor = Monitor(handle: MonitorHandle, dc: DeviceContext, rect: WinRect)

  // ---------------------------------------------------------------------
  // The context and the callback, as values
  // ---------------------------------------------------------------------

  datatype Action =
    | Count
    | CheckPrimary
    | MatchMonitorHandle
    | GetMonitorInfoByOffset
    | GetMonitorInfoByHandle

  /** The state of an EnumMonitorContext. */
  datatype Context = Context(
    action: Action,
    offset: int,
    handle: MonitorHandle,
    dc: DeviceContext,
    rect: WinRect,
    matched: bool)

  /** `EnumMonitorContext ctx = {action, offset}`: the remaining members take
      their default initialisers. */
  function InitialContext(action: Action, offset: int): Context {
    Context(action, offset, NullHandle, NullDc, ZeroWinRect, false)
  }

  /** The outcome of one callback: the updated context, and whether the walk
      goes on (TRUE) or stops (FALSE). */
  datatype Visit = Visit(ctx: Context, proceed: bool)

  /** A monitor whose bounding rectangle starts at the origin is taken to be
      the primary one. */
  predicate AtOrigin(m: Monitor) {
    m.rect.left == 0 && m.rect.top == 0
  }

  /** The amount by which a visit that does not stop moves the counter: the
      by-offset search counts down to its target, the others count up. */
  function OffsetStep(action: Action): int {
    if action == GetMonitorInfoByOffset then -1 else 1
  }

  /** _MonitorEnumProc on a context value. */
  function Callback(c: Context, m: Monitor): (v: Visit)
    ensures v.ctx.action == c.action
    // a visit that lets the walk go on only moves the counter
    ensures v.proceed ==> v.ctx == c.(offset := c.offset + OffsetStep(c.action))
    // a visit that stops leaves the counter at the position where it stopped
    ensures !v.proceed ==> v.ctx.offset == c.offset
    // counting never stops the walk
    ensures c.action == Count ==> v.proceed
    // the two info searches capture the monitor they stop at
    ensures !v.proceed && c.action in {GetMonitorInfoByOffset, GetMonitorInfoByHandle} ==>
      v.ctx.matched && v.ctx.dc == m.dc && v.ctx.rect == m.rect
    // the by-offset search also captures the handle of the monitor it stops at
    ensures !v.proceed && c.action == GetMonitorInfoByOffset ==> v.ctx.handle == m.handle
  {
    match c.action
    case Count =>
      Visit(c.(offset := c.offset + 1), true)
    case CheckPrimary =>
      if AtOrigin(m) then Visit(c, false)
      else Visit(c.(offset := c.offset + 1), true)
    case MatchMonitorHandle =>
      if m.handle == c.handle then Visit(c, false)
      else Visit(c.(offset := c.offset + 1), true)
    case GetMonitorInfoByOffset =>
      if c.offset == 0 then
        Visit(c.(handle := m.handle, dc := m.dc, rect := m.rect, matched := true), false)
      else Visit(c.(offset := c.offset - 1), true)
    case GetMonitorInfoByHandle =>
      if m.handle == c.handle then
        Visit(c.(dc := m.dc, rect := m.rect, matched := true), false)
      else Visit(c.(offset := c.offset + 1), true)
  }

  /** EnumDisplayMonitors driving the callback over `ms` in order, stopping
      at the first visit that returns FALSE. */
  function Enumerate(c: Context, ms: seq<Monitor>): (r: Context)
    ensures r.action == c.action
    // each visit moves the counter by at most one
    ensures c.offset - |ms| <= r.offset <= c.offset + |ms|
    // only the by-offset search ever replaces the handle it was given
    ensures c.action != GetMonitorInfoByOffset ==> r.handle == c.handle
    decreases |ms|
  {
    if ms == [] then c
    else
      var v := Callback(c, ms[0]);
      if v.proceed then Enumerate(v.ctx, ms[1..]) else v.ctx
  }

  // ---------------------------------------------------------------------
  // The context object and the enumeration loop
  // ---------------------------------------------------------------------

  /** EnumMonitorContext: the per-call accumulator the callback updates. */
  class EnumMonitorContext {
    var action: Action
    var offset: int
    var handle: MonitorHandle
    var dc: DeviceContext
    var rect: WinRect
    var matched: bool

    function Value(): Context
      reads this
    {
      Context(action, offset, handle, dc, rect, matched)
    }

    constructor (action: Action, offset: int)
      ensures Value() == InitialContext(action, offset)
    {
      this.action := action;
      this.offset := offset;
      handle := NullHandle;
      dc := NullDc;
      rect := ZeroWinRect;
      matched := false;
    }

    /** _MonitorEnumProc: visit one monitor, updating the context in place. */
    method MonitorEnumProc(m: Monitor) returns (proceed: bool)
      modifies this
      ensures Visit(Value(), proceed) == Callback(old(Value()), m)
    {
      proceed := true;
      match action
      case Count =>
        offset := offset + 1;
      case CheckPrimary =>
        if m.rect.left == 0 && m.rect.top == 0 {
          return false;
        }
        offset := offset + 1;
      case MatchMonitorHandle =>
        if m.handle == handle {
          return false;
        }
        offset := offset + 1;
      case GetMonitorInfoByOffset =>
        if offset == 0 {
          handle := m.handle;
          dc := m.dc;
          rect := m.rect;
          matched := true;
          return false;
        }
        offset := offset - 1;
      case GetMonitorInfoByHandle =>
        if m.handle == handle {
          dc := m.dc;
          rect := m.rect;
          matched := true;
          return false;
        }
        offset := offset + 1;
    }
  }

  /** EnumDisplayMonitors: call back once per monitor, in enumeration order,
      until a callback returns FALSE or the monitors run out. */
  method EnumDisplayMonitors(monitors: seq<Monitor>, ctx: EnumMonitorContext)
    modifies ctx
    ensures ctx.Value() == Enumerate(old(ctx.Value()), monitors)
  {
    var i := 0;
    var proceed := true;
    while i < |monitors| && proceed
      invariant 0 <= i <= |monitors|
      invariant Enumerate(old(ctx.Value()), monitors) ==
        if proceed then Enumerate(ctx.Value(), monitors[i..]) else ctx.Value()
    {
      assert monitors[i..][0] == monitors[i] && monitors[i..][1..] == monitors[i + 1..];
      proceed := ctx.MonitorEnumProc(monitors[i]);
      i := i + 1;
    }
    assert proceed ==> monitors[i..] == [];
  }

  // ---------------------------------------------------------------------
  // What one walk computes, per action
  // ---------------------------------------------------------------------

  /** What a search stops at: the primary monitor, or a given handle. */
  datatype Criterion = Primary | HandleIs(handle: MonitorHandle)

  predicate Meets(m: Monitor, crit: Criterion) {
    match crit
    case Primary => AtOrigin(m)
    case HandleIs(h) => m.handle == h
  }

  /** `k` is the position of the first monitor meeting `crit`, or |ms| when
      none does. */
  predicate IsFirstMatch(ms: seq<Monitor>, crit: Criterion, k: int) {
    && 0 <= k <= |ms|
    && (forall j :: 0 <= j < k ==> !Meets(ms[j], crit))
    && (k < |ms| ==> Meets(ms[k], crit))
  }

  /** The first position meeting `crit`, or |ms|. */
  function FirstMatch(ms: seq<Monitor>, crit: Criterion): (k: nat)
    ensures IsFirstMatch(ms, crit, k)
    decreases |ms|
  {
    if ms == [] then 0
    else if Meets(ms[0], crit) then 0
    else 1 + FirstMatch(ms[1..], crit)
  }

  /** There is only one first match. */
  lemma FirstMatchUnique(ms: seq<Monitor>, crit: Criterion, k: int, k': int)
    requires IsFirstMatch(ms, crit, k) && IsFirstMatch(ms, crit, k')
    ensures k == k'
  {
  }

  /** A counting walk visits every monitor: the offset grows by exactly the
      number enumerated, and nothing else changes. */
  lemma {:induction false} CountPass(c: Context, ms: seq<Monitor>)
    requires c.action == Count
    ensures Enumerate(c, ms) == c.(offset := c.offset + |ms|)
    decreases |ms|
  {
    if ms != [] {
      CountPass(c.(offset := c.offset + 1), ms[1..]);
    }
  }

  /** The primary-index and handle-matching walks stop at the first monitor
      that meets their criterion, having counted the monitors before it; if
      none meets it the offset grows by the number enumerated. Nothing else
      changes. */
  lemma {:induction false} SearchPass(c: Context, ms: seq<Monitor>, crit: Criterion)
    requires
      || (c.action == CheckPrimary && crit == Primary)
      || (c.action == MatchMonitorHandle && crit == HandleIs(c.handle))
    ensures Enumerate(c, ms) == c.(offset := c.offset + FirstMatch(ms, crit))
    decreases |ms|
  {
    if ms != [] && !Meets(ms[0], crit) {
      SearchPass(c.(offset := c.offset + 1), ms[1..], crit);
    }
  }

  /** The by-offset walk with a target k in [0, |ms|) captures monitor k and
      sets matched; with any other k it leaves handle, dc, rect and matched
      as they were and only moves the counter down by |ms|. */
  lemma {:induction false} ByOffsetPass(c: Context, ms: seq<Monitor>)
    requires c.action == GetMonitorInfoByOffset
    ensures
      var r := Enumerate(c, ms);
      if 0 <= c.offset < |ms| then
        r == c.(offset := 0, handle := ms[c.offset].handle, dc := ms[c.offset].dc,
                rect := ms[c.offset].rect, matched := true)
      else
        r == c.(offset := c.offset - |ms|)
    decreases |ms|
  {
    if ms != [] && c.offset != 0 {
      ByOffsetPass(c.(offset := c.offset - 1), ms[1..]);
    }
  }

  /** The by-handle walk finds the first monitor carrying the context's
      handle, counts the monitors before it and captures its dc and rect;
      if no monitor carries the handle it only counts. */
  lemma {:induction false} ByHandlePass(c: Context, ms: seq<Monitor>)
    requires c.action == GetMonitorInfoByHandle
    ensures
      var k := FirstMatch(ms, HandleIs(c.handle));
      var r := Enumerate(c, ms);
      if k < |ms| then
        r == c.(offset := c.offset + k, dc := ms[k].dc, rect := ms[k].rect, matched := true)
      else
        r == c.(offset := c.offset + |ms|)
    decreases |ms|
  {
    if ms != [] && ms[0].handle != c.handle {
      ByHandlePass(c.(offset := c.offset + 1), ms[1..]);
    }
  }
}
