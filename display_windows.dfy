/** DisplayServerWindows: the Windows backend's screen queries, the value
    mappings beside them, and the window-class-name setting.

    Every operating-system primitive the backend calls is a parameter here:
    the monitors EnumDisplayMonitors would enumerate (in its order), and, as
    functions, what MonitorFromRect / MonitorFromPoint / MonitorFromWindow,
    GetMonitorInfoW, EnumDisplaySettingsW, ChangeDisplaySettingsExW,
    GetDpiForMonitor and GetDeviceCaps would answer. Each screen query runs
    its own walk over the monitors with a fresh EnumMonitorContext. */
module DisplayWindows {

  import opened Types
  import opened Display
  import opened MonitorEnum

  datatype Option<T> = None | Some(value: T)

  // ---------------------------------------------------------------------
  // Platform answers
  // ---------------------------------------------------------------------

  /** The part of MONITORINFOEXW the backend reads: the work area and the
      device name. */
  datatype MonitorInfo = MonitorInfo(work: WinRect, device: string)

  /** The part of DEVMODEW the backend reads: dmDisplayOrientation. */
  datatype DevMode = DevMode(displayOrientation: Uint32)

  /** A display's device name with its current settings. */
  datatype DisplaySettings = DisplaySettings(device: string, mode: DevMode)

  /** A horizontal and a vertical DPI reading. */
  datatype DpiPair = DpiPair(x: Uint32, y: Uint32)

  /** The DMDO_* values of dmDisplayOrientation. */
  const DmdoDefault: Uint32 := 0
  const Dmdo90: Uint32 := 1
  const Dmdo180: Uint32 := 2
  const Dmdo270: Uint32 := 3

  /** kDefaultDPI, the DPI reported when no monitor is found. */
  const DefaultDpi := 96

  /** The default settings of a display whose monitor has handle `h`:
      GetMonitorInfoW for the device name, then EnumDisplaySettingsW with
      ENUM_CURRENT_SETTINGS; None if either call fails. */
  function DeviceSettings(
    h: MonitorHandle,
    monitorInfo: MonitorHandle -> Option<MonitorInfo>,
    enumDisplaySettings: string -> Option<DevMode>): Option<DisplaySettings>
  {
    match monitorInfo(h)
    case None => None
    case Some(info) =>
      match enumDisplaySettings(info.device)
      case None => None
      case Some(mode) => Some(DisplaySettings(info.device, mode))
  }

  // ---------------------------------------------------------------------
  // Pure value mappings
  // ---------------------------------------------------------------------

  /** The RECT that get_screen_by_rect builds from a Rect2: same corner,
      same width and height. */
  function ToWinRect(rc: Rect2): (r: WinRect)
    ensures r.left == rc.x && r.top == rc.y
    ensures r.right - r.left == rc.width && r.bottom - r.top == rc.height
  {
    WinRect(rc.x, rc.y, rc.x + rc.width, rc.y + rc.height)
  }

  /** A RECT read back as corner and extent; the inverse of ToWinRect. */
  function FromWinRect(r: WinRect): (rc: Rect2)
    ensures ToWinRect(rc) == r
  {
    Rect2(r.left, r.top, r.right - r.left, r.bottom - r.top)
  }

  lemma WinRectRoundTrip(rc: Rect2)
    ensures FromWinRect(ToWinRect(rc)) == rc
  {
  }

  /** get_scren_orientation's switch: the four DMDO values map onto the four
      orientations, anything else is kUnknown. */
  function OrientationFromDmdo(v: Uint32): (o: Orientation)
    ensures o == Unknown <==> v > Dmdo270
  {
    if v == DmdoDefault then Landscape
    else if v == Dmdo90 then Portrait
    else if v == Dmdo180 then LandscapeFlipped
    else if v == Dmdo270 then PortraitFlipped
    else Unknown
  }

  /** set_screen_orientation's switch, orientation to DMDO value; kUnknown
      falls to the default branch and keeps the initial 0. On the four known
      orientations it is the inverse of OrientationFromDmdo. */
  function DmdoFromOrientation(o: Orientation): (v: Uint32)
    ensures v <= Dmdo270
    ensures o != Unknown ==> OrientationFromDmdo(v) == o
  {
    match o
    case Landscape => DmdoDefault
    case LandscapeFlipped => Dmdo180
    case Portrait => Dmdo90
    case PortraitFlipped => Dmdo270
    case Unknown => 0
  }

  /** The other round trip: a known DMDO value survives orientation and back. */
  lemma DmdoRoundTrip(v: Uint32)
    requires v <= Dmdo270
    ensures DmdoFromOrientation(OrientationFromDmdo(v)) == v
  {
  }

  /** `(dpiX + dpiY) / 2` on UINTs: the sum wraps modulo 2^32 before the
      halving. Without wrap-around the result lies between the readings and
      is their mean rounded down. */
  function AverageDpi(reading: DpiPair): (dpi: int)
    ensures 0 <= dpi < 0x8000_0000
    ensures reading.x + reading.y < 0x1_0000_0000 ==>
      && 2 * dpi <= reading.x + reading.y <= 2 * dpi + 1
      && (reading.x <= dpi <= reading.y || reading.y <= dpi <= reading.x)
    ensures reading.x + reading.y >= 0x1_0000_0000 ==>
      2 * dpi <= reading.x + reading.y - 0x1_0000_0000
  {
    ((reading.x + reading.y) % 0x1_0000_0000) / 2
  }

  /** The work-rectangle arithmetic of get_screen_work_rect: every member of
      the work area, its width and height included, is shifted by the same
      amount, minus min(bounds.left, bounds.top). A monitor whose bounds
      have that minimum at 0 gets its work area back unchanged. */
  function WorkRect(bounds: WinRect, work: WinRect): (r: Rect2)
    ensures
      var shift := if bounds.left <= bounds.top then bounds.left else bounds.top;
      && r.x == FromWinRect(work).x - shift
      && r.y == FromWinRect(work).y - shift
      && r.width == FromWinRect(work).width - shift
      && r.height == FromWinRect(work).height - shift
    ensures (bounds.left == 0 && bounds.top >= 0) || (bounds.top == 0 && bounds.left >= 0) ==>
      r == FromWinRect(work)
  {
    var origin := if bounds.left < bounds.top then bounds.left else bounds.top;
    Rect2(work.left - origin, work.top - origin,
          work.right - work.left - origin, work.bottom - work.top - origin)
  }

  /** Which DPI reading get_screen_dpi averages for a found monitor: the
      per-monitor API's when it is loaded and succeeds, otherwise the device
      context's LOGPIXELSX and LOGPIXELSY. `getDpiForMonitor` is None when
      the API could not be loaded; its result is None when the call fails. */
  function DpiReading(
    m: Monitor,
    getDpiForMonitor: Option<MonitorHandle -> Option<DpiPair>>,
    getDeviceCaps: DeviceContext -> DpiPair): (reading: DpiPair)
    ensures getDpiForMonitor.None? ==> reading == getDeviceCaps(m.dc)
    ensures getDpiForMonitor.Some? && getDpiForMonitor.value(m.handle).Some? ==>
      reading == getDpiForMonitor.value(m.handle).value
    ensures getDpiForMonitor.Some? && getDpiForMonitor.value(m.handle).None? ==>
      reading == getDeviceCaps(m.dc)
  {
    if getDpiForMonitor.Some? && getDpiForMonitor.value(m.handle).Some? then
      getDpiForMonitor.value(m.handle).value
    else
      getDeviceCaps(m.dc)
  }

  /** One colour as the theme code returns it: the four bytes of a 32-bit
      ARGB value, from the least significant up, in the order the
      initialiser lists them. */
  datatype Color = Color(c0: bv32, c1: bv32, c2: bv32, c3: bv32)

  /** The byte unpacking of get_system_accent_color and
      get_system_base_color: bits 0-7, 8-15, 16-23 and 24-31, each in 0..255,
      which put back together give the original value. */
  function UnpackArgb(argb: bv32): (c: Color)
    ensures c.c0 <= 0xFF && c.c1 <= 0xFF && c.c2 <= 0xFF && c.c3 <= 0xFF
    ensures (c.c3 << 24) | (c.c2 << 16) | (c.c1 << 8) | c.c0 == argb
  {
    Color(argb & 0xFF, (argb & 0xFF00) >> 8, (argb & 0xFF_0000) >> 16, (argb & 0xFF00_0000) >> 24)
  }

  /** Four bytes packed into one value; UnpackArgb recovers them. */
  function PackArgb(c: Color): (argb: bv32)
    requires c.c0 <= 0xFF && c.c1 <= 0xFF && c.c2 <= 0xFF && c.c3 <= 0xFF
    ensures UnpackArgb(argb) == c
  {
    (c.c3 << 24) | (c.c2 << 16) | (c.c1 << 8) | c.c0
  }

  /** is_feature_supported: everything but the virtual keyboard and the
      global menu. */
  function IsFeatureSupported(feature: Feature): (supported: bool)
    ensures !supported <==> feature in {VirtualKeyboard, GlobalMenu}
  {
    match feature
    case VirtualKeyboard => false
    case GlobalMenu => false
    case _ => true
  }

  // ---------------------------------------------------------------------
  // Screen queries
  // ---------------------------------------------------------------------

  /** The walk shared by the by-offset queries: the monitor at `index`, if
      any. */
  method MonitorAtIndex(monitors: seq<Monitor>, index: int) returns (found: Option<Monitor>)
    ensures found.Some? <==> 0 <= index < |monitors|
    ensures found.Some? ==> found.value == monitors[index]
  {
    var ctx := new EnumMonitorContext(GetMonitorInfoByOffset, index);
    EnumDisplayMonitors(monitors, ctx);
    ByOffsetPass(InitialContext(GetMonitorInfoByOffset, index), monitors);
    if !ctx.matched {
      return None;
    }
    found := Some(Monitor(ctx.handle, ctx.dc, ctx.rect));
  }

  /** get_screen_count: the number of monitors enumerated; 0 when there are
      none. */
  method GetScreenCount(monitors: seq<Monitor>) returns (count: int)
    ensures count == |monitors|
  {
    var ctx := new EnumMonitorContext(Count, 0);
    EnumDisplayMonitors(monitors, ctx);
    CountPass(InitialContext(Count, 0), monitors);
    count := ctx.offset;
  }

  /** get_primary_screen_index: the position of the first monitor whose
      rectangle starts at (0, 0), or the monitor count when none does. */
  method GetPrimaryScreenIndex(monitors: seq<Monitor>) returns (index: int)
    ensures 0 <= index <= |monitors|
    ensures forall j :: 0 <= j < index ==> !AtOrigin(monitors[j])
    ensures index < |monitors| ==> AtOrigin(monitors[index])
  {
    var ctx := new EnumMonitorContext(CheckPrimary, 0);
    EnumDisplayMonitors(monitors, ctx);
    SearchPass(InitialContext(CheckPrimary, 0), monitors, Primary);
    index := ctx.offset;
  }

  /** The second walk of get_screen_by_rect, _by_pos and _by_window: the
      position of the first monitor with handle `h`, or the monitor count. */
  method ScreenOfHandle(monitors: seq<Monitor>, h: MonitorHandle) returns (index: int)
    ensures IsFirstMatch(monitors, HandleIs(h), index)
  {
    var ctx := new EnumMonitorContext(MatchMonitorHandle, 0);
    ctx.handle := h;
    EnumDisplayMonitors(monitors, ctx);
    SearchPass(InitialContext(MatchMonitorHandle, 0).(handle := h), monitors, HandleIs(h));
    index := ctx.offset;
  }

  /** get_screen_by_rect: the position of the monitor the platform picks for
      the RECT (x, y, x + width, y + height), or the monitor count. */
  method GetScreenByRect(monitors: seq<Monitor>, rc: Rect2, monitorFromRect: WinRect -> MonitorHandle)
    returns (index: int)
    ensures IsFirstMatch(monitors, HandleIs(monitorFromRect(ToWinRect(rc))), index)
  {
    var winRc := ToWinRect(rc);
    index := ScreenOfHandle(monitors, monitorFromRect(winRc));
  }

  /** get_screen_by_pos: the platform is always asked about the zeroed
      POINT, so the answer is the position of the monitor nearest (0, 0)
      whatever `x` and `y` are. */
  method GetScreenByPos(monitors: seq<Monitor>, x: int, y: int, monitorFromPoint: WinPoint -> MonitorHandle)
    returns (index: int)
    ensures IsFirstMatch(monitors, HandleIs(monitorFromPoint(WinPoint(0, 0))), index)
  {
    var winPoint := WinPoint(0, 0);
    index := ScreenOfHandle(monitors, monitorFromPoint(winPoint));
  }

  /** get_screen_by_window: the position of the monitor the platform picks
      for the window, or the monitor count. */
  method GetScreenByWindow(monitors: seq<Monitor>, windowId: nat, monitorFromWindow: nat -> MonitorHandle)
    returns (index: int)
    ensures IsFirstMatch(monitors, HandleIs(monitorFromWindow(windowId)), index)
  {
    index := ScreenOfHandle(monitors, monitorFromWindow(windowId));
  }

  /** _get_screen_settings_by_index: the current settings of the display of
      the monitor at `index`; None when there is no such monitor or a
      platform lookup fails. */
  method GetScreenSettingsByIndex(
    monitors: seq<Monitor>,
    index: int,
    monitorInfo: MonitorHandle -> Option<MonitorInfo>,
    enumDisplaySettings: string -> Option<DevMode>)
    returns (settings: Option<DevMode>)
    ensures !(0 <= index < |monitors|) ==> settings == None
    ensures 0 <= index < |monitors| ==>
      match DeviceSettings(monitors[index].handle, monitorInfo, enumDisplaySettings)
      case None => settings == None
      case Some(s) => settings == Some(s.mode)
  {
    var found := MonitorAtIndex(monitors, index);
    if found.None? {
      return None;
    }
    var info := monitorInfo(found.value.handle);
    if info.None? {
      return None;
    }
    settings := enumDisplaySettings(info.value.device);
  }

  /** get_scren_orientation: kUnknown for a negative index, a missing
      monitor or a failed lookup; otherwise the orientation of the current
      DMDO value (kUnknown for an unrecognised one). */
  method GetScreenOrientation(
    monitors: seq<Monitor>,
    index: int,
    monitorInfo: MonitorHandle -> Option<MonitorInfo>,
    enumDisplaySettings: string -> Option<DevMode>)
    returns (orientation: Orientation)
    ensures !(0 <= index < |monitors|) ==> orientation == Unknown
    ensures 0 <= index < |monitors| ==>
      match DeviceSettings(monitors[index].handle, monitorInfo, enumDisplaySettings)
      case None => orientation == Unknown
      case Some(s) => orientation == OrientationFromDmdo(s.mode.displayOrientation)
  {
    if index < 0 {
      return Unknown;
    }
    var settings := GetScreenSettingsByIndex(monitors, index, monitorInfo, enumDisplaySettings);
    if settings.None? {
      return Unknown;
    }
    orientation := OrientationFromDmdo(settings.value.displayOrientation);
  }

  /** set_screen_orientation. Returns false for a negative index or
      kUnknown, before any walk, and when the monitor or its settings cannot
      be found. When the display already has the requested DMDO value it
      returns true and asks for no change. Otherwise it hands
      ChangeDisplaySettingsExW the device and the settings AS READ (the
      requested value is never written into them), and reports success
      exactly when that call returns a non-zero code. `request` is the call
      made, if any. */
  method SetScreenOrientation(
    monitors: seq<Monitor>,
    index: int,
    orientation: Orientation,
    monitorInfo: MonitorHandle -> Option<MonitorInfo>,
    enumDisplaySettings: string -> Option<DevMode>,
    changeDisplaySettings: DisplaySettings -> int)
    returns (ok: bool, request: Option<DisplaySettings>)
    ensures index < 0 || orientation == Unknown || index >= |monitors| ==> !ok && request == None
    ensures 0 <= index < |monitors| && orientation != Unknown ==>
      match DeviceSettings(monitors[index].handle, monitorInfo, enumDisplaySettings)
      case None => !ok && request == None
      case Some(s) =>
        if s.mode.displayOrientation == DmdoFromOrientation(orientation) then
          ok && request == None
        else
          request == Some(s) && ok == (changeDisplaySettings(s) != 0)
  {
    request := None;
    if index < 0 || orientation == Unknown {
      return false, None;
    }
    var found := MonitorAtIndex(monitors, index);
    if found.None? {
      return false, None;
    }
    var info := monitorInfo(found.value.handle);
    if info.None? {
      return false, None;
    }
    var settings := enumDisplaySettings(info.value.device);
    if settings.None? {
      return false, None;
    }
    var newValue := DmdoFromOrientation(orientation);
    if settings.value.displayOrientation == newValue {
      return true, None;
    }
    var current := DisplaySettings(info.value.device, settings.value);
    request := Some(current);
    ok := changeDisplaySettings(current) != 0;
  }

  /** get_screen_size: the width and height of the monitor at `index`, or
      (0, 0) when there is none. */
  method GetScreenSize(monitors: seq<Monitor>, index: int) returns (width: int, height: int)
    ensures !(0 <= index < |monitors|) ==> width == 0 && height == 0
    ensures 0 <= index < |monitors| ==>
      var r := monitors[index].rect;
      width == r.right - r.left && height == r.bottom - r.top
  {
    var found := MonitorAtIndex(monitors, index);
    if found.None? {
      return 0, 0;
    }
    var rect := found.value.rect;
    width, height := rect.right - rect.left, rect.bottom - rect.top;
  }

  /** get_screen_work_rect: the shifted work area of the monitor at `index`;
      a zeroed Rect2 when there is none or GetMonitorInfoW fails. */
  method GetScreenWorkRect(monitors: seq<Monitor>, index: int, monitorInfo: MonitorHandle -> Option<MonitorInfo>)
    returns (result: Rect2)
    ensures !(0 <= index < |monitors|) ==> result == ZeroRect2
    ensures 0 <= index < |monitors| ==>
      match monitorInfo(monitors[index].handle)
      case None => result == ZeroRect2
      case Some(info) => result == WorkRect(monitors[index].rect, info.work)
  {
    var found := MonitorAtIndex(monitors, index);
    if found.None? {
      return ZeroRect2;
    }
    var info := monitorInfo(found.value.handle);
    if info.None? {
      return ZeroRect2;
    }
    result := WorkRect(found.value.rect, info.value.work);
  }

  /** get_screen_dpi: 96 when there is no monitor at `index`; otherwise the
      average of its DPI reading. */
  method GetScreenDpi(
    monitors: seq<Monitor>,
    index: int,
    getDpiForMonitor: Option<MonitorHandle -> Option<DpiPair>>,
    getDeviceCaps: DeviceContext -> DpiPair)
    returns (dpi: int)
    ensures !(0 <= index < |monitors|) ==> dpi == DefaultDpi
    ensures 0 <= index < |monitors| ==>
      dpi == AverageDpi(DpiReading(monitors[index], getDpiForMonitor, getDeviceCaps))
  {
    var found := MonitorAtIndex(monitors, index);
    if found.None? {
      return DefaultDpi;
    }
    var m := found.value;
    if getDpiForMonitor.Some? {
      var reading := getDpiForMonitor.value(m.handle);
      if reading.Some? {
        return AverageDpi(reading.value);
      }
    }
    dpi := AverageDpi(getDeviceCaps(m.dc));
  }

  // ---------------------------------------------------------------------
  // Window class name
  // ---------------------------------------------------------------------

  /** The state of DisplayServerWindows the model covers: the window class
      name and whether that class has been registered. */
  class DisplayServerWindows {
    var windowClassName: string
    var windowClassRegistered: bool

    /** The class name is never empty. */
    ghost predicate Valid()
      reads this
    {
      windowClassName != []
    }

    constructor ()
      ensures Valid()
      ensures windowClassName == "mimosa_window" && !windowClassRegistered
    {
      windowClassName := "mimosa_window";
      windowClassRegistered := false;
    }

    /** set_window_class_name: takes the new name only while the class is
        not yet registered and the name is not empty. */
    method SetWindowClassName(clsName: string)
      requires Valid()
      modifies this
      ensures Valid()
      ensures windowClassRegistered == old(windowClassRegistered)
      ensures windowClassName ==
        if !old(windowClassRegistered) && clsName != [] then clsName else old(windowClassName)
    {
      if !windowClassRegistered && clsName != [] {
        windowClassName := clsName;
      }
    }

    /** get_window_class_name. */
    function GetWindowClassName(): (name: string)
      reads this
      requires Valid()
      ensures name != []
    {
      windowClassName
    }
  }
}
