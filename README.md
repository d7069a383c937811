# Monitor resolution of the mimosa display layer, in Dafny

This project models the part of the mimosa platform display layer that holds
real logic: the Windows backend's screen queries (`DisplayServerWindows`).
Each query walks the operating system's monitor list with a callback that
updates an `EnumMonitorContext`. The walk counts monitors, finds the primary
one, finds the position of a given monitor handle, or fetches the monitor at
a given position. On top of that come the size, work-area, DPI and
orientation lookups. The model also covers the value mappings next to these
queries, the flag-set operators (`DECL_ENUM_CLASS_BITOPS`) and the
bit-valued enums they apply to.

Files and modules:

- `type.dfy`, module `Types`: `Rect2`.
- `help_defines.dfy`, module `BitOps`: the operators `| & ^ ~` on a flag
  set's 32-bit pattern (`bv32`), with their algebra.
- `display.dfy`, module `Display`: `Orientation` and `Feature`. It also
  holds the named members of `WindowFlags`, `NativeDialogOptions` and
  `HotkeyModifier`, with their bits.
- `monitor_enum.dfy`, module `MonitorEnum`: the Win32 values, the context
  as a class (`EnumMonitorContext`) and `_MonitorEnumProc` as its method
  `MonitorEnumProc`. The enumeration is the loop `EnumDisplayMonitors` over
  a sequence of monitors. Pure specifications sit beside them: `Callback`,
  the whole walk `Enumerate`, and one closed-form lemma per action.
- `display_windows.dfy`, module `DisplayWindows`: the screen queries as
  methods, the pure mappings, and the class-name setter.

Every operating-system primitive is a parameter. These are the monitor
sequence, in enumeration order, and functions standing for the answers of
`MonitorFromRect`, `MonitorFromPoint`, `MonitorFromWindow`,
`GetMonitorInfoW`, `EnumDisplaySettingsW`, `ChangeDisplaySettingsExW`,
`GetDpiForMonitor` and `GetDeviceCaps`. `GetDpiForMonitor` is an `Option`,
because the backend loads it at run time and it may be missing. Handles and
device contexts are natural numbers compared by identity, with 0 as the
null handle.

Behaviour kept as the code has it, where a reader might expect otherwise:

- `get_screen_by_pos` always asks the platform about the point (0, 0). Its
  result therefore does not depend on `x` or `y`.
- `get_screen_work_rect` subtracts `min(left, top)` of the monitor's own
  bounds from all four members of the work area, width and height included.
- `set_screen_orientation` never writes the requested DMDO value into the
  settings it passes to `ChangeDisplaySettingsExW`. It also reports success
  exactly when that call returns a non-zero code. `DISP_CHANGE_SUCCESSFUL`
  is 0, so a successful change is reported as a failure.
- `get_screen_dpi` adds the two readings as 32-bit unsigned numbers, so the
  sum wraps modulo 2^32 before it is halved.

## Model

| member | source | states |
|---|---|---|
| `MonitorEnum.EnumMonitorContext.constructor` | core/platform/windows/display_windows.cc:124-138 | `{action, offset}` initialisation: null handle and dc, zeroed rect, not matched |
| `MonitorEnum.Callback` | core/platform/windows/display_windows.cc:140-179 | one visit keeps the action; a visit that continues only moves the offset (down by one for by-offset, up by one otherwise); a visit that stops keeps the offset; counting never stops; the info searches capture dc and rect and set matched when they stop, and the by-offset search also captures the monitor's handle |
| `MonitorEnum.EnumMonitorContext.MonitorEnumProc` | core/platform/windows/display_windows.cc:140-179 | the in-place callback leaves the context, and returns the continue flag, exactly as `Callback` prescribes |
| `MonitorEnum.Enumerate` | core/platform/windows/display_windows.cc:140-179 | a whole walk never changes the action, moves the offset by at most the number of monitors, and keeps the handle unless it is the by-offset search |
| `MonitorEnum.EnumDisplayMonitors` | core/platform/windows/display_windows.cc:181-185 | the loop that calls back per monitor and stops at the first FALSE ends in the state `Enumerate` gives |
| `MonitorEnum.FirstMatch` | core/platform/windows/display_windows.cc:146-157 | the position of the first monitor at the origin / with the handle, or the count when there is none |
| `MonitorEnum.FirstMatchUnique` | core/platform/windows/display_windows.cc:146-157 | that first position is unique |
| `MonitorEnum.CountPass` | core/platform/windows/display_windows.cc:143-145 | a counting walk adds exactly the number of monitors to the offset and changes nothing else |
| `MonitorEnum.SearchPass` | core/platform/windows/display_windows.cc:146-157 | the primary and handle walks add the first-match position to the offset and change nothing else |
| `MonitorEnum.ByOffsetPass` | core/platform/windows/display_windows.cc:158-167 | with 0 <= k < n the by-offset walk captures handle, dc and rect of monitor k and sets matched; with any other k it leaves them and matched alone and only lowers the offset by n |
| `MonitorEnum.ByHandlePass` | core/platform/windows/display_windows.cc:168-176 | the by-handle walk captures dc and rect of the first monitor with the handle and counts those before it; if there is none it only counts |
| `DisplayWindows.MonitorAtIndex` | core/platform/windows/display_windows.cc:181-185 | the by-offset walk finds a monitor exactly when 0 <= index < count, and it is the monitor at that index |
| `DisplayWindows.GetScreenSettingsByIndex` | core/platform/windows/display_windows.cc:181-200 | None for an index out of range or a failed GetMonitorInfoW / EnumDisplaySettingsW, otherwise the current settings of that monitor's display |
| `DisplayWindows.GetScreenCount` | core/platform/windows/display_windows.cc:202-206 | the number of monitors enumerated (0 for none) |
| `DisplayWindows.GetPrimaryScreenIndex` | core/platform/windows/display_windows.cc:208-212 | the position of the first monitor whose rect starts at (0, 0), or the count when none does |
| `DisplayWindows.ScreenOfHandle` | core/platform/windows/display_windows.cc:214-239 | the position of the first monitor carrying the handle, or the count |
| `DisplayWindows.GetScreenByRect` | core/platform/windows/display_windows.cc:214-224 | the first-match position of the handle the platform picks for the RECT (x, y, x+w, y+h) |
| `DisplayWindows.GetScreenByPos` | core/platform/windows/display_windows.cc:226-232 | the first-match position of the handle the platform picks for (0, 0): independent of x and y |
| `DisplayWindows.GetScreenByWindow` | core/platform/windows/display_windows.cc:234-239 | the first-match position of the handle the platform picks for the window |
| `DisplayWindows.ToWinRect` | core/platform/windows/display_windows.cc:216-220 | the RECT keeps the corner and has the Rect2's width and height |
| `DisplayWindows.FromWinRect` | core/platform/windows/display_windows.cc:216-220 | reading a RECT back as corner and extent inverts ToWinRect |
| `DisplayWindows.WinRectRoundTrip` | core/platform/windows/display_windows.cc:216-220 | Rect2 to RECT and back is the identity |
| `DisplayWindows.GetScreenOrientation` | core/platform/windows/display_windows.cc:241-267 | kUnknown for an index out of range or a failed lookup, otherwise the orientation of the current DMDO value |
| `DisplayWindows.OrientationFromDmdo` | core/platform/windows/display_windows.cc:252-266 | the result is kUnknown exactly for values above DMDO_270 |
| `DisplayWindows.DmdoFromOrientation` | core/platform/windows/display_windows.cc:294-310 | yields a DMDO value, and on the four known orientations it is undone by OrientationFromDmdo |
| `DisplayWindows.DmdoRoundTrip` | core/platform/windows/display_windows.cc:252-266 | every known DMDO value survives orientation and back |
| `DisplayWindows.SetScreenOrientation` | core/platform/windows/display_windows.cc:269-320 | false and no change request for a negative index, kUnknown, a missing monitor or a failed lookup; true and no request when the DMDO value already matches; otherwise a request with the settings as read, reporting success exactly on a non-zero result code |
| `DisplayWindows.GetScreenSize` | core/platform/windows/display_windows.cc:322-333 | (right-left, bottom-top) of the monitor at the index, or (0, 0) when there is none |
| `DisplayWindows.WorkRect` | core/platform/windows/display_windows.cc:349-354 | all four members of the work area are shifted by the same amount, minus min(left, top); a monitor with that minimum at 0 gets its work area unchanged |
| `DisplayWindows.GetScreenWorkRect` | core/platform/windows/display_windows.cc:335-356 | a zeroed Rect2 for an index out of range or a failed GetMonitorInfoW, otherwise the shifted work area |
| `DisplayWindows.AverageDpi` | core/platform/windows/display_windows.cc:365-375 | the result is in [0, 2^31); without wrap-around it is the mean rounded down and lies between the two readings |
| `DisplayWindows.DpiReading` | core/platform/windows/display_windows.cc:365-375 | the per-monitor reading when the API is loaded and succeeds, the device context's otherwise |
| `DisplayWindows.GetScreenDpi` | core/platform/windows/display_windows.cc:358-376 | 96 when there is no monitor at the index, otherwise the average of its reading |
| `DisplayWindows.UnpackArgb` | core/platform/windows/display_windows.cc:108 | four components, each in 0..255, that recombine to the original 32-bit value |
| `DisplayWindows.PackArgb` | core/platform/windows/display_windows.cc:121 | packing four bytes is undone by the unpacking |
| `DisplayWindows.IsFeatureSupported` | core/platform/windows/display_windows.cc:85-93 | every feature is supported except the virtual keyboard and the global menu |
| `DisplayWindows.DisplayServerWindows.constructor` | core/platform/windows/display_windows.h:12 | the class name starts as "mimosa_window"; the registration flag, read at display_windows.cc:383 and 397 but declared in no file of this model, starts false by the model's own choice |
| `DisplayWindows.DisplayServerWindows.SetWindowClassName` | core/platform/windows/display_windows.cc:382-386 | the name changes only when the class is unregistered and the new name is not empty; the name is never empty |
| `DisplayWindows.DisplayServerWindows.GetWindowClassName` | core/platform/windows/display_windows.cc:388-390 | the name returned is never empty |
| `BitOps.Or` | core/base/help_defines.h:50-53 | the result includes both operands |
| `BitOps.OrIsLeast` | core/base/help_defines.h:50-53 | anything that includes both operands includes their Or |
| `BitOps.And` | core/base/help_defines.h:54-57 | both operands include the result |
| `BitOps.AndIsGreatest` | core/base/help_defines.h:54-57 | anything both operands include, their And includes |
| `BitOps.Xor` | core/base/help_defines.h:58-61 | the result is the union of the operands less their intersection |
| `BitOps.Not` | core/base/help_defines.h:62-64 | the result is disjoint from the operand and together with it covers all 32 bits |
| `BitOps.OrLaws` | core/base/help_defines.h:50-53 | Or is commutative, associative and idempotent, with 0 as identity |
| `BitOps.AndLaws` | core/base/help_defines.h:54-57 | And is commutative and idempotent, with x & 0 == 0 |
| `BitOps.XorLaws` | core/base/help_defines.h:58-61 | x ^ x == 0, x ^ 0 == x, Xor is commutative and self-inverse |
| `BitOps.NotInvolutive` | core/base/help_defines.h:62-64 | ~~x == x |
| `BitOps.DeMorgan` | core/base/help_defines.h:50-64 | the complement of an Or is the And of the complements, and the complement of an And is the Or of the complements |
| `BitOps.AddedFlagIsTestable` | core/base/help_defines.h:50-57 | a flag f added to s with Or is then found by And with f |
| `BitOps.ClearedFlagIsAbsent` | core/base/help_defines.h:54-64 | (s & ~f) & f == 0 |
| `Display.WindowFlagValue` | core/display.h:103-114 | each named window flag is a single bit among bits 1 to 9 |
| `Display.WindowFlagsDisjoint` | core/display.h:103-114 | two window flags share a bit exactly when they are the same flag |
| `Display.InvalidFlagsIsOrIdentity` | core/display.h:103-115 | WINDOW_INVALID_FLAGS is the identity of Or |
| `Display.AddedWindowFlagIsTestable` | core/display.h:103-115 | after adding window flag f to s with Or, f tests present and the flags of s stay |
| `Display.NativeDialogOptionValue` | core/display.h:182-187 | each dialog option is a single non-zero bit among bits 1 to 4 |
| `Display.NativeDialogOptionsDisjoint` | core/display.h:182-188 | two options share a bit exactly when they are the same option |
| `Display.HotkeyModifierValue` | core/display.h:323-330 | each modifier other than KEY_NONE is a single bit among bits 1 to 5 |
| `Display.HotkeyModifiersDisjoint` | core/display.h:323-331 | two modifiers share a bit exactly when they are the same modifier |

`Display.Orientation` is a datatype with exactly the five cases of
core/display.h:69-75; `Unknown` is the not-found answer of the orientation
queries.

## Left out

- Operating-system calls are parameters, not modelled: EnumDisplayMonitors
  (the monitor sequence), MonitorFromRect/Point/Window, GetMonitorInfoW,
  EnumDisplaySettingsW, ChangeDisplaySettingsExW, GetDpiForMonitor and
  GetDeviceCaps. Failures are `None`. Error logging (`LOG_ERROR`) is dropped.
- The effect of `ChangeDisplaySettingsExW` on the display is not modelled.
  The model records the request passed and the result code only, so no
  property says that a rotation takes effect.
- `get_screen_scale_factor`: float division.
- `initialize` (loading uxtheme.dll and Shcore.dll and looking up function
  pointers), `is_dark_mode`, and the theme API calls of
  `get_system_accent_color` and `get_system_base_color`. Only their byte
  unpacking is modelled.
- The window procedure, window-class registration and the `window_*`
  members: platform calls or empty bodies. So nothing in the model sets
  `windowClassRegistered`; it is a field that `SetWindowClassName` reads.
- core/display.cc, core/base/string_helper.cc, core/base/log.h,
  core/help_defines.h, core/defines.h and main/main.cc: stubs, platform
  string conversion, logging, and macros that are not used.
- `Color`'s own definition is not part of this model. Its four components are
  named by position (`c0` to `c3`) and kept as 32-bit patterns.
- ToWinRect: does not model 32-bit signed overflow of `x + width` or
  `y + height`, which is undefined behaviour in the source; coordinates are
  unbounded integers.
- GetScreenSize: does not model 32-bit signed overflow of `right - left`
  and `bottom - top`.
- WorkRect: does not model 32-bit signed overflow of the subtractions.
- The offset counter of `EnumMonitorContext` is an unbounded integer. The
  counting and searching walks start it at 0 and raise it by at most the
  number of monitors, so it stays far inside the `int` range there. The
  by-offset walk starts it at the caller's screen index instead and lowers
  it once per monitor, which the next four lines cover.
- ByOffsetPass: does not model the signed overflow of the decrement
  `--ctx->offset` when the starting index lies within the monitor count of
  INT_MIN, which is undefined behaviour in the source; the lemma gives the
  "nothing captured, offset lowered by n" result for every index outside
  [0, n), those included.
- GetScreenSize: passes the caller's index to the by-offset walk unchecked,
  so an index near INT_MIN reaches the overflowing decrement; the model
  returns (0, 0) for it instead.
- GetScreenWorkRect: passes the caller's index to the by-offset walk
  unchecked; for an index near INT_MIN the model returns the zeroed Rect2
  where the source's decrement overflows.
- GetScreenDpi: passes the caller's index to the by-offset walk unchecked;
  for an index near INT_MIN the model returns 96 where the source's
  decrement overflows.
- DpiReading: the device context passed to `GetDeviceCaps` is whatever the
  monitor record carries. The walk is started with a null device context,
  and for that call the platform hands the callback a null `hdcMonitor`. The
  model does not tie `Monitor.dc` to that null value, so the fallback
  reading is an arbitrary `GetDeviceCaps` answer, not the one for a null
  device context.
- DisplayServerWindows.constructor: `windowClassRegistered_` is read by the
  source but its declaration is not part of this model; the field and its
  initial `false` are the model's own choice.
- HotkeyModifier has `int` as its underlying type; it is modelled by its
  32-bit pattern, like the two `uint32` flag enums.
- `Feature`'s and `Orientation`'s underlying integer values are not modelled;
  only the case names matter to the backend.
