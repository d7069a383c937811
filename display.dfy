/** The enumerations of the platform display interface that the Windows
    backend and the flag operators work with: screen orientation, optional
    features, and the three bit-valued flag enums (window flags, native
    dialog options, hot-key modifiers). A flag enum's type is its 32-bit
    pattern (`bv32`); its named members are given by a datatype of names and
    a function from name to bit. */
module Display {

  import opened BitOps

  /** Screen rotation; kUnknown doubles as the "no such screen" answer. */
  datatype Orientation =
    | Unknown
    | Landscape
    | LandscapeFlipped
    | Portrait
    | PortraitFlipped

  /** Capabilities a backend may or may not support. */
  datatype Feature =
    | HiDpi
    | DarkMode
    | SubWindow
    | WindowedWindow
    | FullscreenWindow
    | BorderlessWindow
    | ExtendToTileWindow
    | RequestAttention
    | ToastNotification
    | Taskbar
    | SystemTray
    | GlobalMenu
    | NativeFileDialog
    | NativeDirDialog
    | VirtualKeyboard
    | Ime
    | Tts
    | Hotkey

  // ---------------------------------------------------------------------
  // WindowFlags : uint32
  // ---------------------------------------------------------------------

  /** WINDOW_INVALID_FLAGS, the empty flag set. */
  const WindowInvalidFlags: bv32 := 0

  /** The named window flags other than WINDOW_INVALID_FLAGS. */
  datatype WindowFlag =
    | Borderless
    | CustomTitlebar
    | Popup
    | SplashScreen
    | AlwaysOnTop
    | Transparent
    | NoFocus
    | NoResizable
    | Passthrough

  /** The bit of a named window flag: one bit among bits 1 to 9 (bit 0 is
      never used). */
  function WindowFlagValue(f: WindowFlag): (v: bv32)
    ensures v != 0 && v & (v - 1) == 0
    ensures v & 1 == 0 && v <= 1 << 9
  {
    match f
    case Borderless => 1 << 1
    case CustomTitlebar => 1 << 2
    case Popup => 1 << 3
    case SplashScreen => 1 << 4
    case AlwaysOnTop => 1 << 5
    case Transparent => 1 << 6
    case NoFocus => 1 << 7
    case NoResizable => 1 << 8
    case Passthrough => 1 << 9
  }

  /** Distinct window flags occupy distinct bits, so two flags share a bit
      exactly when they are the same flag. */
  lemma WindowFlagsDisjoint(f: WindowFlag, g: WindowFlag)
    ensures WindowFlagValue(f) & WindowFlagValue(g) == 0 <==> f != g
  {
  }

  /** WINDOW_INVALID_FLAGS adds nothing to a flag set. */
  lemma InvalidFlagsIsOrIdentity(s: bv32)
    ensures Or(s, WindowInvalidFlags) == s && Or(WindowInvalidFlags, s) == s
  {
  }

  /** A window flag added to any set is then reported by the `&` test, and
      the flags already there stay. */
  lemma AddedWindowFlagIsTestable(s: bv32, f: WindowFlag)
    ensures And(Or(s, WindowFlagValue(f)), WindowFlagValue(f)) == WindowFlagValue(f)
    ensures And(Or(s, WindowFlagValue(f)), s) == s
  {
  }

  // ---------------------------------------------------------------------
  // NativeDialogOptions : uint32
  // ---------------------------------------------------------------------

  datatype NativeDialogOption =
    | MultiSelection
    | DirOnly
    | NoResolveSymlink
    | NoConfirmOverwrite

  /** The bit of a dialog option: one bit among bits 1 to 4; no option is 0. */
  function NativeDialogOptionValue(o: NativeDialogOption): (v: bv32)
    ensures v != 0 && v & (v - 1) == 0
    ensures v & 1 == 0 && v <= 1 << 4
  {
    match o
    case MultiSelection => 1 << 1
    case DirOnly => 1 << 2
    case NoResolveSymlink => 1 << 3
    case NoConfirmOverwrite => 1 << 4
  }

  lemma NativeDialogOptionsDisjoint(o: NativeDialogOption, p: NativeDialogOption)
    ensures NativeDialogOptionValue(o) & NativeDialogOptionValue(p) == 0 <==> o != p
  {
  }

  // ---------------------------------------------------------------------
  // HotkeyModifier : int (its bit pattern)
  // ---------------------------------------------------------------------

  /** KEY_NONE, no modifier. */
  const KeyNone: bv32 := 0

  datatype HotkeyModifier =
    | Ctrl
    | Alt
    | Shift
    | Win
    | Cmd

  /** The bit of a modifier key: one bit among bits 1 to 5. */
  function HotkeyModifierValue(k: HotkeyModifier): (v: bv32)
    ensures v != 0 && v & (v - 1) == 0
    ensures v & 1 == 0 && v <= 1 << 5
  {
    match k
    case Ctrl => 1 << 1
    case Alt => 1 << 2
    case Shift => 1 << 3
    case Win => 1 << 4
    case Cmd => 1 << 5
  }

  lemma HotkeyModifiersDisjoint(k: HotkeyModifier, l: HotkeyModifier)
    ensures HotkeyModifierValue(k) & HotkeyModifierValue(l) == 0 <==> k != l
  {
  }
}
