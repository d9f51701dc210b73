/** The key catalog: the closed set of keys a configuration may name, the
    Windows virtual-key code of each, and the pair of synthetic input
    descriptors (press, release) that re-emit it (`into_raw`,
    `convert_keyboard` and `convert_mouse` in src/windows.rs). */
module Catalog {
  import opened Errors

  type U16 = x: int | 0 <= x < 0x1_0000
  type U32 = x: int | 0 <= x < 0x1_0000_0000

  /** VIRTUAL_KEY: a 16-bit virtual-key code. It is also the key of the state table. */
  type VirtualKey = U16

  /** Stand-in for MapVirtualKeyW(vk, MAPVK_VK_TO_VSC): the scan code of a
      virtual key, where 0 means that the key has none. */
  type ScanCodeOracle = VirtualKey -> U32

  /** The logical keys a configuration can name. */
  datatype Key =
    | Backquote
    | Backslash
    | BracketLeft
    | BracketRight
    | Comma
    | Zero
    | One
    | Two
    | Three
    | Four
    | Five
    | Six
    | Seven
    | Eight
    | Nine
    | Equal
    | A
    | B
    | C
    | D
    | E
    | F
    | G
    | H
    | I
    | J
    | K
    | L
    | M
    | N
    | O
    | P
    | Q
    | R
    | S
    | T
    | U
    | V
    | W
    | X
    | Y
    | Z
    | Minus
    | Period
    | Quote
    | Semicolon
    | Slash
    | AltLeft
    | AltRight
    | Backspace
    | CapsLock
    | ControlLeft
    | ControlRight
    | Enter
    | SuperLeft
    | SuperRight
    | ShiftLeft
    | ShiftRight
    | Space
    | Tab
    | Delete
    | End
    | Home
    | Insert
    | PageDown
    | PageUp
    | ArrowDown
    | ArrowLeft
    | ArrowRight
    | ArrowUp
    | Escape
    | PrintScreen
    | ScrollLock
    | Pause
    | F1
    | F2
    | F3
    | F4
    | F5
    | F6
    | F7
    | F8
    | F9
    | F10
    | F11
    | F12
    | F13
    | F14
    | F15
    | F16
    | F17
    | F18
    | F19
    | F20
    | F21
    | F22
    | F23
    | F24
    | MouseLeft
    | MouseRight
    | MouseMiddle
    | MouseBack
    | MouseForward

  // Virtual-key codes, with the values of the Windows headers.
  const VK_LBUTTON: VirtualKey := 0x01
  const VK_RBUTTON: VirtualKey := 0x02
  const VK_MBUTTON: VirtualKey := 0x04
  const VK_XBUTTON1: VirtualKey := 0x05
  const VK_XBUTTON2: VirtualKey := 0x06
  const VK_BACK: VirtualKey := 0x08
  const VK_TAB: VirtualKey := 0x09
  const VK_RETURN: VirtualKey := 0x0D
  const VK_PAUSE: VirtualKey := 0x13
  const VK_CAPITAL: VirtualKey := 0x14
  const VK_ESCAPE: VirtualKey := 0x1B
  const VK_SPACE: VirtualKey := 0x20
  const VK_PRIOR: VirtualKey := 0x21
  const VK_NEXT: VirtualKey := 0x22
  const VK_END: VirtualKey := 0x23
  const VK_HOME: VirtualKey := 0x24
  const VK_LEFT: VirtualKey := 0x25
  const VK_UP: VirtualKey := 0x26
  const VK_RIGHT: VirtualKey := 0x27
  const VK_DOWN: VirtualKey := 0x28
  const VK_SNAPSHOT: VirtualKey := 0x2C
  const VK_INSERT: VirtualKey := 0x2D
  const VK_DELETE: VirtualKey := 0x2E
  const VK_0: VirtualKey := 0x30
  const VK_1: VirtualKey := 0x31
  const VK_2: VirtualKey := 0x32
  const VK_3: VirtualKey := 0x33
  const VK_4: VirtualKey := 0x34
  const VK_5: VirtualKey := 0x35
  const VK_6: VirtualKey := 0x36
  const VK_7: VirtualKey := 0x37
  const VK_8: VirtualKey := 0x38
  const VK_9: VirtualKey := 0x39
  const VK_A: VirtualKey := 0x41
  const VK_B: VirtualKey := 0x42
  const VK_C: VirtualKey := 0x43
  const VK_D: VirtualKey := 0x44
  const VK_E: VirtualKey := 0x45
  const VK_F: VirtualKey := 0x46
  const VK_G: VirtualKey := 0x47
  const VK_H: VirtualKey := 0x48
  const VK_I: VirtualKey := 0x49
  const VK_J: VirtualKey := 0x4A
  const VK_K: VirtualKey := 0x4B
  const VK_L: VirtualKey := 0x4C
  const VK_M: VirtualKey := 0x4D
  const VK_N: VirtualKey := 0x4E
  const VK_O: VirtualKey := 0x4F
  const VK_P: VirtualKey := 0x50
  const VK_Q: VirtualKey := 0x51
  const VK_R: VirtualKey := 0x52
  const VK_S: VirtualKey := 0x53
  const VK_T: VirtualKey := 0x54
  const VK_U: VirtualKey := 0x55
  const VK_V: VirtualKey := 0x56
  const VK_W: VirtualKey := 0x57
  const VK_X: VirtualKey := 0x58
  const VK_Y: VirtualKey := 0x59
  const VK_Z: VirtualKey := 0x5A
  const VK_LWIN: VirtualKey := 0x5B
  const VK_RWIN: VirtualKey := 0x5C
  const VK_F1: VirtualKey := 0x70
  const VK_F2: VirtualKey := 0x71
  const VK_F3: VirtualKey := 0x72
  const VK_F4: VirtualKey := 0x73
  const VK_F5: VirtualKey := 0x74
  const VK_F6: VirtualKey := 0x75
  const VK_F7: VirtualKey := 0x76
  const VK_F8: VirtualKey := 0x77
  const VK_F9: VirtualKey := 0x78
  const VK_F10: VirtualKey := 0x79
  const VK_F11: VirtualKey := 0x7A
  const VK_F12: VirtualKey := 0x7B
  const VK_F13: VirtualKey := 0x7C
  const VK_F14: VirtualKey := 0x7D
  const VK_F15: VirtualKey := 0x7E
  const VK_F16: VirtualKey := 0x7F
  const VK_F17: VirtualKey := 0x80
  const VK_F18: VirtualKey := 0x81
  const VK_F19: VirtualKey := 0x82
  const VK_F20: VirtualKey := 0x83
  const VK_F21: VirtualKey := 0x84
  const VK_F22: VirtualKey := 0x85
  const VK_F23: VirtualKey := 0x86
  const VK_F24: VirtualKey := 0x87
  const VK_SCROLL: VirtualKey := 0x91
  const VK_LSHIFT: VirtualKey := 0xA0
  const VK_RSHIFT: VirtualKey := 0xA1
  const VK_LCONTROL: VirtualKey := 0xA2
  const VK_RCONTROL: VirtualKey := 0xA3
  const VK_LMENU: VirtualKey := 0xA4
  const VK_RMENU: VirtualKey := 0xA5
  const VK_OEM_1: VirtualKey := 0xBA
  const VK_OEM_PLUS: VirtualKey := 0xBB
  const VK_OEM_COMMA: VirtualKey := 0xBC
  const VK_OEM_MINUS: VirtualKey := 0xBD
  const VK_OEM_PERIOD: VirtualKey := 0xBE
  const VK_OEM_2: VirtualKey := 0xBF
  const VK_OEM_3: VirtualKey := 0xC0
  const VK_OEM_4: VirtualKey := 0xDB
  const VK_OEM_5: VirtualKey := 0xDC
  const VK_OEM_6: VirtualKey := 0xDD
  const VK_OEM_7: VirtualKey := 0xDE

  // Flags and auxiliary data of the synthetic input descriptors.
  const KEYEVENTF_KEYUP: U32 := 0x0002
  const MOUSEEVENTF_LEFTDOWN: U32 := 0x0002
  const MOUSEEVENTF_LEFTUP: U32 := 0x0004
  const MOUSEEVENTF_RIGHTDOWN: U32 := 0x0008
  const MOUSEEVENTF_RIGHTUP: U32 := 0x0010
  const MOUSEEVENTF_MIDDLEDOWN: U32 := 0x0020
  const MOUSEEVENTF_MIDDLEUP: U32 := 0x0040
  const MOUSEEVENTF_XDOWN: U32 := 0x0080
  const MOUSEEVENTF_XUP: U32 := 0x0100
  const XBUTTON1: U16 := 0x0001
  const XBUTTON2: U16 := 0x0002

  /** One INPUT record for SendInput. Fields the source leaves at their
      defaults (coordinates, time, extra info) are zero and not represented. */
  datatype Input =
    | KeyboardInput(wVk: VirtualKey, wScan: U16, dwFlags: U32)
    | MouseInput(mouseData: U32, dwFlags: U32)

  /** The `[INPUT; 2]` array sent for one repeat: press, then release. */
  datatype InputPair = InputPair(press: Input, release: Input)

  /** What `into_raw` returns: the native code and its descriptor pair. */
  datatype Raw = Raw(vk: VirtualKey, inputs: InputPair)

  /** Which converter an arm of `into_raw` calls, and with which arguments. */
  datatype Binding =
    | KeyboardKey(vk: VirtualKey)
    | MouseButton(vk: VirtualKey, down: U32, up: U32, x: Option<U16>)

  predicate IsMouseButton(key: Key)
  {
    key == MouseLeft || key == MouseRight || key == MouseMiddle || key == MouseBack || key == MouseForward
  }

  /** The keyboard arms of the match in `into_raw`: the virtual key each
      keyboard key hands to `convert_keyboard`. */
  function KeyboardCode(key: Key): (vk: VirtualKey)
    requires !IsMouseButton(key)
    ensures KeyWithCode(vk) == Some(key)
  {
    match key
    case Backquote => VK_OEM_3
    case Backslash => VK_OEM_5
    case BracketLeft => VK_OEM_4
    case BracketRight => VK_OEM_6
    case Comma => VK_OEM_COMMA
    case Zero => VK_0
    case One => VK_1
    case Two => VK_2
    case Three => VK_3
    case Four => VK_4
    case Five => VK_5
    case Six => VK_6
    case Seven => VK_7
    case Eight => VK_8
    case Nine => VK_9
    case Equal => VK_OEM_PLUS
    case A => VK_A
    case B => VK_B
    case C => VK_C
    case D => VK_D
    case E => VK_E
    case F => VK_F
    case G => VK_G
    case H => VK_H
    case I => VK_I
    case J => VK_J
    case K => VK_K
    case L => VK_L
    case M => VK_M
    case N => VK_N
    case O => VK_O
    case P => VK_P
    case Q => VK_Q
    case R => VK_R
    case S => VK_S
    case T => VK_T
    case U => VK_U
    case V => VK_V
    case W => VK_W
    case X => VK_X
    case Y => VK_Y
    case Z => VK_Z
    case Minus => VK_OEM_MINUS
    case Period => VK_OEM_PERIOD
    case Quote => VK_OEM_7
    case Semicolon => VK_OEM_1
    case Slash => VK_OEM_2
    case AltLeft => VK_LMENU
    case AltRight => VK_RMENU
    case Backspace => VK_BACK
    case CapsLock => VK_CAPITAL
    case ControlLeft => VK_LCONTROL
    case ControlRight => VK_RCONTROL
    case Enter => VK_RETURN
    case SuperLeft => VK_LWIN
    case SuperRight => VK_RWIN
    case ShiftLeft => VK_LSHIFT
    case ShiftRight => VK_RSHIFT
    case Space => VK_SPACE
    case Tab => VK_TAB
    case Delete => VK_DELETE
    case End => VK_END
    case Home => VK_HOME
    case Insert => VK_INSERT
    case PageDown => VK_NEXT
    case PageUp => VK_PRIOR
    case ArrowDown => VK_DOWN
    case ArrowLeft => VK_LEFT
    case ArrowRight => VK_RIGHT
    case ArrowUp => VK_UP
    case Escape => VK_ESCAPE
    case PrintScreen => VK_SNAPSHOT
    case ScrollLock => VK_SCROLL
    case Pause => VK_PAUSE
    case F1 => VK_F1
    case F2 => VK_F2
    case F3 => VK_F3
    case F4 => VK_F4
    case F5 => VK_F5
    case F6 => VK_F6
    case F7 => VK_F7
    case F8 => VK_F8
    case F9 => VK_F9
    case F10 => VK_F10
    case F11 => VK_F11
    case F12 => VK_F12
    case F13 => VK_F13
    case F14 => VK_F14
    case F15 => VK_F15
    case F16 => VK_F16
    case F17 => VK_F17
    case F18 => VK_F18
    case F19 => VK_F19
    case F20 => VK_F20
    case F21 => VK_F21
    case F22 => VK_F22
    case F23 => VK_F23
    case F24 => VK_F24
  }

  /** The mouse arms of the match in `into_raw`: the arguments each button
      hands to `convert_mouse`. */
  function MouseBinding(key: Key): (b: Binding)
    requires IsMouseButton(key)
    ensures b.MouseButton?
    ensures b.vk in {VK_LBUTTON, VK_RBUTTON, VK_MBUTTON, VK_XBUTTON1, VK_XBUTTON2}
    ensures KeyWithCode(b.vk) == Some(key)
  {
    match key
    case MouseLeft => MouseButton(VK_LBUTTON, MOUSEEVENTF_LEFTDOWN, MOUSEEVENTF_LEFTUP, None)
    // The release flag of the right button is the LEFT button's, as written.
    case MouseRight => MouseButton(VK_RBUTTON, MOUSEEVENTF_RIGHTDOWN, MOUSEEVENTF_LEFTUP, None)
    case MouseMiddle => MouseButton(VK_MBUTTON, MOUSEEVENTF_MIDDLEDOWN, MOUSEEVENTF_MIDDLEUP, None)
    case MouseBack => MouseButton(VK_XBUTTON1, MOUSEEVENTF_XDOWN, MOUSEEVENTF_XUP, Some(XBUTTON1))
    case MouseForward => MouseButton(VK_XBUTTON2, MOUSEEVENTF_XDOWN, MOUSEEVENTF_XUP, Some(XBUTTON2))
  }

  /** The match of `into_raw`: the converter each key's arm calls, and its arguments. */
  function BindingOf(key: Key): Binding
  {
    if IsMouseButton(key) then MouseBinding(key) else KeyboardKey(KeyboardCode(key))
  }

  /** The native code of a key: the first component of what `into_raw` returns. */
  function NativeCode(key: Key): VirtualKey
  {
    BindingOf(key).vk
  }

  /** `convert_keyboard`: look the scan code up, fail when there is none,
      otherwise build a keyboard press and a keyboard release that differ
      only in the KEYUP flag. The scan code is truncated to 16 bits
      (`code as u16`). */
  function ConvertKeyboard(vk: VirtualKey, mapVk: ScanCodeOracle): (r: Result<Raw>)
    ensures r.Err? <==> mapVk(vk) == 0
    ensures r.Err? ==> r.error == NoScanCode(vk)
    ensures r.Ok? ==> r.value.vk == vk
    ensures r.Ok? ==> var p := r.value.inputs;
      && p.press.KeyboardInput? && p.release.KeyboardInput?
      && p.press.wVk == p.release.wVk == vk
      && p.press.wScan == p.release.wScan == mapVk(vk) % 0x1_0000
      && p.press.dwFlags == 0
      && p.release.dwFlags == KEYEVENTF_KEYUP
  {
    var code := mapVk(vk);
    if code == 0 then
      Err(NoScanCode(vk))
    else
      var input := KeyboardInput(vk, code % 0x1_0000, 0);
      Ok(Raw(vk, InputPair(input, KeyboardInput(vk, code % 0x1_0000, KEYEVENTF_KEYUP))))
  }

  /** `convert_mouse`: two mouse descriptors carrying the down and the up
      flag, both with the extra-button id (or 0) as `mouseData`. */
  function ConvertMouse(vk: VirtualKey, down: U32, up: U32, x: Option<U16>): (r: Raw)
    ensures r.vk == vk
    ensures r.inputs.press.MouseInput? && r.inputs.release.MouseInput?
    ensures r.inputs.press.mouseData == r.inputs.release.mouseData
    ensures r.inputs.press.mouseData == (if x.Some? then x.value else 0)
    ensures r.inputs.press.dwFlags == down && r.inputs.release.dwFlags == up
  {
    var data := match x case Some(id) => id case None => 0;
    Raw(vk, InputPair(MouseInput(data, down), MouseInput(data, up)))
  }

  /** `into_raw`: translate a key. The only failure is a keyboard key whose
      virtual key has no scan code. */
  function IntoRaw(key: Key, mapVk: ScanCodeOracle): (r: Result<Raw>)
    ensures r.Err? <==> !IsMouseButton(key) && mapVk(NativeCode(key)) == 0
    ensures r.Err? ==> r.error == NoScanCode(NativeCode(key))
    ensures r.Ok? ==> r.value.vk == NativeCode(key)
  {
    match BindingOf(key)
    case KeyboardKey(vk) => ConvertKeyboard(vk, mapVk)
    case MouseButton(vk, down, up, x) => Ok(ConvertMouse(vk, down, up, x))
  }

  /** A keyboard key that has a scan code translates to a keyboard press
      with no flags and a keyboard release with KEYEVENTF_KEYUP, both for
      the key's own virtual key and the same scan code. */
  lemma KeyboardKeyTranslation(key: Key, mapVk: ScanCodeOracle)
    requires !IsMouseButton(key) && mapVk(NativeCode(key)) != 0
    ensures IntoRaw(key, mapVk).Ok?
    ensures var p := IntoRaw(key, mapVk).value.inputs;
      && p.press.KeyboardInput? && p.release.KeyboardInput?
      && p.press.wVk == p.release.wVk == NativeCode(key)
      && p.press.wScan == p.release.wScan == mapVk(NativeCode(key)) % 0x1_0000
      && p.press.dwFlags == 0 && p.release.dwFlags == KEYEVENTF_KEYUP
  {
  }

  /** The five mouse buttons never fail, carry the extra-button id of the
      back and forward buttons as `mouseData` (0 for the others), and use
      the down/up flags of the match, including the left-button release
      flag written for the right button. */
  lemma MouseButtonTranslation(key: Key, mapVk: ScanCodeOracle)
    requires IsMouseButton(key)
    ensures IntoRaw(key, mapVk).Ok?
    ensures var p := IntoRaw(key, mapVk).value.inputs;
      && p.press.MouseInput? && p.release.MouseInput?
      && p.press.mouseData == p.release.mouseData
      && p.press.mouseData == (if key == MouseBack then XBUTTON1 else if key == MouseForward then XBUTTON2 else 0)
      && (key == MouseLeft ==> p.press.dwFlags == MOUSEEVENTF_LEFTDOWN && p.release.dwFlags == MOUSEEVENTF_LEFTUP)
      && (key == MouseRight ==> p.press.dwFlags == MOUSEEVENTF_RIGHTDOWN && p.release.dwFlags == MOUSEEVENTF_LEFTUP)
      && (key == MouseMiddle ==> p.press.dwFlags == MOUSEEVENTF_MIDDLEDOWN && p.release.dwFlags == MOUSEEVENTF_MIDDLEUP)
      && (key == MouseBack || key == MouseForward ==> p.press.dwFlags == MOUSEEVENTF_XDOWN && p.release.dwFlags == MOUSEEVENTF_XUP)
  {
    match key
    case MouseLeft =>
      assert BindingOf(key) == MouseButton(VK_LBUTTON, MOUSEEVENTF_LEFTDOWN, MOUSEEVENTF_LEFTUP, None);
    case MouseRight =>
      assert BindingOf(key) == MouseButton(VK_RBUTTON, MOUSEEVENTF_RIGHTDOWN, MOUSEEVENTF_LEFTUP, None);
    case MouseMiddle =>
      assert BindingOf(key) == MouseButton(VK_MBUTTON, MOUSEEVENTF_MIDDLEDOWN, MOUSEEVENTF_MIDDLEUP, None);
    case MouseBack =>
      assert BindingOf(key) == MouseButton(VK_XBUTTON1, MOUSEEVENTF_XDOWN, MOUSEEVENTF_XUP, Some(XBUTTON1));
    case MouseForward =>
      assert BindingOf(key) == MouseButton(VK_XBUTTON2, MOUSEEVENTF_XDOWN, MOUSEEVENTF_XUP, Some(XBUTTON2));

    case _ =>
      assert false;
  }

  /** As written, releasing a repeated right button injects exactly the
      descriptor that releases the left button, never MOUSEEVENTF_RIGHTUP. */
  lemma MouseRightReleasesLeftButton(mapVk: ScanCodeOracle)
    ensures IntoRaw(MouseRight, mapVk).Ok? && IntoRaw(MouseLeft, mapVk).Ok?
    ensures IntoRaw(MouseRight, mapVk).value.inputs.release == IntoRaw(MouseLeft, mapVk).value.inputs.release
    ensures IntoRaw(MouseRight, mapVk).value.inputs.release.dwFlags != MOUSEEVENTF_RIGHTUP
  {
    assert BindingOf(MouseRight) == MouseButton(VK_RBUTTON, MOUSEEVENTF_RIGHTDOWN, MOUSEEVENTF_LEFTUP, None);
    assert BindingOf(MouseLeft) == MouseButton(VK_LBUTTON, MOUSEEVENTF_LEFTDOWN, MOUSEEVENTF_LEFTUP, None);
  }

  /** The key a native code belongs to, if any: the inverse of NativeCode
      (see KeyWithCodeInverts). */
  ghost function KeyWithCode(c: VirtualKey): Option<Key>
  {
    KeyWithCodeAt(c, 3)
  }

  /** KeyTree, reached through `depth` trivial recursive steps. The depth
      has no meaning: it exists only so that the verifier does not unfold
      the whole tree wherever KeyWithCode of an unknown code appears,
      while KeyWithCode of a literal code still evaluates to its key. */
  ghost function KeyWithCodeAt(c: VirtualKey, depth: nat): Option<Key>
    decreases depth
  {
    if depth == 0 then KeyTree(c) else KeyWithCodeAt(c, depth - 1)
  }

  /** A binary search over the native codes in increasing order. */
  ghost function KeyTree(c: VirtualKey): Option<Key>
  {
    if c < VK_S then
      if c < VK_2 then
        if c < VK_PRIOR then
          if c < VK_TAB then
            if c < VK_XBUTTON1 then
              if c < VK_RBUTTON then
                if c == VK_LBUTTON then Some(MouseLeft) else None
              else
                if c < VK_MBUTTON then
                  if c == VK_RBUTTON then Some(MouseRight) else None
                else
                  if c == VK_MBUTTON then Some(MouseMiddle) else None
            else
              if c < VK_XBUTTON2 then
                if c == VK_XBUTTON1 then Some(MouseBack) else None
              else
                if c < VK_BACK then
                  if c == VK_XBUTTON2 then Some(MouseForward) else None
                else
                  if c == VK_BACK then Some(Backspace) else None
          else
            if c < VK_CAPITAL then
              if c < VK_RETURN then
                if c == VK_TAB then Some(Tab) else None
              else
                if c < VK_PAUSE then
                  if c == VK_RETURN then Some(Enter) else None
                else
                  if c == VK_PAUSE then Some(Pause) else None
            else
              if c < VK_ESCAPE then
                if c == VK_CAPITAL then Some(CapsLock) else None
              else
                if c < VK_SPACE then
                  if c == VK_ESCAPE then Some(Escape) else None
                else
                  if c == VK_SPACE then Some(Space) else None
        else
          if c < VK_RIGHT then
            if c < VK_HOME then
              if c < VK_NEXT then
                if c == VK_PRIOR then Some(PageUp) else None
              else
                if c < VK_END then
                  if c == VK_NEXT then Some(PageDown) else None
                else
                  if c == VK_END then Some(End) else None
            else
              if c < VK_LEFT then
                if c == VK_HOME then Some(Home) else None
              else
                if c < VK_UP then
                  if c == VK_LEFT then Some(ArrowLeft) else None
                else
                  if c == VK_UP then Some(ArrowUp) else None
          else
            if c < VK_INSERT then
              if c < VK_DOWN then
                if c == VK_RIGHT then Some(ArrowRight) else None
              else
                if c < VK_SNAPSHOT then
                  if c == VK_DOWN then Some(ArrowDown) else None
                else
                  if c == VK_SNAPSHOT then Some(PrintScreen) else None
            else
              if c < VK_0 then
                if c < VK_DELETE then
                  if c == VK_INSERT then Some(Insert) else None
                else
                  if c == VK_DELETE then Some(Delete) else None
              else
                if c < VK_1 then
                  if c == VK_0 then Some(Zero) else None
                else
                  if c == VK_1 then Some(One) else None
      else
        if c < VK_F then
          if c < VK_8 then
            if c < VK_5 then
              if c < VK_3 then
                if c == VK_2 then Some(Two) else None
              else
                if c < VK_4 then
                  if c == VK_3 then Some(Three) else None
                else
                  if c == VK_4 then Some(Four) else None
            else
              if c < VK_6 then
                if c == VK_5 then Some(Five) else None
              else
                if c < VK_7 then
                  if c == VK_6 then Some(Six) else None
                else
                  if c == VK_7 then Some(Seven) else None
          else
            if c < VK_B then
              if c < VK_9 then
                if c == VK_8 then Some(Eight) else None
              else
                if c < VK_A then
                  if c == VK_9 then Some(Nine) else None
                else
                  if c == VK_A then Some(A) else None
            else
              if c < VK_D then
                if c < VK_C then
                  if c == VK_B then Some(B) else None
                else
                  if c == VK_C then Some(C) else None
              else
                if c < VK_E then
                  if c == VK_D then Some(D) else None
                else
                  if c == VK_E then Some(E) else None
        else
          if c < VK_L then
            if c < VK_I then
              if c < VK_G then
                if c == VK_F then Some(F) else None
              else
                if c < VK_H then
                  if c == VK_G then Some(G) else None
                else
                  if c == VK_H then Some(H) else None
            else
              if c < VK_J then
                if c == VK_I then Some(I) else None
              else
                if c < VK_K then
                  if c == VK_J then Some(J) else None
                else
                  if c == VK_K then Some(K) else None
          else
            if c < VK_O then
              if c < VK_M then
                if c == VK_L then Some(L) else None
              else
                if c < VK_N then
                  if c == VK_M then Some(M) else None
                else
                  if c == VK_N then Some(N) else None
            else
              if c < VK_Q then
                if c < VK_P then
                  if c == VK_O then Some(O) else None
                else
                  if c == VK_P then Some(P) else None
              else
                if c < VK_R then
                  if c == VK_Q then Some(Q) else None
                else
                  if c == VK_R then Some(R) else None
    else
      if c < VK_F17 then
        if c < VK_F4 then
          if c < VK_Y then
            if c < VK_V then
              if c < VK_T then
                if c == VK_S then Some(S) else None
              else
                if c < VK_U then
                  if c == VK_T then Some(T) else None
                else
                  if c == VK_U then Some(U) else None
            else
              if c < VK_W then
                if c == VK_V then Some(V) else None
              else
                if c < VK_X then
                  if c == VK_W then Some(W) else None
                else
                  if c == VK_X then Some(X) else None
          else
            if c < VK_RWIN then
              if c < VK_Z then
                if c == VK_Y then Some(Y) else None
              else
                if c < VK_LWIN then
                  if c == VK_Z then Some(Z) else None
                else
                  if c == VK_LWIN then Some(SuperLeft) else None
            else
              if c < VK_F2 then
                if c < VK_F1 then
                  if c == VK_RWIN then Some(SuperRight) else None
                else
                  if c == VK_F1 then Some(F1) else None
              else
                if c < VK_F3 then
                  if c == VK_F2 then Some(F2) else None
                else
                  if c == VK_F3 then Some(F3) else None
        else
          if c < VK_F10 then
            if c < VK_F7 then
              if c < VK_F5 then
                if c == VK_F4 then Some(F4) else None
              else
                if c < VK_F6 then
                  if c == VK_F5 then Some(F5) else None
                else
                  if c == VK_F6 then Some(F6) else None
            else
              if c < VK_F8 then
                if c == VK_F7 then Some(F7) else None
              else
                if c < VK_F9 then
                  if c == VK_F8 then Some(F8) else None
                else
                  if c == VK_F9 then Some(F9) else None
          else
            if c < VK_F13 then
              if c < VK_F11 then
                if c == VK_F10 then Some(F10) else None
              else
                if c < VK_F12 then
                  if c == VK_F11 then Some(F11) else None
                else
                  if c == VK_F12 then Some(F12) else None
            else
              if c < VK_F15 then
                if c < VK_F14 then
                  if c == VK_F13 then Some(F13) else None
                else
                  if c == VK_F14 then Some(F14) else None
              else
                if c < VK_F16 then
                  if c == VK_F15 then Some(F15) else None
                else
                  if c == VK_F16 then Some(F16) else None
      else
        if c < VK_LMENU then
          if c < VK_F23 then
            if c < VK_F20 then
              if c < VK_F18 then
                if c == VK_F17 then Some(F17) else None
              else
                if c < VK_F19 then
                  if c == VK_F18 then Some(F18) else None
                else
                  if c == VK_F19 then Some(F19) else None
            else
              if c < VK_F21 then
                if c == VK_F20 then Some(F20) else None
              else
                if c < VK_F22 then
                  if c == VK_F21 then Some(F21) else None
                else
                  if c == VK_F22 then Some(F22) else None
          else
            if c < VK_LSHIFT then
              if c < VK_F24 then
                if c == VK_F23 then Some(F23) else None
              else
                if c < VK_SCROLL then
                  if c == VK_F24 then Some(F24) else None
                else
                  if c == VK_SCROLL then Some(ScrollLock) else None
            else
              if c < VK_LCONTROL then
                if c < VK_RSHIFT then
                  if c == VK_LSHIFT then Some(ShiftLeft) else None
                else
                  if c == VK_RSHIFT then Some(ShiftRight) else None
              else
                if c < VK_RCONTROL then
                  if c == VK_LCONTROL then Some(ControlLeft) else None
                else
                  if c == VK_RCONTROL then Some(ControlRight) else None
        else
          if c < VK_OEM_PERIOD then
            if c < VK_OEM_PLUS then
              if c < VK_RMENU then
                if c == VK_LMENU then Some(AltLeft) else None
              else
                if c < VK_OEM_1 then
                  if c == VK_RMENU then Some(AltRight) else None
                else
                  if c == VK_OEM_1 then Some(Semicolon) else None
            else
              if c < VK_OEM_COMMA then
                if c == VK_OEM_PLUS then Some(Equal) else None
              else
                if c < VK_OEM_MINUS then
                  if c == VK_OEM_COMMA then Some(Comma) else None
                else
                  if c == VK_OEM_MINUS then Some(Minus) else None
          else
            if c < VK_OEM_4 then
              if c < VK_OEM_2 then
                if c == VK_OEM_PERIOD then Some(Period) else None
              else
                if c < VK_OEM_3 then
                  if c == VK_OEM_2 then Some(Slash) else None
                else
                  if c == VK_OEM_3 then Some(Backquote) else None
            else
              if c < VK_OEM_6 then
                if c < VK_OEM_5 then
                  if c == VK_OEM_4 then Some(BracketLeft) else None
                else
                  if c == VK_OEM_5 then Some(Backslash) else None
              else
                if c < VK_OEM_7 then
                  if c == VK_OEM_6 then Some(BracketRight) else None
                else
                  if c == VK_OEM_7 then Some(Quote) else None
  }


  lemma KeyWithCodeInverts(key: Key)
    ensures KeyWithCode(NativeCode(key)) == Some(key)
  {
    if IsMouseButton(key) {
      assert NativeCode(key) == MouseBinding(key).vk;
    } else {
      assert NativeCode(key) == KeyboardCode(key);
    }
  }



  /** Distinct keys have distinct native codes, so a native code names one
      physical input. */
  lemma NativeCodeInjective(k1: Key, k2: Key)
    ensures NativeCode(k1) == NativeCode(k2) <==> k1 == k2
  {
    KeyWithCodeInverts(k1);
    KeyWithCodeInverts(k2);
  }
}
