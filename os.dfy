/** Stand-ins for the Windows facilities src/windows.rs calls: the message
    and flag constants the callbacks compare against, the hook structures
    as the callbacks read them, and a host object that records what is
    injected (SendInput), what is forwarded (CallNextHookEx) and which
    hooks are installed. */
module Os {
  import opened Errors
  import opened Catalog

  type I32 = x: int | -0x8000_0000 <= x < 0x8000_0000

  /** Hook code of an event the callback must process. */
  const HC_ACTION: I32 := 0

  // Window messages, with the values of the Windows headers.
  const WM_QUIT: U32 := 0x0012
  const WM_KEYDOWN: U32 := 0x0100
  const WM_KEYUP: U32 := 0x0101
  const WM_SYSKEYDOWN: U32 := 0x0104
  const WM_SYSKEYUP: U32 := 0x0105
  const WM_LBUTTONDOWN: U32 := 0x0201
  const WM_LBUTTONUP: U32 := 0x0202
  const WM_RBUTTONDOWN: U32 := 0x0204
  const WM_RBUTTONUP: U32 := 0x0205
  const WM_MBUTTONDOWN: U32 := 0x0207
  const WM_MBUTTONUP: U32 := 0x0208
  const WM_XBUTTONDOWN: U32 := 0x020B
  const WM_XBUTTONUP: U32 := 0x020C

  /** The "injected by SendInput" bits of the two hook structures. */
  const LLKHF_INJECTED: bv32 := 0x10
  const LLMHF_INJECTED: bv32 := 0x01

  /** The fields of KBDLLHOOKSTRUCT that `keyboard_proc` reads. */
  datatype KeyboardInfo = KeyboardInfo(vkCode: U32, flags: bv32)

  /** The fields of MSLLHOOKSTRUCT that `mouse_proc` reads. */
  datatype MouseInfo = MouseInfo(mouseData: U32, flags: bv32)

  /** One invocation of a low-level hook: its code, its `wparam` (a
      pointer-sized integer) and the structure `lparam` points to. */
  datatype HookCall =
    | KeyboardCall(code: I32, wparam: nat, kbd: KeyboardInfo)
    | MouseCall(code: I32, wparam: nat, mouse: MouseInfo)

  /** The result of each step of hook installation in `run`. */
  datatype HookSetup = HookSetup(moduleHandle: bool, keyboard: bool, mouse: bool)

  class Host {
    /** Every INPUT handed to SendInput, in order. */
    var sent: seq<Input>
    /** Every hook invocation passed on with CallNextHookEx, in order. */
    var forwarded: seq<HookCall>
    var keyboardHook: bool
    var mouseHook: bool

    constructor ()
      ensures sent == [] && forwarded == [] && !keyboardHook && !mouseHook
    {
      sent, forwarded := [], [];
      keyboardHook, mouseHook := false, false;
    }

    /** SendInput with a two-element array: both descriptors, press first. */
    method SendInput(inputs: InputPair)
      modifies this`sent
      ensures sent == old(sent) + [inputs.press, inputs.release]
    {
      sent := sent + [inputs.press, inputs.release];
    }

    /** CallNextHookEx: hand the invocation, unchanged, to the next hook. */
    method CallNextHookEx(call: HookCall)
      modifies this`forwarded
      ensures forwarded == old(forwarded) + [call]
    {
      forwarded := forwarded + [call];
    }
  }
}
