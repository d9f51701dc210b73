/** The two low-level hook callbacks of src/windows.rs (`keyboard_proc`,
    `mouse_proc`): decode an invocation into an optional (native code,
    state) pair, write that state into the tracked entry, and always pass
    the invocation on to the next hook. */
module Hooks {
  import opened Errors
  import opened Catalog
  import opened Table
  import opened Os

  /** `wparam.0 as u32`: the message number, truncated to 32 bits. */
  function Message(wparam: nat): U32
  {
    wparam % 0x1_0000_0000
  }

  /** `(info.mouseData >> 16) as u16`: the extra-button id. */
  function HighWord(data: U32): U16
  {
    data / 0x1_0000
  }

  /** The match on the keyboard message: key-down variants press, key-up
      variants release, anything else is not a key transition. */
  function KeyTransition(message: U32): Option<State>
  {
    if message == WM_KEYDOWN || message == WM_SYSKEYDOWN then Some(Pressed)
    else if message == WM_KEYUP || message == WM_SYSKEYUP then Some(Released)
    else None
  }

  /** The match on (mouse message, extra-button id). */
  function ButtonTransition(message: U32, xbutton: U16): Option<(VirtualKey, State)>
  {
    if message == WM_LBUTTONDOWN then Some((VK_LBUTTON, Pressed))
    else if message == WM_LBUTTONUP then Some((VK_LBUTTON, Released))
    else if message == WM_RBUTTONDOWN then Some((VK_RBUTTON, Pressed))
    else if message == WM_RBUTTONUP then Some((VK_RBUTTON, Released))
    else if message == WM_MBUTTONDOWN then Some((VK_MBUTTON, Pressed))
    else if message == WM_MBUTTONUP then Some((VK_MBUTTON, Released))
    else if message == WM_XBUTTONDOWN && xbutton == XBUTTON1 then Some((VK_XBUTTON1, Pressed))
    else if message == WM_XBUTTONUP && xbutton == XBUTTON1 then Some((VK_XBUTTON1, Released))
    else if message == WM_XBUTTONDOWN && xbutton == XBUTTON2 then Some((VK_XBUTTON2, Pressed))
    else if message == WM_XBUTTONUP && xbutton == XBUTTON2 then Some((VK_XBUTTON2, Released))
    else None
  }

  /** What `keyboard_proc` extracts from an invocation before touching the
      table: nothing for a non-action code, a non-key message or an
      injected event; otherwise the virtual key truncated to 16 bits and
      the new state. */
  function KeyboardDecode(code: I32, wparam: nat, info: KeyboardInfo): (r: Option<(VirtualKey, State)>)
    ensures r.Some? <==>
      code == HC_ACTION && KeyTransition(Message(wparam)).Some? && info.flags & LLKHF_INJECTED == 0
    ensures r.Some? ==> r.value.0 == info.vkCode % 0x1_0000
    ensures r.Some? ==>
      (r.value.1 == Pressed <==> Message(wparam) == WM_KEYDOWN || Message(wparam) == WM_SYSKEYDOWN)
  {
    if code != HC_ACTION then None
    else
      match KeyTransition(Message(wparam))
      case None => None
      case Some(state) =>
        if info.flags & LLKHF_INJECTED != 0 then None
        else Some((info.vkCode % 0x1_0000, state))
  }

  /** What `mouse_proc` extracts: nothing for a non-action code, an
      unrecognised message, an extra-button message whose high word is
      neither XBUTTON1 nor XBUTTON2, or an injected event; otherwise one of
      the five button codes and the new state. */
  function MouseDecode(code: I32, wparam: nat, info: MouseInfo): (r: Option<(VirtualKey, State)>)
    ensures r.Some? <==>
      code == HC_ACTION && ButtonTransition(Message(wparam), HighWord(info.mouseData)).Some?
      && info.flags & LLMHF_INJECTED == 0
    ensures r.Some? ==>
      r.value.0 in {VK_LBUTTON, VK_RBUTTON, VK_MBUTTON, VK_XBUTTON1, VK_XBUTTON2}
    ensures ((Message(wparam) == WM_XBUTTONDOWN || Message(wparam) == WM_XBUTTONUP)
             && HighWord(info.mouseData) != XBUTTON1 && HighWord(info.mouseData) != XBUTTON2) ==> r.None?
  {
    if code != HC_ACTION then None
    else
      match ButtonTransition(Message(wparam), HighWord(info.mouseData))
      case None => None
      case Some(event) =>
        if info.flags & LLMHF_INJECTED != 0 then None
        else Some(event)
  }

  /** The message the system reports when a keyboard key goes down or up;
      `system` selects the WM_SYS* variant. */
  function KeyMessage(s: State, system: bool): U32
  {
    match s
    case Pressed => if system then WM_SYSKEYDOWN else WM_KEYDOWN
    case Released => if system then WM_SYSKEYUP else WM_KEYUP
  }

  /** The message the system reports when the mouse button with native
      code `vk` goes down or up. */
  function ButtonMessage(vk: VirtualKey, s: State): U32
  {
    if vk == VK_LBUTTON then (if s == Pressed then WM_LBUTTONDOWN else WM_LBUTTONUP)
    else if vk == VK_RBUTTON then (if s == Pressed then WM_RBUTTONDOWN else WM_RBUTTONUP)
    else if vk == VK_MBUTTON then (if s == Pressed then WM_MBUTTONDOWN else WM_MBUTTONUP)
    else if s == Pressed then WM_XBUTTONDOWN else WM_XBUTTONUP
  }

  /** A physical (not injected) transition of the key with virtual-key
      code `vk` decodes to that same code, the one the key's table entry
      is stored under, and to the state it moved to. */
  lemma KeyboardEventDecodes(vk: VirtualKey, s: State, system: bool, flags: bv32)
    requires flags & LLKHF_INJECTED == 0
    ensures KeyboardDecode(HC_ACTION, KeyMessage(s, system), KeyboardInfo(vk, flags)) == Some((vk, s))
  {
    assert vk % 0x1_0000 == vk;
    assert Message(KeyMessage(s, system)) == KeyMessage(s, system);
    assert KeyTransition(KeyMessage(s, system)) == Some(s);
  }

  /** A physical (not injected) transition of the mouse button with native
      code `vk` decodes to that same code, the one the button's table entry
      is stored under, and to the state it moved to, provided an extra
      button reports its id in the high word of `mouseData`. */
  lemma MouseEventDecodes(vk: VirtualKey, s: State, data: U32, flags: bv32)
    requires vk in {VK_LBUTTON, VK_RBUTTON, VK_MBUTTON, VK_XBUTTON1, VK_XBUTTON2}
    requires flags & LLMHF_INJECTED == 0
    requires vk == VK_XBUTTON1 ==> HighWord(data) == XBUTTON1
    requires vk == VK_XBUTTON2 ==> HighWord(data) == XBUTTON2
    ensures MouseDecode(HC_ACTION, ButtonMessage(vk, s), MouseInfo(data, flags)) == Some((vk, s))
  {
    var message := ButtonMessage(vk, s);
    assert Message(message) == message;
    assert ButtonTransition(message, HighWord(data)) == Some((vk, s));
  }

  /** Decoding of either kind of invocation. */
  function Decode(call: HookCall): Option<(VirtualKey, State)>
  {
    match call
    case KeyboardCall(code, wparam, info) => KeyboardDecode(code, wparam, info)
    case MouseCall(code, wparam, info) => MouseDecode(code, wparam, info)
  }

  /** The invocation reports an event that SendInput injected. */
  predicate Injected(call: HookCall)
  {
    match call
    case KeyboardCall(_, _, info) => info.flags & LLKHF_INJECTED != 0
    case MouseCall(_, _, info) => info.flags & LLMHF_INJECTED != 0
  }

  /** The effect of one invocation on the table cell. */
  function Observe(keys: Option<Keys>, call: HookCall): (r: Option<Keys>)
    ensures r.Some? <==> keys.Some?
    ensures keys.Some? ==> SameShape(r.value, keys.value)
    ensures Decode(call).None? ==> r == keys
    ensures keys.Some? && Decode(call).Some? ==>
      forall c :: c in r.value ==>
        r.value[c].state == (if c == Decode(call).value.0 then Decode(call).value.1 else keys.value[c].state)
  {
    match keys
    case None => None
    case Some(m) =>
      match Decode(call)
      case None => keys
      case Some(event) => Some(WithState(m, event.0, event.1))
  }

  /** A physical key transition reaching `keyboard_proc` leaves the key's
      entry, if the table has one, in the state the key moved to, and
      every other entry as it was. */
  lemma KeyEventSetsState(m: Keys, vk: VirtualKey, s: State, system: bool, flags: bv32)
    requires flags & LLKHF_INJECTED == 0
    ensures Observe(Some(m), KeyboardCall(HC_ACTION, KeyMessage(s, system), KeyboardInfo(vk, flags))).Some?
    ensures var r := Observe(Some(m), KeyboardCall(HC_ACTION, KeyMessage(s, system), KeyboardInfo(vk, flags))).value;
      forall c :: c in r ==> r[c].state == (if c == vk then s else m[c].state)
  {
    KeyboardEventDecodes(vk, s, system, flags);
  }

  /** The same for a physical mouse-button transition reaching
      `mouse_proc`. */
  lemma ButtonEventSetsState(m: Keys, vk: VirtualKey, s: State, data: U32, flags: bv32)
    requires vk in {VK_LBUTTON, VK_RBUTTON, VK_MBUTTON, VK_XBUTTON1, VK_XBUTTON2}
    requires flags & LLMHF_INJECTED == 0
    requires vk == VK_XBUTTON1 ==> HighWord(data) == XBUTTON1
    requires vk == VK_XBUTTON2 ==> HighWord(data) == XBUTTON2
    ensures Observe(Some(m), MouseCall(HC_ACTION, ButtonMessage(vk, s), MouseInfo(data, flags))).Some?
    ensures var r := Observe(Some(m), MouseCall(HC_ACTION, ButtonMessage(vk, s), MouseInfo(data, flags))).value;
      forall c :: c in r ==> r[c].state == (if c == vk then s else m[c].state)
  {
    MouseEventDecodes(vk, s, data, flags);
  }

  /** The feedback guard: an injected event never changes the table,
      whatever code and message it carries. */
  lemma InjectedCallIgnored(keys: Option<Keys>, call: HookCall)
    requires Injected(call)
    ensures Observe(keys, call) == keys
  {
  }

  /** `keyboard_proc`. */
  method KeyboardProc(cell: KeyCell, host: Host, code: I32, wparam: nat, info: KeyboardInfo)
    modifies cell, host`forwarded
    ensures cell.keys == Observe(old(cell.keys), KeyboardCall(code, wparam, info))
    ensures host.forwarded == old(host.forwarded) + [KeyboardCall(code, wparam, info)]
  {
    var event := KeyboardDecode(code, wparam, info);
    if event.Some? {
      cell.SetState(event.value.0, event.value.1);
    }
    host.CallNextHookEx(KeyboardCall(code, wparam, info));
  }

  /** `mouse_proc`. */
  method MouseProc(cell: KeyCell, host: Host, code: I32, wparam: nat, info: MouseInfo)
    modifies cell, host`forwarded
    ensures cell.keys == Observe(old(cell.keys), MouseCall(code, wparam, info))
    ensures host.forwarded == old(host.forwarded) + [MouseCall(code, wparam, info)]
  {
    var event := MouseDecode(code, wparam, info);
    if event.Some? {
      cell.SetState(event.value.0, event.value.1);
    }
    host.CallNextHookEx(MouseCall(code, wparam, info));
  }
}
