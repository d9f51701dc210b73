# nezumi key-state engine, modelled in Dafny

nezumi is a Windows auto-repeat tool. It watches system-wide keyboard and
mouse input through two low-level hooks. It tracks the press/release state
of a configured set of "fast" keys and one "exit" key. While a fast key is
held, it re-sends that key's press+release pair on every turn of a busy
loop. Pressing the exit key ends the loop.

This project models the engine in `src/windows.rs`:

- `catalog.dfy` (module `Catalog`) holds the key catalog: the closed `Key`
  enumeration and `into_raw`, `convert_keyboard` and `convert_mouse`.
  `into_raw` maps each key to its Windows virtual-key code and a fixed
  pair of synthetic `INPUT` descriptors. `MapVirtualKeyW` is a parameter
  of type `U16 -> U32`, where 0 means "no scan code".
- `table.dfy` (module `Table`) holds the state table: `Mode`, `State`,
  the entry type and the table map. It also holds its construction from
  the configuration (`BuildKeys`) and the thread-local set-once cell
  (`KeyCell`). That cell is a class whose `keys` field is set once and
  then updated entry by entry.
- `os.dfy` (module `Os`) holds stand-ins for Windows: message and flag
  constants (with the Windows header values) and the hook structures as
  the callbacks read them. It also has a `Host` object that records every
  `INPUT` sent (`SendInput`), every hook invocation passed on
  (`CallNextHookEx`), and which hooks are installed.
- `hooks.dfy` (module `Hooks`) holds `keyboard_proc` and `mouse_proc`. They
  decode an invocation into an optional (code, state) pair and write the
  state into a tracked entry. They always pass the invocation on to the
  next hook.
- `dispatch.dfy` (module `Dispatch`) holds `run`. Its parts are `Start`
  (build and store the table, install the hooks), `Step` (one loop
  iteration: pump, quit check, table scan), `Loop`, and `Run` (which
  removes both hooks on the way out). The hook callbacks run re-entrantly
  inside the pump call; `Deliver` models that as a sequence of callback
  invocations between two scans.

`FxHashSet` and `FxHashMap` iteration order is modelled as a
nondeterministic choice. So the scan states what is sent in any order:
each held fast entry's pair exactly once, or a subset of them when the
exit key is held. The integer casts of the source are written out:
`wparam.0 as u32`, `vkCode as u16`, the scan code `as u16`, and the high
word of `mouseData`.

As written, the right mouse button's release descriptor carries
`MOUSEEVENTF_LEFTUP` (src/windows.rs:377-382). The model keeps that
behaviour. `Catalog.MouseRightReleasesLeftButton` proves that repeating
the right button sends the left button's release.

## Model

| member | source | states |
|---|---|---|
| `Catalog.ConvertKeyboard` | src/windows.rs:404-430 | fails with the scan-code error exactly when the oracle returns 0; otherwise both descriptors are keyboard inputs for the same virtual key and the same 16-bit scan code, the press without flags and the release with KEYEVENTF_KEYUP |
| `Catalog.ConvertMouse` | src/windows.rs:432-451 | both descriptors are mouse inputs with the same `mouseData` (the extra-button id, or 0), the press carrying the down flag and the release the up flag |
| `Catalog.IntoRaw` | src/windows.rs:271-402 | translation fails only for a keyboard key without a scan code, with that key's error; on success the code returned is the key's native code |
| `Catalog.KeyboardKeyTranslation` | src/windows.rs:273-370 | every keyboard key with a scan code yields a keyboard press/release pair for its own virtual key, same scan code, KEYUP only on the release |
| `Catalog.MouseButtonTranslation` | src/windows.rs:371-400 | the five mouse buttons never fail; mouseData is XBUTTON1 for MouseBack, XBUTTON2 for MouseForward, 0 otherwise; the down/up flags of each button, with LEFTUP as the right button's release |
| `Catalog.MouseRightReleasesLeftButton` | src/windows.rs:377-382 | the right button's release descriptor equals the left button's and is not MOUSEEVENTF_RIGHTUP |
| `Catalog.MouseBinding` | src/windows.rs:371-400 | each of the five mouse buttons is bound to a mouse descriptor pair whose code is one of VK_LBUTTON, VK_RBUTTON, VK_MBUTTON, VK_XBUTTON1, VK_XBUTTON2, and that code looks up to the button itself |
| `Catalog.KeyWithCodeInverts` | src/windows.rs:271-402 | looking a key's native code up among all the codes of the catalog gives back that key |
| `Catalog.NativeCodeInjective` | src/windows.rs:271-402 | two keys have the same native code only if they are the same key |
| `Table.ExitCollidesIffFast` | src/windows.rs:205-211 | the exit key's code is among the fast keys' codes exactly when the exit key is listed as fast |
| `Table.InsertFast` | src/windows.rs:200-203 | succeeds exactly when every fast key translates; the map's codes are then exactly the fast keys' codes, each holding a Released Fast entry with its own key's pair; a failure is the translation error of a fast key |
| `Table.BuildKeys` | src/windows.rs:198-212 | succeeds exactly when every configured key translates and the exit key is not fast; the table then has one Released Fast entry per fast key holding its pair and one Released Exit entry, nothing else; the conflict error arises exactly when all keys translate and the exit key is fast; any other error is the translation error of a configured key |
| `Table.WithState` | src/windows.rs:476-478 | writing a state changes only the state of the entry for that code; codes, modes, descriptors and other states are kept, and an untracked code leaves the table equal |
| `Table.KeyCell.constructor` | src/windows.rs:194 | the cell starts empty |
| `Table.KeyCell.Set` | src/windows.rs:214-215 | the first table is stored; a second is refused with "Failed to initialize" and the cell is unchanged |
| `Table.KeyCell.SetState` | src/windows.rs:525-531 | with a table, the entry's state is written as `WithState` says; with no table, nothing changes and nothing is reported |
| `Os.Host.SendInput` | src/windows.rs:254 | appends the press and then the release to the record of injected input |
| `Os.Host.CallNextHookEx` | src/windows.rs:482 | appends the invocation, unchanged, to the record of forwarded invocations |
| `Hooks.KeyboardDecode` | src/windows.rs:454-472 | an invocation yields a pair exactly when its code is HC_ACTION, its message is a (system) key down/up and LLKHF_INJECTED is clear; the code is vkCode truncated to 16 bits, and the state is Pressed exactly for the down messages |
| `Hooks.MouseDecode` | src/windows.rs:486-512 | an invocation yields a pair exactly when its code is HC_ACTION, its message and extra-button id are recognised and LLMHF_INJECTED is clear; the code is one of the five button codes; an extra-button message with an unknown id is dropped |
| `Hooks.KeyboardEventDecodes` | src/windows.rs:460-462 | a physical down or up (plain or WM_SYS*) of the key with any virtual-key code vk decodes to vk, the code its table entry is stored under, and to its new state |
| `Hooks.MouseEventDecodes` | src/windows.rs:494-506 | a physical down or up of the mouse button with native code vk, with the extra-button id in the high word, decodes to vk and its new state |
| `Hooks.Observe` | src/windows.rs:515-519 | one invocation leaves an empty cell empty, keeps codes, modes and descriptors, and changes nothing when it decodes to no pair; when it decodes to (code, state), the entry for that code takes that state and every other entry keeps its own |
| `Hooks.KeyEventSetsState` | src/windows.rs:460-478 | a physical key down or up of any virtual key leaves that key's entry, if tracked, in the new state and all other entries as they were |
| `Hooks.ButtonEventSetsState` | src/windows.rs:494-518 | a physical down or up of one of the five mouse buttons, with the extra-button id in the high word, leaves that button's entry, if tracked, in the new state and all other entries as they were |
| `Hooks.InjectedCallIgnored` | src/windows.rs:508-510 | an invocation flagged as injected never changes the table, whatever code and message it carries |
| `Hooks.KeyboardProc` | src/windows.rs:453-483 | the table becomes what `Observe` gives for the invocation, and the invocation is forwarded on every path |
| `Hooks.MouseProc` | src/windows.rs:485-523 | the table becomes what `Observe` gives for the invocation, and the invocation is forwarded on every path |
| `Dispatch.EmittedAt` | src/windows.rs:252-255 | servicing n entries sends 2n descriptors, entry i's press at 2i and its release at 2i+1 |
| `Dispatch.EmittedAppend` | src/windows.rs:243-258 | what successive scans send is the concatenation of what each sends |
| `Dispatch.EmittedSameShape` | src/windows.rs:243-254 | what a scan sends depends on the descriptors only, never on the state cells |
| `Dispatch.Scan` | src/windows.rs:242-261 | without a table, fails and sends nothing; with one, returns true exactly when an Exit entry is Pressed; each sent pair belongs to a distinct Pressed Fast entry; when no exit is held, every Pressed Fast entry's pair is sent exactly once; Released entries send nothing |
| `Dispatch.ObserveAllKeepsShape` | src/windows.rs:475-479 | any number of hook invocations keeps the table's codes, modes and descriptors |
| `Dispatch.InjectedCallsIgnored` | src/windows.rs:466-470 | a stream of injected invocations, such as the echo of what the scan sent, leaves the table as it was |
| `Dispatch.UntrackedCallsIgnored` | src/windows.rs:476-478 | invocations that decode only to untracked codes leave the table as it was |
| `Dispatch.Deliver` | src/windows.rs:236 | the hooks run during the pump call; the table ends as the invocations in order make it, and all of them are forwarded |
| `Dispatch.Start` | src/windows.rs:198-231 | succeeds exactly when the table builds, the cell was empty and all three setup calls succeed; an untranslatable key gives its scan-code error and an exit key listed as fast the conflict error, both with the cell untouched; a second table gives "Failed to initialize"; otherwise the table is stored, and a module-handle or hook failure gives its own error; on success both hooks are installed, on failure none |
| `Dispatch.Step` | src/windows.rs:236-265 | the hooks turn the table into what the delivered invocations make it, and all of them are forwarded; stops with Quit exactly on WM_QUIT, then without scanning or sending; otherwise stops with ExitKey exactly when an Exit entry is Pressed; the pairs sent belong to distinct Pressed Fast entries, in the order serviced, and when it does not stop every Pressed Fast entry's pair is sent |
| `Dispatch.Loop` | src/windows.rs:235-266 | runs one `Step` per pump, each from the table the previous one left, until one stops: every earlier iteration saw no WM_QUIT and no Pressed Exit entry and re-sent the pair of every Pressed Fast entry exactly once; the stop is Quit at the first WM_QUIT, ExitKey at the first scan that saw an Exit entry Pressed, or Exhausted after the last pump; the cell holds the last iteration's table; what is sent is the concatenation of the iterations' pairs, and what is forwarded is every invocation delivered during the pumps used |
| `Dispatch.HeldKeyResent` | src/windows.rs:235-266 | a fast key held when the loop starts, with the hooks seeing only injected events, keeps the table unchanged and has its pair re-sent by every iteration that does not stop the loop |
| `Dispatch.Run` | src/windows.rs:197-269 | runs the loop exactly when the table builds, the cell was empty and all three setup calls succeed; an exit key listed as fast gives the conflict error; the stored table is the one the configuration determines and, starting from it, iterations, sent pairs, forwarded invocations and final cell are as `Loop` states; both hooks are removed on every way out; errors send and forward nothing |

## Left out

- src/args.rs, src/config.rs and src/main.rs: command-line parsing, reading
  the TOML file and `%APPDATA%`, and logging setup. The configuration is
  given as its two fields, `exit` and `fast`.
- src/key.rs is not part of this model. The `Key` enumeration is rebuilt
  from the arms of the match in `into_raw`.
- `GetModuleHandleW` and `SetWindowsHookExW` are each one boolean success
  result (`HookSetup`). `UnhookWindowsHookEx` clears a flag on `Host`. The
  hook handles themselves are not modelled.
- `PeekMessageW` is modelled as data (`Pump`): the hook invocations the
  system delivers during the call, and the message removed, if any. The
  `LRESULT` that `CallNextHookEx` returns, and that the callbacks return
  in turn, is not modelled. Neither is the ignored return value of
  `SendInput`.
- The raw-pointer reads of `lparam`. The callbacks receive the decoded
  fields they use (`vkCode`, `mouseData`, `flags`); the remaining fields of
  `KBDLLHOOKSTRUCT` and `MSLLHOOKSTRUCT` are not represented. Fields of
  `INPUT` left at their defaults are not represented either.
- `debug!` logging and `#[instrument]`.
- Dispatch.Loop: the busy loop never ends on its own; the model runs it
  over a finite sequence of pumps and reports `Exhausted` when they run
  out, because a method must terminate.
- Dispatch.Run: returns why the loop stopped (`Quit`, `ExitKey`,
  `Exhausted`) where the source returns `Ok(())`.
- `with_keys` failing inside the loop cannot happen once `Start` has
  stored the table. `Scan` still models that failure; `Step` relies on
  the table being present.
