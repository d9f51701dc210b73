/** The dispatch side of `run` in src/windows.rs: building and installing
    the table, installing the hooks, and the loop that pumps messages
    (during which the system runs the hook callbacks) and scans the table,
    re-sending the descriptor pair of every held fast key and stopping on a
    quit message or a held exit key. */
module Dispatch {
  import opened Errors
  import opened Catalog
  import opened Table
  import opened Os
  import opened Hooks

  /** Codes of the Fast entries whose cell says Pressed. */
  ghost function PressedFast(m: Keys): set<VirtualKey>
  {
    set c | c in m && m[c].mode == Fast && m[c].state == Pressed
  }

  /** Some Exit entry's cell says Pressed. */
  ghost predicate ExitPressed(m: Keys)
  {
    exists c :: c in m && m[c].mode == Exit && m[c].state == Pressed
  }

  ghost predicate AllIn(m: Keys, order: seq<VirtualKey>)
  {
    forall i :: 0 <= i < |order| ==> order[i] in m
  }

  ghost predicate Distinct(order: seq<VirtualKey>)
  {
    forall i, j :: 0 <= i < j < |order| ==> order[i] != order[j]
  }

  /** Every code in `order` names a Fast entry of `m`. */
  ghost predicate FastOnly(m: Keys, order: seq<VirtualKey>)
  {
    forall i :: 0 <= i < |order| ==> order[i] in m && m[order[i]].mode == Fast
  }

  /** What SendInput receives when the entries in `order` are serviced
      one after the other: each entry's press, then its release. */
  ghost function Emitted(m: Keys, order: seq<VirtualKey>): seq<Input>
    requires AllIn(m, order)
  {
    if order == [] then []
    else Emitted(m, order[..|order| - 1]) + [m[order[|order| - 1]].inputs.press, m[order[|order| - 1]].inputs.release]
  }

  /** Servicing n entries sends 2n descriptors, the i-th entry's press at
      2i and its release at 2i + 1. */
  lemma {:induction false} EmittedAt(m: Keys, order: seq<VirtualKey>, i: nat)
    requires AllIn(m, order) && i < |order|
    ensures |Emitted(m, order)| == 2 * |order|
    ensures Emitted(m, order)[2 * i] == m[order[i]].inputs.press
    ensures Emitted(m, order)[2 * i + 1] == m[order[i]].inputs.release
  {
    var n := |order| - 1;
    if i < n {
      EmittedAt(m, order[..n], i);
    } else if n > 0 {
      EmittedAt(m, order[..n], 0);
    } else {
      assert order[..n] == [];
    }
  }

  lemma {:induction false} EmittedAppend(m: Keys, a: seq<VirtualKey>, b: seq<VirtualKey>)
    requires AllIn(m, a) && AllIn(m, b)
    ensures AllIn(m, a + b)
    ensures Emitted(m, a + b) == Emitted(m, a) + Emitted(m, b)
  {
    if b == [] {
      assert a + b == a;
    } else {
      var n := |b| - 1;
      assert (a + b)[..|a + b| - 1] == a + b[..n];
      EmittedAppend(m, a, b[..n]);
    }
  }

  lemma ServicedAppend(m: Keys, a: seq<VirtualKey>, b: seq<VirtualKey>)
    requires FastOnly(m, a) && FastOnly(m, b)
    ensures FastOnly(m, a + b) && AllIn(m, a) && AllIn(m, b)
    ensures Emitted(m, a + b) == Emitted(m, a) + Emitted(m, b)
  {
    EmittedAppend(m, a, b);
  }

  /** What is sent depends only on the descriptors, never on the state
      cells, so the hooks cannot change what a serviced entry sends. */
  lemma {:induction false} EmittedSameShape(m: Keys, m': Keys, order: seq<VirtualKey>)
    requires SameShape(m, m') && AllIn(m, order)
    ensures AllIn(m', order)
    ensures Emitted(m, order) == Emitted(m', order)
  {
    if order != [] {
      EmittedSameShape(m, m', order[..|order| - 1]);
    }
  }

  /** Servicing one more entry, not serviced before, appends its pair. */
  lemma ServiceOne(m: Keys, order: seq<VirtualKey>, code: VirtualKey)
    requires AllIn(m, order) && Distinct(order) && code in m && code !in order
    ensures AllIn(m, order + [code]) && Distinct(order + [code])
    ensures Emitted(m, order + [code]) == Emitted(m, order) + [m[code].inputs.press, m[code].inputs.release]
  {
    assert (order + [code])[..|order|] == order;
  }

  /** One pass of the `for` loop over the table (lines 242-261): Released
      entries are skipped, a Pressed Exit entry ends the pass with `true`,
      a Pressed Fast entry has its pair sent. The visiting order is the
      map's unspecified order. An empty cell makes `with_keys` fail. */
  method Scan(cell: KeyCell, host: Host) returns (r: Result<bool>, ghost order: seq<VirtualKey>)
    modifies host`sent
    ensures cell.keys.None? ==> r == Err(ConfigurationMissing) && host.sent == old(host.sent)
    ensures cell.keys.Some? ==> r.Ok? && AllIn(cell.keys.value, order)
    ensures cell.keys.Some? ==> host.sent == old(host.sent) + Emitted(cell.keys.value, order)
    ensures cell.keys.Some? ==> (r.value <==> ExitPressed(cell.keys.value))
    ensures cell.keys.Some? ==> Distinct(order)
    ensures cell.keys.Some? ==> forall c :: c in order ==> c in PressedFast(cell.keys.value)
    ensures cell.keys.Some? && !r.value ==> forall c :: c in PressedFast(cell.keys.value) ==> c in order
  {
    order := [];
    if cell.keys.None? {
      return Err(ConfigurationMissing), order;
    }
    var m := cell.keys.value;
    var todo := m.Keys;
    while todo != {}
      invariant todo <= m.Keys
      invariant AllIn(m, order) && Distinct(order)
      invariant host.sent == old(host.sent) + Emitted(m, order)
      invariant forall c :: c in order <==> c in PressedFast(m) && c !in todo
      invariant forall c :: c in m && c !in todo ==> !(m[c].mode == Exit && m[c].state == Pressed)
      decreases todo
    {
      var code :| code in todo;
      todo := todo - {code};
      var entry := m[code];
      if entry.state == Released {
        continue;
      }
      match entry.mode
      case Fast =>
        host.SendInput(entry.inputs);
        ServiceOne(m, order, code);
        order := order + [code];
      case Exit =>
        return Ok(true), order;
    }
    return Ok(false), order;
  }

  /** The effect on the cell of the hook invocations in `calls`, in order. */
  ghost function ObserveAll(keys: Option<Keys>, calls: seq<HookCall>): Option<Keys>
  {
    if calls == [] then keys
    else Observe(ObserveAll(keys, calls[..|calls| - 1]), calls[|calls| - 1])
  }

  /** However many events arrive, the table keeps its codes, modes and
      descriptors, and an empty cell stays empty. */
  lemma {:induction false} ObserveAllKeepsShape(keys: Option<Keys>, calls: seq<HookCall>)
    ensures ObserveAll(keys, calls).Some? <==> keys.Some?
    ensures keys.Some? ==> SameShape(ObserveAll(keys, calls).value, keys.value)
  {
    if calls != [] {
      ObserveAllKeepsShape(keys, calls[..|calls| - 1]);
    }
  }

  /** A stream made only of injected events, such as the echo of what
      the scan sent, leaves the table exactly as it was. */
  lemma {:induction false} InjectedCallsIgnored(keys: Option<Keys>, calls: seq<HookCall>)
    requires forall i :: 0 <= i < |calls| ==> Injected(calls[i])
    ensures ObserveAll(keys, calls) == keys
  {
    if calls != [] {
      InjectedCallsIgnored(keys, calls[..|calls| - 1]);
      InjectedCallIgnored(keys, calls[|calls| - 1]);
    }
  }

  /** An untracked code never changes the table, whatever its state. */
  lemma {:induction false} UntrackedCallsIgnored(keys: Option<Keys>, calls: seq<HookCall>)
    requires keys.Some?
    requires forall i :: 0 <= i < |calls| && Decode(calls[i]).Some? ==> Decode(calls[i]).value.0 !in keys.value
    ensures ObserveAll(keys, calls) == keys
  {
    if calls != [] {
      UntrackedCallsIgnored(keys, calls[..|calls| - 1]);
    }
  }

  /** The system invoking the two hook callbacks, one invocation after
      the other, while PeekMessageW runs. */
  method Deliver(cell: KeyCell, host: Host, calls: seq<HookCall>)
    modifies cell, host`forwarded
    ensures cell.keys == ObserveAll(old(cell.keys), calls)
    ensures host.forwarded == old(host.forwarded) + calls
  {
    var i := 0;
    while i < |calls|
      invariant i <= |calls|
      invariant cell.keys == ObserveAll(old(cell.keys), calls[..i])
      invariant host.forwarded == old(host.forwarded) + calls[..i]
    {
      assert calls[..i + 1][..i] == calls[..i];
      match calls[i] {
        case KeyboardCall(code, wparam, info) => KeyboardProc(cell, host, code, wparam, info);
        case MouseCall(code, wparam, info) => MouseProc(cell, host, code, wparam, info);
      }
      i := i + 1;
    }
    assert calls[..i] == calls;
  }

  /** One message-pump call: the hook invocations the system delivers
      during it, then the message it removed from the queue, if any. */
  datatype Pump = Pump(delivered: seq<HookCall>, message: Option<U32>)

  /** Why the loop of `run` ended. `Exhausted` means that the finite
      sequence of pumps given to the model ran out while the loop would
      still be running. */
  datatype Stop = Quit | ExitKey | Exhausted

  ghost predicate Builds(config: Config, mapVk: ScanCodeOracle)
  {
    Translatable(config, mapVk) && config.exit !in config.fast
  }

  /** The part of `run` before the loop (lines 198-231): build the table,
      store it in the cell, then install the keyboard hook and the mouse
      hook. The table is stored before any hook exists, and a failure to
      install the mouse hook removes the keyboard hook again. */
  method Start(cell: KeyCell, host: Host, config: Config, mapVk: ScanCodeOracle, setup: HookSetup)
    returns (r: Result<()>, ghost table: Keys)
    requires !host.keyboardHook && !host.mouseHook
    modifies cell, host`keyboardHook, host`mouseHook
    ensures r.Ok? <==> Builds(config, mapVk) && old(cell.keys).None? && setup.moduleHandle && setup.keyboard && setup.mouse
    ensures r.Ok? ==> host.keyboardHook && host.mouseHook
    ensures r.Err? ==> !host.keyboardHook && !host.mouseHook
    ensures !Translatable(config, mapVk) ==> r.Err? && r.error.NoScanCode? && unchanged(cell)
    ensures Translatable(config, mapVk) && config.exit in config.fast ==> r == Err(ExitKeyIsFastKey) && unchanged(cell)
    ensures Builds(config, mapVk) ==> IsTableFor(table, config, mapVk)
    ensures Builds(config, mapVk) && old(cell.keys).Some? ==> r == Err(InitializeFailed) && unchanged(cell)
    ensures Builds(config, mapVk) && old(cell.keys).None? ==> cell.keys == Some(table)
    ensures Builds(config, mapVk) && old(cell.keys).None? && !setup.moduleHandle ==> r == Err(ModuleHandleFailed)
    ensures Builds(config, mapVk) && old(cell.keys).None? && setup.moduleHandle && !(setup.keyboard && setup.mouse) ==>
      r == Err(HookInstallFailed)
  {
    table := map[];
    var built := BuildKeys(config, mapVk);
    if built.Err? {
      r := Err(built.error);
      if built.error != ExitKeyIsFastKey {
        var k :| (k == config.exit || k in config.fast) && IntoRaw(k, mapVk) == Err(built.error);
      }
      return;
    }
    table := built.value;
    var stored := cell.Set(built.value);
    if stored.Err? {
      r := Err(stored.error);
      return;
    }
    if !setup.moduleHandle {
      r := Err(ModuleHandleFailed);
      return;
    }
    if !setup.keyboard {
      r := Err(HookInstallFailed);
      return;
    }
    host.keyboardHook := true;
    if !setup.mouse {
      host.keyboardHook := false;
      r := Err(HookInstallFailed);
      return;
    }
    host.mouseHook := true;
    r := Ok(());
  }

  /** What one iteration of the `loop` of `run` does, seen from outside:
      the hooks turn the table `before` into `after`; a WM_QUIT stops
      the loop before any scan; otherwise the scan of `after` sends the
      pairs of distinct Pressed Fast entries, in `order`, and stops the
      loop exactly when an Exit entry is Pressed; an iteration that does
      not stop has sent every Pressed Fast entry's pair. */
  ghost predicate Round(before: Keys, pump: Pump, after: Keys, order: seq<VirtualKey>, stop: Option<Stop>)
  {
    && ObserveAll(Some(before), pump.delivered) == Some(after)
    && Distinct(order)
    && (forall c :: c in order ==> c in PressedFast(after))
    && (stop == Some(Quit) <==> pump.message == Some(WM_QUIT))
    && (pump.message == Some(WM_QUIT) ==> order == [])
    && (pump.message != Some(WM_QUIT) ==> (stop == Some(ExitKey) <==> ExitPressed(after)))
    && stop != Some(Exhausted)
    && (stop.None? ==> forall c :: c in PressedFast(after) ==> c in order)
  }

  /** One iteration of the `loop` of `run` (lines 236-265): pump the
      message queue, during which the hooks run; stop on WM_QUIT;
      otherwise scan the table and stop if the scan met a held exit key. */
  method Step(cell: KeyCell, host: Host, pump: Pump, ghost table: Keys)
    returns (stop: Option<Stop>, ghost order: seq<VirtualKey>)
    requires cell.keys.Some? && SameShape(cell.keys.value, table)
    modifies cell, host`sent, host`forwarded
    ensures cell.keys.Some? && SameShape(cell.keys.value, table)
    ensures Round(old(cell.keys).value, pump, cell.keys.value, order, stop)
    ensures host.forwarded == old(host.forwarded) + pump.delivered
    ensures FastOnly(table, order)
    ensures host.sent == old(host.sent) + Emitted(table, order)
  {
    ghost var before := cell.keys.value;
    Deliver(cell, host, pump.delivered);
    ObserveAllKeepsShape(Some(before), pump.delivered);
    SameShapeTransitive(cell.keys.value, before, table);
    if pump.message == Some(WM_QUIT) {
      return Some(Quit), [];
    }
    var scanned;
    scanned, order := Scan(cell, host);
    EmittedSameShape(cell.keys.value, table, order);
    forall i | 0 <= i < |order|
      ensures order[i] in table && table[order[i]].mode == Fast
    {
      assert order[i] in order;
    }
    stop := if scanned.value then Some(ExitKey) else None;
  }

  /** The table before iteration `i`: the starting table, or the one the
      previous iteration left. */
  ghost function Before(start: Keys, tables: seq<Keys>, i: nat): Keys
    requires i <= |tables|
  {
    if i == 0 then start else tables[i - 1]
  }

  /** How iteration `i` of `n` ended: only the last one can stop the loop,
      and none does when the pumps ran out. */
  function RoundStop(stop: Stop, i: nat, n: nat): Option<Stop>
  {
    if stop == Exhausted || i + 1 < n then None else Some(stop)
  }

  /** The codes serviced by successive iterations, one after the other. */
  ghost function Concat(orders: seq<seq<VirtualKey>>): seq<VirtualKey>
  {
    if orders == [] then [] else Concat(orders[..|orders| - 1]) + orders[|orders| - 1]
  }

  /** The hook invocations delivered during the first `n` pumps, in order. */
  ghost function DeliveredBy(pumps: seq<Pump>, n: nat): seq<HookCall>
    requires n <= |pumps|
  {
    if n == 0 then [] else DeliveredBy(pumps, n - 1) + pumps[n - 1].delivered
  }

  /** What the loop of `run` does when it ends with `stop` after running
      one iteration per entry of `tables` (the table after that
      iteration's hooks) and `orders` (the entries its scan serviced):
      every iteration is a `Round` from the table the previous one left,
      only the last one stops the loop, and Exhausted means every pump
      was used. */
  ghost predicate LoopOutcome(start: Keys, pumps: seq<Pump>, stop: Stop, tables: seq<Keys>, orders: seq<seq<VirtualKey>>)
  {
    && |tables| == |orders| <= |pumps|
    && (stop == Exhausted ==> |tables| == |pumps|)
    && (stop != Exhausted ==> |tables| > 0)
    && forall i {:trigger orders[i]} :: 0 <= i < |tables| ==>
         Round(Before(start, tables, i), pumps[i], tables[i], orders[i], RoundStop(stop, i, |tables|))
  }

  /** The iterations so far all ran without stopping the loop. */
  ghost predicate RoundsSoFar(start: Keys, pumps: seq<Pump>, tables: seq<Keys>, orders: seq<seq<VirtualKey>>)
  {
    && |tables| == |orders| <= |pumps|
    && forall i {:trigger orders[i]} :: 0 <= i < |tables| ==>
         Round(Before(start, tables, i), pumps[i], tables[i], orders[i], None)
  }

  lemma RoundsExtend(start: Keys, pumps: seq<Pump>, tables: seq<Keys>, orders: seq<seq<VirtualKey>>,
                     after: Keys, order: seq<VirtualKey>)
    requires RoundsSoFar(start, pumps, tables, orders) && |tables| < |pumps|
    requires Round(Before(start, tables, |tables|), pumps[|tables|], after, order, None)
    ensures RoundsSoFar(start, pumps, tables + [after], orders + [order])
  {
    var tables', orders' := tables + [after], orders + [order];
    forall i | 0 <= i < |tables'|
      ensures Round(Before(start, tables', i), pumps[i], tables'[i], orders'[i], None)
    {
      if i < |tables| {
        assert Before(start, tables', i) == Before(start, tables, i);
        assert tables'[i] == tables[i] && orders'[i] == orders[i];
      } else {
        assert Before(start, tables', i) == Before(start, tables, |tables|);
        assert tables'[i] == after && orders'[i] == order;
      }
    }
  }

  lemma FinishStopped(start: Keys, pumps: seq<Pump>, tables: seq<Keys>, orders: seq<seq<VirtualKey>>,
                      after: Keys, order: seq<VirtualKey>, stop: Stop)
    requires RoundsSoFar(start, pumps, tables, orders) && |tables| < |pumps|
    requires Round(Before(start, tables, |tables|), pumps[|tables|], after, order, Some(stop))
    ensures LoopOutcome(start, pumps, stop, tables + [after], orders + [order])
  {
    var tables', orders' := tables + [after], orders + [order];
    forall i | 0 <= i < |tables'|
      ensures Round(Before(start, tables', i), pumps[i], tables'[i], orders'[i], RoundStop(stop, i, |tables'|))
    {
      if i < |tables| {
        assert Before(start, tables', i) == Before(start, tables, i);
        assert tables'[i] == tables[i] && orders'[i] == orders[i];
      } else {
        assert Before(start, tables', i) == Before(start, tables, |tables|);
        assert tables'[i] == after && orders'[i] == order;
      }
    }
  }

  lemma FinishExhausted(start: Keys, pumps: seq<Pump>, tables: seq<Keys>, orders: seq<seq<VirtualKey>>)
    requires RoundsSoFar(start, pumps, tables, orders) && |tables| == |pumps|
    ensures LoopOutcome(start, pumps, Exhausted, tables, orders)
  {
  }

  lemma ConcatAppend(orders: seq<seq<VirtualKey>>, order: seq<VirtualKey>)
    ensures Concat(orders + [order]) == Concat(orders) + order
  {
    assert (orders + [order])[..|orders|] == orders;
  }

  /** One more iteration's pairs extend what the loop has sent. */
  lemma SentStep(m: Keys, orders: seq<seq<VirtualKey>>, order: seq<VirtualKey>,
                 sent0: seq<Input>, sent1: seq<Input>, sent2: seq<Input>)
    requires FastOnly(m, Concat(orders)) && FastOnly(m, order)
    requires sent1 == sent0 + Emitted(m, Concat(orders))
    requires sent2 == sent1 + Emitted(m, order)
    ensures FastOnly(m, Concat(orders + [order]))
    ensures sent2 == sent0 + Emitted(m, Concat(orders + [order]))
  {
    ServicedAppend(m, Concat(orders), order);
    ConcatAppend(orders, order);
  }

  /** One more pump's hook invocations extend what has been forwarded. */
  lemma ForwardedStep(pumps: seq<Pump>, i: nat, fwd0: seq<HookCall>, fwd1: seq<HookCall>, fwd2: seq<HookCall>)
    requires i < |pumps|
    requires fwd1 == fwd0 + DeliveredBy(pumps, i)
    requires fwd2 == fwd1 + pumps[i].delivered
    ensures fwd2 == fwd0 + DeliveredBy(pumps, i + 1)
  {
  }

  /** The `loop` of `run` (lines 235-266), cut to the pumps given. */
  method Loop(cell: KeyCell, host: Host, pumps: seq<Pump>, ghost table: Keys)
    returns (stop: Stop, ghost tables: seq<Keys>, ghost orders: seq<seq<VirtualKey>>)
    requires cell.keys.Some? && SameShape(cell.keys.value, table)
    modifies cell, host`sent, host`forwarded
    ensures LoopOutcome(old(cell.keys).value, pumps, stop, tables, orders)
    ensures cell.keys == Some(Before(old(cell.keys).value, tables, |tables|))
    ensures SameShape(cell.keys.value, table)
    ensures FastOnly(table, Concat(orders))
    ensures host.sent == old(host.sent) + Emitted(table, Concat(orders))
    ensures host.forwarded == old(host.forwarded) + DeliveredBy(pumps, |tables|)
  {
    ghost var start := cell.keys.value;
    tables, orders := [], [];
    var i := 0;
    while i < |pumps|
      invariant i <= |pumps| && |tables| == i
      invariant RoundsSoFar(start, pumps, tables, orders)
      invariant cell.keys == Some(Before(start, tables, i))
      invariant SameShape(cell.keys.value, table)
      invariant FastOnly(table, Concat(orders))
      invariant host.sent == old(host.sent) + Emitted(table, Concat(orders))
      invariant host.forwarded == old(host.forwarded) + DeliveredBy(pumps, i)
      decreases |pumps| - i
    {
      ghost var sentBefore, forwardedBefore := host.sent, host.forwarded;
      var next, order := Step(cell, host, pumps[i], table);
      SentStep(table, orders, order, old(host.sent), sentBefore, host.sent);
      ForwardedStep(pumps, i, old(host.forwarded), forwardedBefore, host.forwarded);
      if next.Some? {
        FinishStopped(start, pumps, tables, orders, cell.keys.value, order, next.value);
        return next.value, tables + [cell.keys.value], orders + [order];
      }
      RoundsExtend(start, pumps, tables, orders, cell.keys.value, order);
      tables, orders := tables + [cell.keys.value], orders + [order];
      i := i + 1;
    }
    FinishExhausted(start, pumps, tables, orders);
    return Exhausted, tables, orders;
  }

  /** `run`: start, loop, and on every way out after the hooks exist
      remove both of them (the two `defer!` guards, mouse hook first). */
  method Run(cell: KeyCell, host: Host, config: Config, mapVk: ScanCodeOracle, setup: HookSetup, pumps: seq<Pump>)
    returns (r: Result<Stop>, ghost table: Keys, ghost tables: seq<Keys>, ghost orders: seq<seq<VirtualKey>>)
    requires !host.keyboardHook && !host.mouseHook
    modifies cell, host
    ensures !host.keyboardHook && !host.mouseHook
    ensures r.Err? ==> host.sent == old(host.sent) && host.forwarded == old(host.forwarded)
    ensures r.Ok? <==> Builds(config, mapVk) && old(cell.keys).None? && setup.moduleHandle && setup.keyboard && setup.mouse
    ensures !Translatable(config, mapVk) ==> r.Err? && r.error.NoScanCode?
    ensures Translatable(config, mapVk) && config.exit in config.fast ==> r == Err(ExitKeyIsFastKey)
    ensures Builds(config, mapVk) && old(cell.keys).Some? ==> r == Err(InitializeFailed)
    ensures Builds(config, mapVk) ==> IsTableFor(table, config, mapVk)
    ensures r.Ok? ==> LoopOutcome(table, pumps, r.value, tables, orders)
    ensures r.Ok? ==> cell.keys == Some(Before(table, tables, |tables|))
    ensures r.Ok? ==> FastOnly(table, Concat(orders))
    ensures r.Ok? ==> host.sent == old(host.sent) + Emitted(table, Concat(orders))
    ensures r.Ok? ==> host.forwarded == old(host.forwarded) + DeliveredBy(pumps, |tables|)
  {
    tables, orders := [], [];
    var started;
    started, table := Start(cell, host, config, mapVk, setup);
    if started.Err? {
      return Err(started.error), table, tables, orders;
    }
    var stop;
    stop, tables, orders := Loop(cell, host, pumps, table);
    host.mouseHook := false;
    host.keyboardHook := false;
    r := Ok(stop);
  }

  /** A fast key held when the loop starts has its pair re-sent by every
      iteration that does not stop the loop, as long as the hooks only see
      injected events such as the echo of what the loop itself sends. */
  lemma HeldKeyResent(start: Keys, pumps: seq<Pump>, stop: Stop, tables: seq<Keys>, orders: seq<seq<VirtualKey>>, c: VirtualKey)
    requires LoopOutcome(start, pumps, stop, tables, orders)
    requires c in PressedFast(start)
    requires forall i, j :: 0 <= i < |pumps| && 0 <= j < |pumps[i].delivered| ==> Injected(pumps[i].delivered[j])
    ensures forall i :: 0 <= i < |tables| ==> tables[i] == start
    ensures forall i :: 0 <= i < |tables| && RoundStop(stop, i, |tables|).None? ==> c in orders[i]
  {
    forall i | 0 <= i < |tables|
      ensures tables[i] == start
    {
      TablesUnchanged(start, pumps, stop, tables, orders, i);
    }
  }

  lemma {:induction false} TablesUnchanged(start: Keys, pumps: seq<Pump>, stop: Stop, tables: seq<Keys>, orders: seq<seq<VirtualKey>>, k: nat)
    requires LoopOutcome(start, pumps, stop, tables, orders) && k < |tables|
    requires forall i, j :: 0 <= i < |pumps| && 0 <= j < |pumps[i].delivered| ==> Injected(pumps[i].delivered[j])
    ensures tables[k] == start
  {
    if k > 0 {
      TablesUnchanged(start, pumps, stop, tables, orders, k - 1);
    }
    assert Round(Before(start, tables, k), pumps[k], tables[k], orders[k], RoundStop(stop, k, |tables|));
    InjectedCallsIgnored(Some(Before(start, tables, k)), pumps[k].delivered);
  }
}
