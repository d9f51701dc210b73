/** The state table of src/windows.rs: a map from native key code to
    (mode, state cell, descriptor pair), built once by `run` from the
    configuration and kept in a thread-local, set-once cell. */
module Table {
  import opened Errors
  import opened Catalog

  /** Why a native code is tracked. */
  datatype Mode = Fast | Exit

  /** Last known physical state of a tracked key. */
  datatype State = Pressed | Released

  /** One value of the table. Only `state` changes after construction. */
  datatype Entry = Entry(mode: Mode, state: State, inputs: InputPair)

  type Keys = map<VirtualKey, Entry>

  /** The two fields of the configuration that `run` consumes. */
  datatype Config = Config(exit: Key, fast: set<Key>)

  /** Every key the configuration names has a translation. */
  ghost predicate Translatable(config: Config, mapVk: ScanCodeOracle)
  {
    && IntoRaw(config.exit, mapVk).Ok?
    && forall k :: k in config.fast ==> IntoRaw(k, mapVk).Ok?
  }

  ghost function FastCodes(fast: set<Key>): set<VirtualKey>
  {
    set k | k in fast :: NativeCode(k)
  }

  /** The table a configuration determines: one Released Fast entry per
      fast key holding that key's descriptor pair, and one Released Exit
      entry for the exit key, and nothing else. */
  ghost predicate IsTableFor(m: Keys, config: Config, mapVk: ScanCodeOracle)
    requires Translatable(config, mapVk)
  {
    && m.Keys == FastCodes(config.fast) + {NativeCode(config.exit)}
    && (forall k :: k in config.fast ==>
          m[NativeCode(k)] == Entry(Fast, Released, IntoRaw(k, mapVk).value.inputs))
    && m[NativeCode(config.exit)] == Entry(Exit, Released, IntoRaw(config.exit, mapVk).value.inputs)
  }

  /** The exit key's code collides with a fast key's code exactly when the
      exit key is itself listed as fast. */
  lemma ExitCollidesIffFast(config: Config)
    ensures NativeCode(config.exit) in FastCodes(config.fast) <==> config.exit in config.fast
  {
    if NativeCode(config.exit) in FastCodes(config.fast) {
      var k :| k in config.fast && NativeCode(k) == NativeCode(config.exit);
      NativeCodeInjective(k, config.exit);
    }
  }

  /** A key not yet inserted has a code no inserted key has. */
  lemma FreshCode(done: set<Key>, key: Key)
    requires key !in done
    ensures NativeCode(key) !in FastCodes(done)
  {
    if NativeCode(key) in FastCodes(done) {
      var k :| k in done && NativeCode(k) == NativeCode(key);
      NativeCodeInjective(k, key);
    }
  }

  /** The first loop of the table construction: insert every fast key as a
      Released Fast entry, in the set's unspecified order, stopping at the
      first translation failure. */
  method InsertFast(config: Config, mapVk: ScanCodeOracle) returns (r: Result<Keys>)
    ensures r.Ok? <==> forall k :: k in config.fast ==> IntoRaw(k, mapVk).Ok?
    ensures r.Ok? ==> r.value.Keys == FastCodes(config.fast)
    ensures r.Ok? ==> forall k :: k in config.fast ==>
      r.value[NativeCode(k)] == Entry(Fast, Released, IntoRaw(k, mapVk).value.inputs)
    ensures r.Err? ==> exists k :: k in config.fast && IntoRaw(k, mapVk) == Err(r.error)
  {
    var m: Keys := map[];
    var todo := config.fast;
    ghost var done: set<Key> := {};
    while todo != {}
      invariant todo + done == config.fast && todo !! done
      invariant forall k :: k in done ==> IntoRaw(k, mapVk).Ok?
      invariant m.Keys == FastCodes(done)
      invariant forall k :: k in done ==> m[NativeCode(k)] == Entry(Fast, Released, IntoRaw(k, mapVk).value.inputs)
      decreases todo
    {
      var key :| key in todo;
      var raw := IntoRaw(key, mapVk);
      if raw.Err? {
        return Err(raw.error);
      }
      FreshCode(done, key);
      m := m[raw.value.vk := Entry(Fast, Released, raw.value.inputs)];
      todo, done := todo - {key}, done + {key};
    }
    return Ok(m);
  }

  /** The table construction of `run`: the fast keys, then the exit key
      unless its code is already present. Translation failures propagate. */
  method BuildKeys(config: Config, mapVk: ScanCodeOracle) returns (r: Result<Keys>)
    ensures r.Ok? <==> Translatable(config, mapVk) && config.exit !in config.fast
    ensures r.Ok? ==> IsTableFor(r.value, config, mapVk)
    ensures r == Err(ExitKeyIsFastKey) <==> Translatable(config, mapVk) && config.exit in config.fast
    ensures r.Err? && r.error != ExitKeyIsFastKey ==>
      exists k :: (k == config.exit || k in config.fast) && IntoRaw(k, mapVk) == Err(r.error)
  {
    var fast := InsertFast(config, mapVk);
    if fast.Err? {
      return Err(fast.error);
    }
    var m := fast.value;
    var raw := IntoRaw(config.exit, mapVk);
    if raw.Err? {
      return Err(raw.error);
    }
    ExitCollidesIffFast(config);
    if raw.value.vk in m {
      return Err(ExitKeyIsFastKey);
    }
    return Ok(m[raw.value.vk := Entry(Exit, Released, raw.value.inputs)]);
  }

  /** Two tables with the same codes, modes and descriptors: they can
      differ only in their state cells. */
  ghost predicate SameShape(m: Keys, m': Keys)
  {
    && m.Keys == m'.Keys
    && forall c :: c in m ==> m[c].mode == m'[c].mode && m[c].inputs == m'[c].inputs
  }

  lemma SameShapeTransitive(m1: Keys, m2: Keys, m3: Keys)
    requires SameShape(m1, m2) && SameShape(m2, m3)
    ensures SameShape(m1, m3)
  {
  }

  /** Writing `s` into the state cell of `code`'s entry, if it has one. */
  function WithState(m: Keys, code: VirtualKey, s: State): (r: Keys)
    ensures SameShape(r, m)
    ensures forall c :: c in r ==> r[c].state == (if c == code then s else m[c].state)
    ensures code !in m ==> r == m
  {
    if code in m then m[code := m[code].(state := s)] else m
  }

  /** The thread-local `OnceCell<Keys>`: empty until `Set` succeeds once. */
  class KeyCell {
    var keys: Option<Keys>

    constructor ()
      ensures keys == None
    {
      keys := None;
    }

    /** `OnceCell::set`: refuses a second table. */
    method Set(m: Keys) returns (r: Result<()>)
      modifies this
      ensures old(keys).None? ==> r == Ok(()) && keys == Some(m)
      ensures old(keys).Some? ==> r == Err(InitializeFailed) && unchanged(this)
    {
      if keys.Some? {
        return Err(InitializeFailed);
      }
      keys := Some(m);
      return Ok(());
    }

    /** The closure both hook callbacks pass to `with_keys`: set the state
        cell of a tracked code. An empty cell makes `with_keys` fail, and
        the callbacks discard that failure, so it is a no-op here. */
    method SetState(code: VirtualKey, s: State)
      modifies this
      ensures keys == if old(keys).Some? then Some(WithState(old(keys).value, code, s)) else None
    {
      if keys.Some? {
        var m := keys.value;
        if code in m {
          keys := Some(m[code := m[code].(state := s)]);
        }
      }
    }
  }
}
