/** The staged virtual machine: load, validate, instantiate, with a shared store
    and a validator that is reused for every module. */
module Vm {
  import opened Wasm
  import opened Store
  import opened StoreMgr
  import V = Validator

  datatype Stage = Inited | Loaded | Validated | Instantiated {
    function Rank(): nat {
      match this case Inited => 0 case Loaded => 1 case Validated => 2 case Instantiated => 3
    }
  }

  /** What the protocol remembers: the stage, the loaded module, and every module
      that was handed to the interpreter for instantiation. */
  datatype State = State(stage: Stage, mod: Option<V.Module>, handed: seq<V.Module>)

  const START := State(Inited, None, [])

  /** A call of the public interface. `parsed` is what the loader makes of the
      input, `ok` whether the interpreter carried the instantiation through. */
  datatype Call =
    | LoadWasm(parsed: Option<V.Module>)
    | Validate
    | Instantiate(ok: bool)
    | RegisterHost
    | RegisterWasm(parsed: Option<V.Module>)
    | RunWasmFile(parsed: Option<V.Module>)
    | Execute
    | Cleanup

  /** Registering or running another module resets the store, so the instantiation
      has to start again. */
  function Demoted(s: State): State {
    if s.stage.Instantiated? then s.(stage := Validated) else s
  }

  ghost function Handed(s: State, m: Option<V.Module>): State {
    if m.Some? && V.Accepted(m.value) then s.(handed := s.handed + [m.value]) else s
  }

  ghost function Next(s: State, call: Call): State {
    match call
    case LoadWasm(parsed) => if parsed.Some? then s.(stage := Loaded, mod := parsed) else s
    case Validate =>
      if s.stage.Rank() < 1 || s.mod.None? || !V.Accepted(s.mod.value) then s else s.(stage := Validated)
    case Instantiate(ok) =>
      if s.stage.Rank() < 2 || s.mod.None? then s
      else State(if ok then Instantiated else s.stage, s.mod, s.handed + [s.mod.value])
    case RegisterHost => Demoted(s)
    case RegisterWasm(parsed) => Handed(Demoted(s), parsed)
    case RunWasmFile(parsed) => Handed(Demoted(s), parsed)
    case Execute => s
    case Cleanup => s.(stage := Inited, mod := None)
  }

  ghost function Run(s: State, calls: seq<Call>): State
    decreases |calls|
  {
    if calls == [] then s else Run(Next(s, calls[0]), calls[1..])
  }

  /** A loaded module is there from the stage Loaded on, and from the stage Validated
      on the validator accepts it. */
  ghost predicate Sound(s: State) {
    && (s.stage.Rank() >= 1 ==> s.mod.Some?)
    && (s.stage.Rank() >= 2 ==> V.Accepted(s.mod.value))
    && forall k :: 0 <= k < |s.handed| ==> V.Accepted(s.handed[k])
  }

  lemma NextSound(s: State, call: Call)
    requires Sound(s)
    ensures Sound(Next(s, call))
  {
    hide V.Accepted;
  }

  /** In every sequence of public calls, each module handed to the interpreter for
      instantiation is one that the validator accepts. */
  lemma {:induction false} OnlyValidated(s: State, calls: seq<Call>)
    requires Sound(s)
    ensures Sound(Run(s, calls))
    ensures forall k :: 0 <= k < |Run(s, calls).handed| ==> V.Accepted(Run(s, calls).handed[k])
    decreases |calls|
  {
    hide Next, V.Accepted;
    if calls != [] {
      NextSound(s, calls[0]);
      OnlyValidated(Next(s, calls[0]), calls[1..]);
    }
  }

  /** Load, validate and instantiate, from whatever state: an accepted module reaches the
      last stage, is handed over once and is the one that is loaded; a refused one gets
      no further than loading. */
  lemma ThreeStages(s: State, m: V.Module, ok: bool)
    ensures Run(s, [LoadWasm(Some(m)), Validate, Instantiate(ok)])
         == if V.Accepted(m) then State(if ok then Instantiated else Validated, Some(m), s.handed + [m])
            else State(Loaded, Some(m), s.handed)
  {
    hide V.Accepted;
    var s1 := Next(s, LoadWasm(Some(m)));
    var s2 := Next(s1, Validate);
    var s3 := Next(s2, Instantiate(ok));
    assert [LoadWasm(Some(m)), Validate, Instantiate(ok)][1..] == [Validate, Instantiate(ok)];
    assert [Validate, Instantiate(ok)][1..] == [Instantiate(ok)];
    assert [Instantiate(ok)][1..] == [];
    assert Run(s3, []) == s3;
    assert Run(s2, [Instantiate(ok)]) == s3;
    assert Run(s1, [Validate, Instantiate(ok)]) == s3;
  }

  /** A failed load keeps an earlier module and its stage, so it can still be used. */
  lemma FailedLoadKeeps(s: State, ok: bool)
    ensures Run(s, [LoadWasm(None), Instantiate(ok)]) == Run(s, [Instantiate(ok)])
  {
    assert [LoadWasm(None), Instantiate(ok)][1..] == [Instantiate(ok)];
  }

  class VM {
    var stage: Stage
    var mod: Option<V.Module>
    const validator: V.Validator
    const store: StoreManager
    ghost var handed: seq<V.Module>

    constructor ()
      ensures Valid() && Abs() == START && fresh(store) && fresh(validator) && fresh(validator.checker)
    {
      stage, mod, handed := Inited, None, [];
      validator := new V.Validator();
      store := new StoreManager();
    }

    ghost function Abs(): State
      reads this
    {
      State(stage, mod, handed)
    }

    /** Besides the protocol's invariant: in the last stage the store holds one
        temporary module, the one instantiated. */
    ghost predicate Valid()
      reads this, store, store.mods.insts
    {
      && Sound(Abs()) && store.Valid()
      && (stage.Instantiated? ==> Active(store.mods))
    }

    method LoadWasm(parsed: Option<V.Module>) returns (ok: bool)
      requires Valid()
      modifies this
      ensures Valid() && ok == parsed.Some? && Abs() == Next(old(Abs()), Call.LoadWasm(parsed))
    {
      hide V.Accepted;
      ok := parsed.Some?;
      if ok {
        mod, stage := parsed, Loaded;
      }
    }

    /** The verdict is that of the module, so it does not matter what the validator
        has seen before. */
    method Validate() returns (ok: bool)
      requires Valid()
      modifies this, validator.checker
      ensures Valid() && Abs() == Next(old(Abs()), Call.Validate)
      ensures ok <==> mod.Some? && old(stage).Rank() >= 1 && V.Accepted(mod.value)
    {
      hide V.Accepted;
      if stage.Rank() < 1 {
        return false;
      }
      ok := validator.Validate(mod.value);
      if ok {
        stage := Validated;
      }
    }

    /** The store's part of an instantiation under the empty name. */
    method Install(w: Work, good: bool) returns (ok: bool)
      requires store.Valid()
      modifies store
      ensures store.Valid() && (ok ==> Active(store.mods))
      ensures ok <==> Unnamed(old(store.mods.insts), "") && w.globalsRun && good
      ensures old(Active(store.mods)) ==> !ok && Active(store.mods)
    {
      assert Bounded(store.mods);
      assert Active(store.mods) ==> !Unnamed(store.mods.insts, "");
      hide Ordered, Unnamed, Active, Added, Pool<ModuleInstance>.Rollback, Pool<ModuleInstance>.Valid;
      ok := store.Instantiate("", true, w);
      if ok {
        ActiveAdded(old(store.mods), store.mods);
      }
      ok := ok && good;
    }

    /** The module is instantiated under the empty name; a module instantiated
        before still holds that name, so a second attempt is refused. */
    method Instantiate(w: Work, good: bool) returns (ok: bool)
      requires Valid()
      modifies this, store
      ensures Valid() && Abs() == Next(old(Abs()), Call.Instantiate(ok))
      ensures ok <==> old(stage).Rank() >= 2 && Unnamed(old(store.mods.insts), "") && w.globalsRun && good
      ensures old(stage).Instantiated? ==> !ok
    {
      NextSound(Abs(), Call.Instantiate(true));
      NextSound(Abs(), Call.Instantiate(false));
      hide V.Accepted, Ordered, Unnamed, Active, Sound;
      if stage.Rank() < 2 {
        return false;
      }
      handed := handed + [mod.value];
      ok := Install(w, good);
      if ok {
        stage := Instantiated;
      }
    }

    method RegisterHost(obj: ImportObject) returns (ok: bool)
      requires Valid() && obj.Valid()
      modifies this, store
      ensures Valid() && store.Settled() && Abs() == Next(old(Abs()), Call.RegisterHost)
      ensures ok <==> Unnamed(old(store.mods.Registered()), obj.name)
    {
      hide V.Accepted, Ordered;
      if stage.Instantiated? {
        stage := Validated;
      }
      ok := store.RegisterHost(obj);
    }

    /** Loads, validates and registers a module under a name. */
    method RegisterWasm(name: string, parsed: Option<V.Module>, w: Work, good: bool) returns (ok: bool)
      requires Valid()
      modifies this, store, validator.checker
      ensures Valid() && Abs() == Next(old(Abs()), Call.RegisterWasm(parsed))
      ensures ok <==>
        parsed.Some? && V.Accepted(parsed.value) && Unnamed(old(store.mods.insts), name) && w.globalsRun && good
    {
      hide V.Accepted, Ordered;
      if stage.Instantiated? {
        stage := Validated;
      }
      if parsed.None? {
        return false;
      }
      ok := validator.Validate(parsed.value);
      if ok {
        handed := handed + [parsed.value];
        ok := store.Instantiate(name, false, w);
        ok := ok && good;
      }
    }

    /** Loads, validates and instantiates a module and invokes a function of it at once;
        `invoked` is what the interpreter answers. */
    method RunWasmFile(parsed: Option<V.Module>, w: Work, good: bool, invoked: Option<seq<Value>>)
      returns (results: Option<seq<Value>>)
      requires Valid()
      modifies this, store, validator.checker
      ensures Valid() && Abs() == Next(old(Abs()), Call.RunWasmFile(parsed))
      ensures results ==
        if parsed.Some? && V.Accepted(parsed.value) && Unnamed(old(store.mods.insts), "") && w.globalsRun && good
        then invoked else None
    {
      hide V.Accepted, Ordered;
      if stage.Instantiated? {
        stage := Validated;
      }
      if parsed.None? {
        return None;
      }
      var ok := validator.Validate(parsed.value);
      if ok {
        handed := handed + [parsed.value];
        ok := store.Instantiate("", true, w);
      }
      results := if ok && good then invoked else None;
    }

    method Cleanup()
      requires Valid()
      modifies this, store
      ensures Valid() && store.Settled() && Abs() == Next(old(Abs()), Call.Cleanup)
      ensures store.mods.insts == old(store.mods.Registered())
    {
      hide V.Accepted, Ordered;
      mod := None;
      store.Reset();
      stage := Inited;
    }
  }

  /** One temporary module, named by the empty string. */
  ghost predicate Active(p: Pool<ModuleInstance>) {
    p.num == 1 && |p.insts| > 0 && p.insts[|p.insts| - 1].name == ""
  }

  lemma ActiveAdded(p: Pool<ModuleInstance>, q: Pool<ModuleInstance>)
    requires Bounded(p) && Added(p.Rollback(), q, "", true, true)
    ensures Active(q)
  {
  }

  /** The three stages in a row on the object itself: with an accepted module, the empty
      name free and initialisers that run, every call succeeds; otherwise a later one does
      not. */
  method Stages(vm: VM, m: V.Module, w: Work, good: bool) returns (loaded: bool, valid: bool, ready: bool)
    requires vm.Valid()
    modifies vm, vm.store, vm.validator.checker
    ensures vm.Valid() && loaded && vm.mod == Some(m)
    ensures valid <==> V.Accepted(m)
    ensures ready <==> valid && Unnamed(old(vm.store.mods.insts), "") && w.globalsRun && good
    ensures vm.stage == if ready then Instantiated else if valid then Validated else Loaded
  {
    hide V.Accepted, Ordered, Unnamed;
    loaded := vm.LoadWasm(Some(m));
    valid := vm.Validate();
    ready := vm.Instantiate(w, good);
  }
}
