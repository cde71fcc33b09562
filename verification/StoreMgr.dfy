/** The store manager as an object, and what registering modules does to it. */
module StoreMgr {
  import opened Wasm
  import opened Store

  datatype Kind = FuncKind | TableKind | MemoryKind | GlobalKind

  /** One value for each kind of entity. */
  datatype ByKind<T> = ByKind(functions: T, tables: T, memories: T, globals: T) {
    function At(k: Kind): T {
      match k
      case FuncKind => functions
      case TableKind => tables
      case MemoryKind => memories
      case GlobalKind => globals
    }

    function With(k: Kind, v: T): (r: ByKind<T>)
      ensures forall j: Kind :: r.At(j) == if j == k then v else At(j)
    {
      match k
      case FuncKind => this.(functions := v)
      case TableKind => this.(tables := v)
      case MemoryKind => this.(memories := v)
      case GlobalKind => this.(globals := v)
    }
  }

  function Same<T>(v: T): (r: ByKind<T>)
    ensures forall k: Kind {:trigger r.At(k)} :: r.At(k) == v
  {
    ByKind(v, v, v, v)
  }

  /** A function, table, memory or global instance, by identity. */
  type Handle = nat

  type Names = map<string, nat>

  /** A module instance: addresses of its entities and its exports, by kind. */
  class ModuleInstance {
    const name: string
    var addr: nat
    var addrs: ByKind<seq<nat>>
    var exports: ByKind<Names>

    constructor (n: string)
      ensures name == n && addrs == Same([]) && exports == Same(map[])
    {
      name := n;
      addr := 0;
      addrs := Same([]);
      exports := Same(map[]);
    }

    /** Records an address and exports the address recorded last under a name. */
    method AddExported(k: Kind, entry: string, a: nat)
      modifies `addrs, `exports
      ensures addrs == old(addrs).With(k, old(addrs).At(k) + [a])
      ensures exports == old(exports).With(k, old(exports).At(k)[entry := a])
    {
      addrs := addrs.With(k, addrs.At(k) + [a]);
      var last := addrs.At(k)[|addrs.At(k)| - 1];
      exports := exports.With(k, exports.At(k)[entry := last]);
    }
  }

  type Entries = seq<(string, Handle)>

  /** The entries come from a map: no name occurs twice. */
  predicate Distinct(es: Entries) {
    forall i, j :: 0 <= i < j < |es| ==> es[i].0 != es[j].0
  }

  function Handles(es: Entries): (hs: seq<Handle>)
    ensures |hs| == |es|
  {
    seq(|es|, i requires 0 <= i < |es| => es[i].1)
  }

  /** What a host offers: for each kind, named instances. */
  datatype ImportObject = ImportObject(name: string, entries: ByKind<Entries>) {
    predicate Valid() {
      forall k: Kind :: Distinct(entries.At(k))
    }
  }

  /** Every entry is exported, and its address resolves to the host's instance. */
  predicate Resolves(es: Entries, names: Names, insts: seq<Handle>) {
    forall i :: 0 <= i < |es| ==>
      es[i].0 in names && names[es[i].0] < |insts| && insts[names[es[i].0]] == es[i].1
  }

  /** A module knows its address, and no two registered modules have the same name. */
  ghost predicate Ordered(ms: seq<ModuleInstance>, registered: nat)
    reads ms
  {
    && (forall i :: 0 <= i < |ms| ==> ms[i].addr == i)
    && forall i, j :: 0 <= i < j < |ms| && j < registered ==> ms[i].name != ms[j].name
  }

  lemma NoModules()
    ensures Ordered([], 0)
  {
  }

  ghost predicate Unnamed(ms: seq<ModuleInstance>, name: string) {
    forall i :: 0 <= i < |ms| ==> ms[i].name != name
  }

  class StoreManager {
    var mods: Pool<ModuleInstance>
    var ents: ByKind<Pool<Handle>>

    constructor ()
      ensures Valid() && Settled() && mods.insts == []
    {
      hide EmptyPool, Same, Ordered, Pool<ModuleInstance>.Valid;
      NoModules();
      var none: Pool<Handle> := EmptyPool();
      var nobody: Pool<ModuleInstance> := EmptyPool();
      mods := nobody;
      ents := Same(none);
    }

    /** The pools are in order, and so are the modules. */
    ghost predicate Valid()
      reads this, mods.insts
    {
      && mods.Valid() && (forall k: Kind :: ents.At(k).Valid())
      && Ordered(mods.insts, |mods.insts| - mods.num)
    }

    /** Nothing temporary is there. */
    predicate Settled()
      reads this
    {
      mods.num == 0 && forall k: Kind :: ents.At(k).num == 0
    }

    function GetInstance(k: Kind, addr: nat): Option<Handle>
      reads this
    {
      if addr >= |ents.At(k).insts| then None else Some(ents.At(k).insts[addr])
    }

    method FindModule(name: string) returns (m: Option<ModuleInstance>)
      ensures m.Some? ==> m.value in mods.insts && m.value.name == name
      ensures m.None? <==> Unnamed(mods.insts, name)
    {
      for i := 0 to |mods.insts|
        invariant forall j :: 0 <= j < i ==> mods.insts[j].name != name
      {
        if mods.insts[i].name == name {
          return Some(mods.insts[i]);
        }
      }
      m := None;
    }

    /** Pops what was pushed, kind by kind: the registered prefix is back. */
    method Reset()
      requires Valid()
      modifies this
      ensures Valid() && Settled()
      ensures mods == old(mods).Rollback() && mods.insts == old(mods.Registered())
      ensures forall k: Kind :: ents.At(k) == old(ents).At(k).Rollback()
    {
      ResetModules();
      ResetKind(FuncKind);
      ResetKind(TableKind);
      ResetKind(MemoryKind);
      ResetKind(GlobalKind);
    }

    method ResetModules()
      requires mods.Valid()
      modifies `mods
      ensures mods.Valid() && mods.num == 0 && mods == old(mods).Rollback() && mods.insts == old(mods.Registered())
    {
      ghost var m := mods;
      RollbackKept(m);
      while mods.num > 0
        invariant Bounded(mods) && mods.Rollback() == m.Rollback()
        decreases mods.num
      {
        PopIsRollback(mods);
        mods := mods.PopBack();
      }
      PopIsRollback(mods);
    }

    method ResetKind(k: Kind)
      requires ents.At(k).Valid()
      modifies `ents
      ensures forall j: Kind :: ents.At(j) == if j == k then old(ents).At(j).Rollback() else old(ents).At(j)
      ensures ents.At(k).Valid()
    {
      ghost var p := ents.At(k);
      RollbackKept(p);
      while ents.At(k).num > 0
        invariant Bounded(ents.At(k)) && ents.At(k).Rollback() == p.Rollback()
        invariant forall j: Kind :: j != k ==> ents.At(j) == old(ents).At(j)
        decreases ents.At(k).num
      {
        PopIsRollback(ents.At(k));
        ents := ents.With(k, ents.At(k).PopBack());
      }
      PopIsRollback(ents.At(k));
    }

    /** Dropping everything, registered modules included. */
    method Clear()
      modifies this
      ensures Valid() && Settled() && mods.insts == [] && forall k: Kind :: ents.At(k).insts == []
    {
      hide EmptyPool, Same, Ordered, Pool<ModuleInstance>.Valid;
      NoModules();
      var none: Pool<Handle> := EmptyPool();
      var nobody: Pool<ModuleInstance> := EmptyPool();
      mods := nobody;
      ents := Same(none);
    }

    /** A module instance joins the temporary suffix or the registered prefix. */
    method AddModule(m: ModuleInstance, temporary: bool)
      requires Valid() && m !in mods.insts
      requires !temporary ==> mods.num == 0 && Unnamed(mods.insts, m.name)
      modifies this`mods, m`addr
      ensures Valid() && m.addr == |old(mods.insts)|
      ensures mods == if temporary then old(mods).Push(m) else old(mods).Import(m)
    {
      PoolKept(mods, m);
      m.addr := |mods.insts|;
      mods := if temporary then mods.Push(m) else mods.Import(m);
    }

    method AddEntity(k: Kind, h: Handle, temporary: bool) returns (addr: nat)
      requires ents.At(k).Valid() && (!temporary ==> ents.At(k).num == 0)
      modifies `ents
      ensures ents.At(k).Valid() && addr == |old(ents).At(k).insts|
      ensures ents == old(ents).With(k, if temporary then old(ents).At(k).Push(h) else old(ents).At(k).Import(h))
    {
      PoolKept(ents.At(k), h);
      addr := |ents.At(k).insts|;
      ents := ents.With(k, if temporary then ents.At(k).Push(h) else ents.At(k).Import(h));
    }

    method AddHostEntity(k: Kind, h: Handle) returns (addr: nat)
      requires Valid() && ents.At(k).num == 0
      modifies `ents
      ensures Valid() && addr == |old(ents).At(k).insts|
      ensures ents == old(ents).With(k, old(ents).At(k).ImportHost(h))
    {
      PoolKept(ents.At(k), h);
      addr := |ents.At(k).insts|;
      ents := ents.With(k, ents.At(k).ImportHost(h));
    }

    /** Registers the host's instances of one kind under a module. */
    method ImportEntries(m: ModuleInstance, k: Kind, es: Entries)
      requires Valid() && ents.At(k).num == 0 && Distinct(es)
      modifies `ents, m`addrs, m`exports
      ensures Valid()
      ensures forall j: Kind :: j != k ==> ents.At(j) == old(ents).At(j) && m.exports.At(j) == old(m.exports).At(j)
      ensures ents.At(k) == Pool(old(ents).At(k).insts + Handles(es), old(ents).At(k).owned, 0)
      ensures Resolves(es, m.exports.At(k), ents.At(k).insts)
    {
      ghost var p, hs := ents.At(k), Handles(es);
      for i := 0 to |es|
        invariant Valid() && mods == old(mods)
        invariant forall j: Kind :: j != k ==> ents.At(j) == old(ents).At(j) && m.exports.At(j) == old(m.exports).At(j)
        invariant ents.At(k) == Pool(p.insts + hs[..i], p.owned, 0)
        invariant Resolves(es[..i], m.exports.At(k), ents.At(k).insts)
      {
        ghost var names, insts := m.exports.At(k), ents.At(k).insts;
        var addr := AddHostEntity(k, es[i].1);
        m.AddExported(k, es[i].0, addr);
        assert hs[..i + 1] == hs[..i] + [hs[i]];
        ResolvesMore(es, i, names, insts);
      }
      assert hs[..|es|] == hs && es[..|es|] == es;
    }

    method ImportAll(m: ModuleInstance, obj: ImportObject)
      requires Valid() && Settled() && obj.Valid()
      modifies `ents, m`addrs, m`exports
      ensures Valid() && Settled()
      ensures forall k: Kind ::
                && ents.At(k).insts == old(ents).At(k).insts + Handles(obj.entries.At(k))
                && Resolves(obj.entries.At(k), m.exports.At(k), ents.At(k).insts)
    {
      hide Resolves, Distinct, Ordered, Handles;
      ImportEntries(m, FuncKind, obj.entries.At(FuncKind));
      ImportEntries(m, TableKind, obj.entries.At(TableKind));
      ImportEntries(m, MemoryKind, obj.entries.At(MemoryKind));
      ImportEntries(m, GlobalKind, obj.entries.At(GlobalKind));
    }

    /** Registering a host module: the temporary instances go, and unless its name
        is taken the module and its instances join the registered prefix. */
    method RegisterHost(obj: ImportObject) returns (ok: bool)
      requires Valid() && obj.Valid()
      modifies this
      ensures Valid() && Settled()
      ensures ok <==> Unnamed(old(mods.Registered()), obj.name)
      ensures !ok ==> mods == old(mods).Rollback() && forall k: Kind :: ents.At(k) == old(ents).At(k).Rollback()
      ensures ok ==>
        && |mods.insts| > 0
        && var m := mods.insts[|mods.insts| - 1];
        && fresh(m) && m.name == obj.name && mods.insts == old(mods.Registered()) + [m]
        && forall k: Kind ::
             && ents.At(k).insts == old(ents).At(k).Rollback().insts + Handles(obj.entries.At(k))
             && Resolves(obj.entries.At(k), m.exports.At(k), ents.At(k).insts)
    {
      hide Resolves, Distinct, Ordered, Handles, Same;
      Reset();
      var found := FindModule(obj.name);
      if found.Some? {
        return false;
      }
      var m := new ModuleInstance(obj.name);
      AddModule(m, false);
      ImportAll(m, obj);
      ok := true;
    }

    method AddEntities(k: Kind, hs: seq<Handle>, temporary: bool)
      requires ents.At(k).Valid() && ents.At(k).num == 0
      modifies `ents
      ensures ents.At(k).Valid() && forall j: Kind :: j != k ==> ents.At(j) == old(ents).At(j)
      ensures ents.At(k) == Grown(old(ents).At(k), hs, temporary)
    {
      hide Grown, Pool<Handle>.Valid;
      ghost var p := ents.At(k);
      GrownNothing(p, hs, temporary);
      for i := 0 to |hs|
        invariant ents.At(k).Valid() && forall j: Kind :: j != k ==> ents.At(j) == old(ents).At(j)
        invariant ents.At(k) == Grown(p, hs[..i], temporary)
      {
        GrownMore(p, hs, i, temporary);
        var _ := AddEntity(k, hs[i], temporary);
      }
      assert hs[..|hs|] == hs;
    }

    /** While the globals are initialised a temporary module without a name lies on
        top; when an initialiser fails it stays there. */
    method AddGlobals(hs: seq<Handle>, temporary: bool, run: bool)
      requires Valid() && ents.At(GlobalKind).num == 0
      modifies `mods, `ents
      ensures Valid()
      ensures forall k: Kind :: k != GlobalKind ==> ents.At(k) == old(ents).At(k)
      ensures ents.At(GlobalKind) == Grown(old(ents).At(GlobalKind), hs, temporary)
      ensures run ==> mods == old(mods)
      ensures !run ==>
        |mods.insts| > 0 && fresh(mods.insts[|mods.insts| - 1]) && mods.insts[|mods.insts| - 1].name == ""
        && mods == old(mods).Push(mods.insts[|mods.insts| - 1])
    {
      hide Grown, Pool<Handle>.Rollback;
      var tmp := new ModuleInstance("");
      AddModule(tmp, true);
      AddEntities(GlobalKind, hs, temporary);
      if run {
        PopModule();
      }
    }

    /** Drops the last temporary module, if there is one. */
    method PopModule()
      requires Valid()
      modifies `mods
      ensures Valid()
      ensures mods == if old(mods).num > 0 then old(mods).PopBack() else old(mods)
    {
      PopKept(mods);
      if mods.num > 0 {
        mods := mods.PopBack();
      }
    }

    /** The instances of a module; false when an initialiser failed. */
    method Fill(w: Work, temporary: bool) returns (ok: bool)
      requires Valid() && forall k: Kind :: ents.At(k).num == 0
      modifies `mods, `ents
      ensures Valid() && ok == w.globalsRun
      ensures forall k: Kind :: ents.At(k) == Grown(old(ents).At(k), w.Made(k), temporary)
      ensures ok ==> mods == old(mods)
      ensures !ok ==> |mods.insts| > 0 && Last(mods.insts).name == "" && mods == old(mods).Push(Last(mods.insts))
    {
      hide Ordered, Grown, Pool<Handle>.Valid, Pool<Handle>.Rollback;
      AddEntities(FuncKind, w.made.At(FuncKind), temporary);
      AddGlobals(w.made.At(GlobalKind), temporary, w.globalsRun);
      if !w.globalsRun {
        NothingGrown(ents.At(TableKind), temporary);
        NothingGrown(ents.At(MemoryKind), temporary);
        return false;
      }
      AddEntities(TableKind, w.made.At(TableKind), temporary);
      AddEntities(MemoryKind, w.made.At(MemoryKind), temporary);
      ok := true;
    }

    /** Instantiating a module: a taken name, be it that of the module instantiated
        before, refuses it and changes nothing. Otherwise that module goes, and this
        one and the instances made for it become temporary or are registered. */
    method Instantiate(name: string, temporary: bool, w: Work) returns (ok: bool)
      requires Valid()
      modifies this
      ensures Valid()
      ensures ok <==> Unnamed(old(mods.insts), name) && w.globalsRun
      ensures !Unnamed(old(mods.insts), name) ==> mods == old(mods) && ents == old(ents)
      ensures Unnamed(old(mods.insts), name) ==>
        && Added(old(mods).Rollback(), mods, name, temporary, w.globalsRun)
        && forall k: Kind :: ents.At(k) == Grown(old(ents).At(k).Rollback(), w.Made(k), temporary)
    {
      assert mods.num <= |mods.insts|;
      hide Ordered, Same, Grown, Pool<Handle>.Valid, Pool<Handle>.Rollback;
      var found := FindModule(name);
      if found.Some? {
        return false;
      }
      var m := new ModuleInstance(name);
      Reset();
      assert forall i :: 0 <= i < |mods.insts| ==> mods.insts[i] == old(mods.insts)[i];
      ghost var p := mods;
      AddModule(m, temporary);
      ghost var q := mods;
      hide Added;
      ok := Fill(w, temporary);
      AddedBy(p, m, q, mods, temporary, w.globalsRun);
    }
  }

  /** A module of this name was added, and below it nothing changed; if the globals
      could not be initialised, the temporary module without a name is still there. */
  ghost predicate Added(p: Pool<ModuleInstance>, q: Pool<ModuleInstance>, name: string, temporary: bool, run: bool) {
    && |p.insts| < |q.insts| && q.insts[|p.insts|].name == name
    && var grown := Grown(p, [q.insts[|p.insts|]], temporary);
    && (run ==> q == grown)
    && (!run ==> Last(q.insts).name == "" && q == grown.Push(Last(q.insts)))
  }

  lemma AddedBy(p: Pool<ModuleInstance>, m: ModuleInstance, q: Pool<ModuleInstance>, r: Pool<ModuleInstance>,
                temporary: bool, run: bool)
    requires q == if temporary then p.Push(m) else p.Import(m)
    requires run ==> r == q
    requires !run ==> |r.insts| > 0 && Last(r.insts).name == "" && r == q.Push(Last(r.insts))
    ensures Added(p, r, m.name, temporary, run)
  {
    GrownOne(p, m, temporary);
    assert r.insts[|p.insts|] == m;
  }

  function Last<T>(s: seq<T>): T
    requires s != []
  {
    s[|s| - 1]
  }

  lemma GrownOne<T>(p: Pool<T>, x: T, temporary: bool)
    ensures Grown(p, [x], temporary) == if temporary then p.Push(x) else p.Import(x)
  {
  }

  /** What an instantiation makes of each kind, and whether all initialisers of the
      globals run; tables and memories come after the globals. */
  datatype Work = Work(made: ByKind<seq<Handle>>, globalsRun: bool) {
    function Made(k: Kind): seq<Handle> {
      if !globalsRun && (k == TableKind || k == MemoryKind) then [] else made.At(k)
    }
  }

  lemma NothingGrown<T>(p: Pool<T>, temporary: bool)
    ensures Grown(p, [], temporary) == p
  {
    assert p.insts + [] == p.insts && p.owned + [] == p.owned;
  }

  /** A settled pool with more instances, all temporary or all registered. */
  function Grown<T>(p: Pool<T>, xs: seq<T>, temporary: bool): Pool<T> {
    Pool(p.insts + xs, p.owned + xs, p.num + if temporary then |xs| else 0)
  }

  lemma GrownNothing<T>(p: Pool<T>, xs: seq<T>, temporary: bool)
    ensures Grown(p, xs[..0], temporary) == p
  {
    assert p.insts + [] == p.insts && p.owned + [] == p.owned;
  }

  lemma GrownMore<T>(p: Pool<T>, xs: seq<T>, i: nat, temporary: bool)
    requires p.num == 0 && i < |xs|
    ensures var q := Grown(p, xs[..i], temporary);
            && (!temporary ==> q.num == 0)
            && Grown(p, xs[..i + 1], temporary) == if temporary then q.Push(xs[i]) else q.Import(xs[i])
  {
    assert xs[..i + 1] == xs[..i] + [xs[i]];
  }

  /** A reset undoes an instantiation and keeps a registration. */
  lemma GrownRollback<T>(p: Pool<T>, xs: seq<T>, temporary: bool)
    requires p.Valid() && p.num == 0
    ensures var q := Grown(p, xs, temporary);
            q.Valid() && q.Rollback() == if temporary then p else q
  {
    var q := Grown(p, xs, temporary);
    if temporary {
      assert q.insts[|p.insts|..] == xs && q.owned[|p.owned|..] == xs;
      assert q.insts[..|p.insts|] == p.insts && q.owned[..|p.owned|] == p.owned;
    } else {
      assert q.insts[..|q.insts|] == q.insts && q.owned[..|q.owned|] == q.owned;
      assert q.insts[|q.insts|..] == [] && q.owned[|q.owned|..] == [];
    }
  }

  /** Adding the next entry keeps the earlier ones resolved. */
  lemma ResolvesMore(es: Entries, i: nat, names: Names, insts: seq<Handle>)
    requires Distinct(es) && i < |es| && Resolves(es[..i], names, insts)
    ensures Resolves(es[..i + 1], names[es[i].0 := |insts|], insts + [es[i].1])
  {
    forall j | 0 <= j < i + 1
      ensures var n := names[es[i].0 := |insts|]; var s := insts + [es[i].1];
              es[j].0 in n && n[es[j].0] < |s| && s[n[es[j].0]] == es[j].1
    {
      if j < i {
        assert es[..i][j] == es[j];
      }
    }
  }
}
