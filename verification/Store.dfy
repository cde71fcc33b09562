/** The store: instance vectors with a registered prefix and a temporary suffix
    that a reset rolls back. */
module Store {
  import opened Wasm

  /** One kind of instance: the pointers addresses index into, the instances the
      store owns among them, and how many of the last ones are temporary. */
  datatype Pool<T> = Pool(insts: seq<T>, owned: seq<T>, num: nat) {

    /** The temporary pointers are exactly the last owned instances. */
    ghost predicate Valid() {
      && num <= |insts| && num <= |owned|
      && insts[|insts| - num..] == owned[|owned| - num..]
    }

    function Registered(): seq<T>
      requires num <= |insts|
    {
      insts[..|insts| - num]
    }

    /** The owned instances that are not temporary: a reset does not destroy them. */
    function Kept(): seq<T>
      requires num <= |owned|
    {
      owned[..|owned| - num]
    }

    function Import(x: T): Pool<T> {
      Pool(insts + [x], owned + [x], num)
    }

    function ImportHost(x: T): Pool<T> {
      Pool(insts + [x], owned, num)
    }

    function Push(x: T): Pool<T> {
      Pool(insts + [x], owned + [x], num + 1)
    }

    function PopBack(): Pool<T>
      requires 0 < num <= |insts| && num <= |owned|
    {
      Pool(insts[..|insts| - 1], owned[..|owned| - 1], num - 1)
    }

    /** What the popping loop of a reset leaves. */
    function Rollback(): Pool<T>
      requires num <= |insts| && num <= |owned|
    {
      Pool(insts[..|insts| - num], owned[..|owned| - num], 0)
    }
  }

  function EmptyPool<T>(): (p: Pool<T>)
    ensures p.Valid() && p.num == 0 && p.insts == []
  {
    Pool([], [], 0)
  }

  /** Popping back one by one is rolling back. */
  lemma PopIsRollback<T>(p: Pool<T>)
    requires p.num <= |p.insts| && p.num <= |p.owned|
    ensures p.num == 0 ==> p.Rollback() == p
    ensures p.num > 0 ==> p.PopBack().Rollback() == p.Rollback()
  {
    if p.num > 0 {
      assert p.insts[..|p.insts| - 1][..|p.insts| - p.num] == p.insts[..|p.insts| - p.num];
      assert p.owned[..|p.owned| - 1][..|p.owned| - p.num] == p.owned[..|p.owned| - p.num];
    } else {
      assert p.insts[..|p.insts|] == p.insts && p.owned[..|p.owned|] == p.owned;
    }
  }

  lemma PoolKept<T>(p: Pool<T>, x: T)
    requires p.Valid()
    ensures p.Push(x).Valid() && p.Push(x).Registered() == p.Registered() && p.Push(x).Kept() == p.Kept()
    ensures p.num == 0 ==>
      && p.Import(x).Valid() && p.Import(x).Registered() == p.Registered() + [x]
      && p.Import(x).Kept() == p.Kept() + [x]
    ensures p.num == 0 ==>
      && p.ImportHost(x).Valid() && p.ImportHost(x).Registered() == p.Registered() + [x]
      && p.ImportHost(x).Kept() == p.Kept()
  {
    var q := p.Push(x);
    assert q.insts[|q.insts| - q.num..] == p.insts[|p.insts| - p.num..] + [x];
    assert q.owned[|q.owned| - q.num..] == p.owned[|p.owned| - p.num..] + [x];
  }

  lemma PopKept<T>(p: Pool<T>)
    requires p.Valid()
    ensures p.num > 0 ==>
      && p.PopBack().Valid() && p.PopBack().Registered() == p.Registered()
      && p.PopBack().Kept() == p.Kept()
  {
    if p.num > 0 {
      var r := p.PopBack();
      assert r.insts[|r.insts| - r.num..] == p.insts[|p.insts| - p.num..][..p.num - 1];
      assert r.owned[|r.owned| - r.num..] == p.owned[|p.owned| - p.num..][..p.num - 1];
    }
  }

  lemma RollbackKept<T>(p: Pool<T>)
    requires p.Valid()
    ensures p.Rollback().Valid() && p.Rollback().insts == p.Rollback().Registered() == p.Registered()
    ensures p.Rollback().owned == p.Rollback().Kept() == p.Kept()
  {
  }

  /** An import while temporary instances are there is not what a reset keeps: it
      keeps the oldest temporary instance in its place. */
  lemma ImportOverTemporary<T>(p: Pool<T>, x: T)
    requires p.Valid() && p.num > 0
    ensures p.Import(x).Rollback().insts == p.Registered() + [p.insts[|p.insts| - p.num]]
  {
    var n := |p.insts| - p.num;
    assert (p.insts + [x])[..n + 1] == p.insts[..n] + [p.insts[n]];
  }

  /** A later reset keeps the import, exactly when nothing temporary was there or
      the oldest temporary instance is the import itself. */
  lemma ImportSurvives<T>(p: Pool<T>, x: T)
    requires p.Valid()
    ensures p.Import(x).Rollback().insts == p.Registered() + [x]
       <==> p.num == 0 || p.insts[|p.insts| - p.num] == x
  {
    if p.num > 0 {
      ImportOverTemporary(p, x);
      var a, b := p.Registered() + [p.insts[|p.insts| - p.num]], p.Registered() + [x];
      assert a[|p.Registered()|] == p.insts[|p.insts| - p.num] && b[|p.Registered()|] == x;
    } else {
      PoolKept(p, x);
    }
  }

  // ----- runs -----

  datatype Op<T> = ImportOp(x: T) | HostOp(x: T) | PushOp(x: T) | PopOp | ResetOp

  predicate Bounded<T>(p: Pool<T>) {
    p.num <= |p.insts| && p.num <= |p.owned|
  }

  function Apply<T>(p: Pool<T>, op: Op<T>): (q: Pool<T>)
    requires Bounded(p)
    ensures Bounded(q)
  {
    match op
    case ImportOp(x) => p.Import(x)
    case HostOp(x) => p.ImportHost(x)
    case PushOp(x) => p.Push(x)
    case PopOp => if p.num > 0 then p.PopBack() else p
    case ResetOp => p.Rollback()
  }

  function Run<T>(p: Pool<T>, ops: seq<Op<T>>): (q: Pool<T>)
    requires Bounded(p)
    ensures Bounded(q)
    decreases |ops|
  {
    if ops == [] then p else Run(Apply(p, ops[0]), ops[1..])
  }

  /** Imports happen only when nothing temporary is there. */
  predicate Disciplined<T>(p: Pool<T>, ops: seq<Op<T>>)
    requires Bounded(p)
    decreases |ops|
  {
    ops == [] ||
    ((ops[0].ImportOp? || ops[0].HostOp? ==> p.num == 0) && Disciplined(Apply(p, ops[0]), ops[1..]))
  }

  /** Everything a run imports, in order. */
  function Imports<T>(ops: seq<Op<T>>): seq<T> {
    if ops == [] then []
    else (if ops[0].ImportOp? || ops[0].HostOp? then [ops[0].x] else []) + Imports(ops[1..])
  }

  /** Those among them that the store owns; the others belong to their host. */
  function OwnImports<T>(ops: seq<Op<T>>): seq<T> {
    if ops == [] then [] else (if ops[0].ImportOp? then [ops[0].x] else []) + OwnImports(ops[1..])
  }

  /** In every run in which imports wait for a reset, the temporary suffix stays
      what the store owns, the registered prefix is what was imported, and the
      store goes on owning the imports it owns. */
  lemma {:induction false} DisciplinedRun<T>(p: Pool<T>, ops: seq<Op<T>>)
    requires p.Valid() && Disciplined(p, ops)
    ensures Run(p, ops).Valid() && Run(p, ops).Registered() == p.Registered() + Imports(ops)
    ensures Run(p, ops).Kept() == p.Kept() + OwnImports(ops)
    decreases |ops|
  {
    if ops != [] {
      OpKept(p, ops[0]);
      DisciplinedRun(Apply(p, ops[0]), ops[1..]);
    }
  }

  lemma OpKept<T>(p: Pool<T>, op: Op<T>)
    requires p.Valid() && (op.ImportOp? || op.HostOp? ==> p.num == 0)
    ensures Apply(p, op).Valid()
    ensures Apply(p, op).Registered()
         == p.Registered() + if op.ImportOp? || op.HostOp? then [op.x] else []
    ensures Apply(p, op).Kept() == p.Kept() + if op.ImportOp? then [op.x] else []
  {
    match op
    case ImportOp(x) => PoolKept(p, x);
    case HostOp(x) => PoolKept(p, x);
    case PushOp(x) => PoolKept(p, x);
    case PopOp => PopKept(p);
    case ResetOp => RollbackKept(p);
  }

  /** An address handed out for a registered instance resolves to that instance
      for ever, whatever is imported, pushed, popped and reset afterwards. */
  lemma AddressesStable<T>(p: Pool<T>, ops: seq<Op<T>>, addr: nat)
    requires p.Valid() && Disciplined(p, ops) && addr < |p.Registered()|
    ensures addr < |Run(p, ops).insts| && Run(p, ops).insts[addr] == p.insts[addr]
  {
    hide Run, Imports, OwnImports;
    DisciplinedRun(p, ops);
    var q := Run(p, ops);
    assert q.insts[addr] == q.Registered()[addr] == p.Registered()[addr];
  }

  /** A reset at the end leaves the imports and nothing else. */
  lemma ResetRestores<T>(p: Pool<T>, ops: seq<Op<T>>)
    requires p.Valid() && Disciplined(p, ops)
    ensures Run(p, ops).Rollback().insts == p.Registered() + Imports(ops)
  {
    hide Run, Imports, OwnImports;
    DisciplinedRun(p, ops);
  }
}
