/**
 * The process-wide pool of native modules (cs_examples/DLLPool.cs).
 *
 * The pool is a dictionary from module name to the handle the operating
 * system returned for it. A name is loaded only when it is not pooled yet,
 * a failed load leaves the pool as it was, and `UnloadAll` frees every pooled
 * handle without taking any entry out of the pool. There is no reference
 * count and no per-name unload.
 *
 * The operating system's loader (`LoadLibrary`, `GetProcAddress`,
 * `FreeLibrary`) is an oracle: an `Os` value says what each call answers,
 * and `NativeMethods` records every call it receives, in order, so that
 * "does not call LoadLibrary" is something the model can state.
 */
module ModulePool {
  import opened Interop

  /** What the loader answers. A name or an export not in the tables
      answers `Zero`. */
  datatype Os = Os(libraries: map<string, Handle>, exports: map<(Handle, string), Handle>)
  {
    function LoadLibrary(name: string): Handle {
      if name in libraries then libraries[name] else Zero
    }

    function GetProcAddress(library: Handle, symbol: string): Handle {
      if (library, symbol) in exports then exports[(library, symbol)] else Zero
    }
  }

  /** One call into the operating system's loader. */
  datatype NativeCall =
    | Load(name: string)
    | GetProc(library: Handle, symbol: string)
    | Free(library: Handle)

  /** The pool invariant: only non-zero handles are ever added. */
  predicate NoZero(pool: map<string, Handle>) {
    forall name :: name in pool ==> pool[name] != Zero
  }

  /** The result of one pool operation, the pool after it and the loader
      calls it made. */
  datatype Step<T> = Step(result: T, pool: map<string, Handle>, calls: seq<NativeCall>)

  /** A delegate bound to a native function; `Null` is C#'s `null`. */
  datatype FunctionDelegate = Null | ForPointer(pointer: Handle)

  /** What `LoadFunctionFromDLL` returns: the delegate and the raw pointer. */
  datatype Resolved = Resolved(delegate: FunctionDelegate, pointer: Handle)

  /** Number of `LoadLibrary(name)` calls in a call log. */
  function LoadCount(calls: seq<NativeCall>, name: string): nat {
    if calls == [] then 0
    else (if calls[0] == Load(name) then 1 else 0) + LoadCount(calls[1..], name)
  }

  /** `GetDLL`: the pooled handle, or `Zero` when the name is not pooled. */
  function PooledHandle(pool: map<string, Handle>, name: string): (h: Handle)
    ensures name in pool ==> h == pool[name]
    ensures name !in pool ==> h == Zero
    ensures NoZero(pool) ==> (h != Zero <==> name in pool)
  {
    if name in pool then pool[name] else Zero
  }

  /** `LoadDLL` on a pool value. */
  function LoadStep(pool: map<string, Handle>, os: Os, name: string): (r: Step<Handle>)
    requires NoZero(pool)
    ensures NoZero(r.pool)
    // the result is non-zero exactly when the name ends up pooled, under that handle
    ensures r.result != Zero <==> name in r.pool
    ensures name in r.pool ==> r.pool[name] == r.result
    // at most the one entry for `name` is added; every other entry is kept
    ensures r.pool.Keys == pool.Keys + (if r.result != Zero then {name} else {})
    ensures forall k :: k in pool ==> r.pool[k] == pool[k]
    // the loader is asked only for a name that is not pooled, and then answers the result
    ensures r.calls == [] <==> name in pool
    ensures r.calls != [] ==> r.calls == [Load(name)] && r.result == os.LoadLibrary(name)
  {
    if PooledHandle(pool, name) != Zero then
      Step(PooledHandle(pool, name), pool, [])
    else
      var h := os.LoadLibrary(name);
      if h == Zero then Step(Zero, pool, [Load(name)])
      else Step(h, pool[name := h], [Load(name)])
  }

  /** The module handle a symbol is looked up in: the pooled one, or what the
      loader answers for a name that is not pooled. */
  function ModuleFor(pool: map<string, Handle>, os: Os, dll: string): Handle {
    if dll in pool then pool[dll] else os.LoadLibrary(dll)
  }

  /** `LoadFunctionFromDLL` on a pool value. The `ExternalException` thrown
      for a missing symbol is caught and turned into `(null, Zero)`. */
  function ResolveStep(pool: map<string, Handle>, os: Os, dll: string, symbol: string): (r: Step<Resolved>)
    requires NoZero(pool)
    ensures NoZero(r.pool)
    ensures r.result.pointer == os.GetProcAddress(ModuleFor(pool, os, dll), symbol)
    ensures r.result.delegate == (if r.result.pointer == Zero then Null else ForPointer(r.result.pointer))
    // the module is loaded as LoadDLL would load it, then the symbol is looked up once
    ensures r.pool == LoadStep(pool, os, dll).pool
    ensures r.calls == LoadStep(pool, os, dll).calls + [GetProc(ModuleFor(pool, os, dll), symbol)]
  {
    var loaded :=
      if PooledHandle(pool, dll) != Zero then Step(PooledHandle(pool, dll), pool, [])
      else LoadStep(pool, os, dll);
    var f := os.GetProcAddress(loaded.result, symbol);
    var calls := loaded.calls + [GetProc(loaded.result, symbol)];
    if f == Zero then Step(Resolved(Null, Zero), loaded.pool, calls)
    else Step(Resolved(ForPointer(f), f), loaded.pool, calls)
  }

  /** The `FreeLibrary` calls made for the pooled names in `order`. */
  function FreeCalls(pool: map<string, Handle>, order: seq<string>): seq<NativeCall> {
    if order == [] then []
    else (if order[0] in pool then [Free(pool[order[0]])] else []) + FreeCalls(pool, order[1..])
  }

  /** `order` lists every key of `keys` exactly once. */
  ghost predicate Enumerates(order: seq<string>, keys: set<string>) {
    && (forall i, j :: 0 <= i < j < |order| ==> order[i] != order[j])
    && (forall k :: k in order <==> k in keys)
  }

  lemma {:induction false} FreeCallsSnoc(pool: map<string, Handle>, order: seq<string>, name: string)
    requires name in pool
    ensures FreeCalls(pool, order + [name]) == FreeCalls(pool, order) + [Free(pool[name])]
  {
    if order != [] {
      assert (order + [name])[1..] == order[1..] + [name];
      FreeCallsSnoc(pool, order[1..], name);
    }
  }

  lemma {:induction false} DistinctLength(order: seq<string>, keys: set<string>)
    requires Enumerates(order, keys)
    ensures |order| == |keys|
  {
    if order != [] {
      var rest := order[1..];
      assert Enumerates(rest, keys - {order[0]}) by {
        forall k ensures k in rest <==> k in keys - {order[0]} {
          if k in rest {
            var i :| 0 <= i < |rest| && rest[i] == k;
            assert order[i + 1] == k;
          }
          if k in keys - {order[0]} {
            assert k in order;
            var i :| 0 <= i < |order| && order[i] == k;
            assert i != 0;
            assert rest[i - 1] == k;
          }
        }
      }
      DistinctLength(rest, keys - {order[0]});
    }
  }

  /** `UnloadAll` frees each pooled handle once: one `FreeLibrary` per key,
      with that key's handle. */
  lemma {:induction false} UnloadAllFreesEachOnce(pool: map<string, Handle>, order: seq<string>)
    requires Enumerates(order, pool.Keys)
    ensures |FreeCalls(pool, order)| == |order| == |pool|
    ensures forall i :: 0 <= i < |order| ==> FreeCalls(pool, order)[i] == Free(pool[order[i]])
    ensures forall name :: name in pool ==> Free(pool[name]) in FreeCalls(pool, order)
  {
    AllPooledFreeCalls(pool, order);
    DistinctLength(order, pool.Keys);
    assert |pool.Keys| == |pool|;
    forall name | name in pool ensures Free(pool[name]) in FreeCalls(pool, order) {
      assert name in order;
      var i :| 0 <= i < |order| && order[i] == name;
      assert FreeCalls(pool, order)[i] == Free(pool[name]);
    }
  }

  lemma {:induction false} AllPooledFreeCalls(pool: map<string, Handle>, order: seq<string>)
    requires forall k :: k in order ==> k in pool
    ensures |FreeCalls(pool, order)| == |order|
    ensures forall i :: 0 <= i < |order| ==> FreeCalls(pool, order)[i] == Free(pool[order[i]])
  {
    if order != [] {
      AllPooledFreeCalls(pool, order[1..]);
    }
  }

  /** The loader calls of a whole run contain no `LoadLibrary` from `UnloadAll`. */
  lemma {:induction false} FreeCallsLoadNothing(pool: map<string, Handle>, order: seq<string>, name: string)
    ensures LoadCount(FreeCalls(pool, order), name) == 0
  {
    if order != [] {
      FreeCallsLoadNothing(pool, order[1..], name);
      LoadCountAppend(if order[0] in pool then [Free(pool[order[0]])] else [], FreeCalls(pool, order[1..]), name);
    }
  }

  lemma {:induction false} LoadCountAppend(a: seq<NativeCall>, b: seq<NativeCall>, name: string)
    ensures LoadCount(a + b, name) == LoadCount(a, name) + LoadCount(b, name)
  {
    if a != [] {
      assert (a + b)[0] == a[0] && (a + b)[1..] == a[1..] + b;
      LoadCountAppend(a[1..], b, name);
    } else {
      assert a + b == b;
    }
  }

  /** The pool's public operations, for stating properties of any sequence of them. */
  datatype PoolOp =
    | LoadDll(name: string)
    | LoadFunction(dll: string, symbol: string)
    | UnloadAll(order: seq<string>)

  function Apply(pool: map<string, Handle>, os: Os, op: PoolOp): (r: Step<Handle>)
    requires NoZero(pool)
    ensures NoZero(r.pool)
  {
    match op
    case LoadDll(name) => LoadStep(pool, os, name)
    case LoadFunction(dll, symbol) =>
      var s := ResolveStep(pool, os, dll, symbol);
      Step(s.result.pointer, s.pool, s.calls)
    case UnloadAll(order) => Step(Zero, pool, FreeCalls(pool, order))
  }

  /** Running the operations one after the other: the final pool and all
      loader calls, in order. */
  function Run(pool: map<string, Handle>, os: Os, ops: seq<PoolOp>): (r: Step<seq<Handle>>)
    requires NoZero(pool)
    ensures NoZero(r.pool)
    ensures |r.result| == |ops|
    decreases |ops|
  {
    if ops == [] then Step([], pool, [])
    else
      var first := Apply(pool, os, ops[0]);
      var rest := Run(first.pool, os, ops[1..]);
      Step([first.result] + rest.result, rest.pool, first.calls + rest.calls)
  }

  /** One operation loads a name at most once; once the name loads it stays
      pooled, and a pooled name keeps its handle and is not loaded again. */
  lemma ApplyLoadsAtMostOnce(pool: map<string, Handle>, os: Os, op: PoolOp, name: string)
    requires NoZero(pool)
    requires name !in pool ==> os.LoadLibrary(name) != Zero
    ensures LoadCount(Apply(pool, os, op).calls, name) <= (if name in pool then 0 else 1)
    ensures LoadCount(Apply(pool, os, op).calls, name) == 1 ==> name in Apply(pool, os, op).pool
    ensures name in pool ==> name in Apply(pool, os, op).pool && Apply(pool, os, op).pool[name] == pool[name]
  {
    match op
    case LoadDll(n) =>
    case LoadFunction(dll, symbol) =>
      LoadCountAppend(LoadStep(pool, os, dll).calls, [GetProc(ModuleFor(pool, os, dll), symbol)], name);
    case UnloadAll(order) =>
      FreeCallsLoadNothing(pool, order, name);
  }

  /** Across any sequence of pool operations, a pooled module is never
      loaded again, and one that is not pooled yet but loads successfully is
      loaded by the operating system at most once. */
  lemma {:induction false} LoadedAtMostOnce(pool: map<string, Handle>, os: Os, ops: seq<PoolOp>, name: string)
    requires NoZero(pool)
    requires name !in pool ==> os.LoadLibrary(name) != Zero
    ensures LoadCount(Run(pool, os, ops).calls, name) <= (if name in pool then 0 else 1)
    decreases |ops|
  {
    if ops != [] {
      var first := Apply(pool, os, ops[0]);
      ApplyLoadsAtMostOnce(pool, os, ops[0], name);
      LoadedAtMostOnce(first.pool, os, ops[1..], name);
      LoadCountAppend(first.calls, Run(first.pool, os, ops[1..]).calls, name);
    }
  }

  /** Once a name is pooled its handle never changes, whatever operations
      follow: `UnloadAll` frees the handle but leaves it in the pool, so a
      later lookup hands out the freed handle. */
  lemma {:induction false} PooledHandleIsStable(pool: map<string, Handle>, os: Os, ops: seq<PoolOp>, name: string)
    requires NoZero(pool)
    requires name in pool
    ensures name in Run(pool, os, ops).pool && Run(pool, os, ops).pool[name] == pool[name]
    decreases |ops|
  {
    if ops != [] {
      var first := Apply(pool, os, ops[0]);
      assert name in first.pool && first.pool[name] == pool[name] by {
        match ops[0]
        case LoadDll(n) =>
        case LoadFunction(dll, symbol) =>
        case UnloadAll(order) =>
      }
      PooledHandleIsStable(first.pool, os, ops[1..], name);
    }
  }

  /** After `UnloadAll`, `LoadDLL` of a pooled name returns the handle that
      was just freed and does not ask the loader again. */
  lemma FreedHandleIsReturnedAgain(pool: map<string, Handle>, os: Os, order: seq<string>, name: string)
    requires NoZero(pool)
    requires Enumerates(order, pool.Keys)
    requires name in pool
    ensures Free(pool[name]) in Run(pool, os, [UnloadAll(order), LoadDll(name)]).calls
    ensures Run(pool, os, [UnloadAll(order), LoadDll(name)]).result[1] == pool[name]
    ensures LoadCount(Run(pool, os, [UnloadAll(order), LoadDll(name)]).calls, name) == 0
  {
    var ops := [UnloadAll(order), LoadDll(name)];
    UnloadAllFreesEachOnce(pool, order);
    FreeCallsLoadNothing(pool, order, name);
    var unload := Apply(pool, os, ops[0]);
    assert unload == Step(Zero, pool, FreeCalls(pool, order));
    assert ops[1..] == [LoadDll(name)];
    var load := Apply(pool, os, LoadDll(name));
    assert load == Step(pool[name], pool, []);
    var tail := Run(pool, os, ops[1..]);
    assert tail == Step([pool[name]], pool, []) by {
      assert ops[1..][1..] == [];
      assert Run(pool, os, ops[1..][1..]) == Step([], pool, []);
      assert [pool[name]] + [] == [pool[name]];
    }
    assert Run(pool, os, ops).calls == FreeCalls(pool, order) + [];
    assert Run(pool, os, ops).result == [Zero] + [pool[name]];
    LoadCountAppend(FreeCalls(pool, order), [], name);
  }

  /** The operating system's loader, with a log of the calls it receives. */
  class NativeMethods {
    const os: Os
    var calls: seq<NativeCall>

    constructor (os: Os)
      ensures this.os == os && calls == []
    {
      this.os := os;
      calls := [];
    }

    method LoadLibrary(name: string) returns (h: Handle)
      modifies this`calls
      ensures h == os.LoadLibrary(name)
      ensures calls == old(calls) + [Load(name)]
    {
      h := os.LoadLibrary(name);
      calls := calls + [Load(name)];
    }

    method GetProcAddress(library: Handle, symbol: string) returns (f: Handle)
      modifies this`calls
      ensures f == os.GetProcAddress(library, symbol)
      ensures calls == old(calls) + [GetProc(library, symbol)]
    {
      f := os.GetProcAddress(library, symbol);
      calls := calls + [GetProc(library, symbol)];
    }

    method FreeLibrary(library: Handle)
      modifies this`calls
      ensures calls == old(calls) + [Free(library)]
    {
      calls := calls + [Free(library)];
    }
  }

  /** `DLLPool`: the dictionary `dllPool` and its static operations. */
  class DllPool {
    var pool: map<string, Handle>
    const native: NativeMethods

    ghost predicate Valid()
      reads this
    {
      NoZero(pool)
    }

    constructor (native: NativeMethods)
      ensures Valid() && pool == map[] && this.native == native
    {
      pool := map[];
      this.native := native;
    }

    method GetDLL(name: string) returns (h: Handle)
      ensures h == PooledHandle(pool, name)
      ensures Valid() ==> (h != Zero <==> name in pool)
    {
      if name in pool {
        return pool[name];
      }
      return Zero;
    }

    method LoadDLL(name: string) returns (h: Handle)
      requires Valid()
      modifies this`pool, native`calls
      ensures Valid()
      ensures var s := LoadStep(old(pool), native.os, name);
              h == s.result && pool == s.pool && native.calls == old(native.calls) + s.calls
    {
      var pooled := GetDLL(name);
      if pooled != Zero {
        h := GetDLL(name);
        return;
      }
      h := native.LoadLibrary(name);
      if h == Zero {
        return;
      }
      // `Dictionary.Add` throws on a present key; the name is absent here
      assert name !in pool;
      pool := pool[name := h];
    }

    method LoadFunctionFromDLL(dll: string, symbol: string) returns (delegate: FunctionDelegate, pointer: Handle)
      requires Valid()
      modifies this`pool, native`calls
      ensures Valid()
      ensures var s := ResolveStep(old(pool), native.os, dll, symbol);
              Resolved(delegate, pointer) == s.result && pool == s.pool
              && native.calls == old(native.calls) + s.calls
    {
      var library := GetDLL(dll);
      if library != Zero {
        library := GetDLL(dll);
      } else {
        library := LoadDLL(dll);
      }
      var f := native.GetProcAddress(library, symbol);
      if f == Zero {
        // the ExternalException thrown here is caught by the handler
        return Null, Zero;
      }
      return ForPointer(f), f;
    }

    method UnloadAll() returns (ghost order: seq<string>)
      requires Valid()
      modifies native`calls
      ensures pool == old(pool)
      ensures Enumerates(order, pool.Keys)
      ensures native.calls == old(native.calls) + FreeCalls(pool, order)
    {
      order := [];
      var remaining := pool.Keys;
      while remaining != {}
        invariant remaining <= pool.Keys
        invariant forall i, j :: 0 <= i < j < |order| ==> order[i] != order[j]
        invariant forall k :: k in order <==> k in pool.Keys - remaining
        invariant native.calls == old(native.calls) + FreeCalls(pool, order)
        decreases remaining
      {
        var name :| name in remaining;
        assert name !in order;
        native.FreeLibrary(pool[name]);
        FreeCallsSnoc(pool, order, name);
        order := order + [name];
        remaining := remaining - {name};
      }
    }
  }
}
