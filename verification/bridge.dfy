/**
 * The `runity` behaviour (cs_examples/runity.cs): it resolves the native
 * `start` and `update` entry points once, and on `Start` and on every
 * `Update` builds a `DataStruct` from its own fields and a fresh clock
 * snapshot, calls the entry point and writes back only some of what comes
 * back: the transform, the game object, and two clock fields.
 *
 * The native entry point is a parameter `entry: DataStruct -> DataStruct`,
 * standing for the native function the bound delegate calls.
 */
module Bridge {
  import opened Interop
  import opened Payload
  import opened ModulePool
  import opened TagCache

  /** The host state that lasts from one frame to the next: `m_transform`,
      `m_gameObject` and the engine clock. */
  datatype HostState = HostState(transform: Transform, gameObject: GameObject, clock: Time)

  /** `a` agrees with `b` on every clock field except the two the host
      writes back. */
  predicate SameUnwritable(a: Time, b: Time) {
    a.(fixedDeltaTime := b.fixedDeltaTime, timeScale := b.timeScale) == b
  }

  /** The engine clock after a call: of the returned time fields only
      `fixedDeltaTime` and `timeScale` are written; the rest are discarded. */
  function WriteBackClock(clock: Time, returned: Time): (c: Time)
    ensures c.fixedDeltaTime == returned.fixedDeltaTime && c.timeScale == returned.timeScale
    ensures SameUnwritable(c, clock)
  {
    clock.(fixedDeltaTime := returned.fixedDeltaTime, timeScale := returned.timeScale)
  }

  /** The payload `Start` sends: the fixed start transform, the game object
      re-pointed at it with the tag-lookup callback bound, and the clock. */
  function StartPayload(gameObject: GameObject, now: Time): (d: DataStruct)
    ensures d.transform == StartTransform && d.gameObject.transform == StartTransform
    ensures d.gameObject.tag == gameObject.tag && d.gameObject.getGameObjectByTag == TagLookup
    ensures d.time == now
  {
    var t := StartTransform;
    DataStruct(t, gameObject.(transform := t, getGameObjectByTag := TagLookup), now)
  }

  /** The payload `Update` sends: the host transform, the game object
      re-pointed at it, and the clock. */
  function UpdatePayload(transform: Transform, gameObject: GameObject, now: Time): (d: DataStruct)
    ensures d.transform == transform && d.gameObject.transform == transform
    ensures d.gameObject.tag == gameObject.tag && d.gameObject.getGameObjectByTag == gameObject.getGameObjectByTag
    ensures d.time == now
  {
    DataStruct(transform, gameObject.(transform := transform), now)
  }

  /** One call of an entry point and the write-back of its result. */
  function Exchange(h: HostState, sent: DataStruct, entry: DataStruct -> DataStruct): (g: HostState)
    ensures g.transform == entry(sent).transform && g.gameObject == entry(sent).gameObject
    ensures g.clock.fixedDeltaTime == entry(sent).time.fixedDeltaTime
    ensures g.clock.timeScale == entry(sent).time.timeScale
    ensures SameUnwritable(g.clock, h.clock)
  {
    var returned := entry(sent);
    HostState(returned.transform, returned.gameObject, WriteBackClock(h.clock, returned.time))
  }

  function StartTick(h: HostState, entry: DataStruct -> DataStruct): HostState {
    Exchange(h, StartPayload(h.gameObject, h.clock), entry)
  }

  function UpdateTick(h: HostState, entry: DataStruct -> DataStruct): HostState {
    Exchange(h, UpdatePayload(h.transform, h.gameObject, h.clock), entry)
  }

  /** The host state with the game object's transform brought in line with
      the host transform, as every `Update` does before the call. */
  function Synced(h: HostState): HostState {
    h.(gameObject := h.gameObject.(transform := h.transform))
  }

  /** Round trip: an `update` that returns its payload unchanged leaves the
      host as it was, except that the game object's transform is synced. */
  lemma IdentityUpdateKeepsHost(h: HostState, entry: DataStruct -> DataStruct)
    requires var sent := UpdatePayload(h.transform, h.gameObject, h.clock); entry(sent) == sent
    ensures UpdateTick(h, entry) == Synced(h)
  {
  }

  /** One frame as the engine runs it: the clock readings the engine has
      reached by then, and what the native `update` does in that frame. */
  datatype Frame = Frame(reading: Time, entry: DataStruct -> DataStruct)

  /** The engine clock at the start of a frame: the engine's own readings,
      except the two settings the host writes, which keep the values they
      had when the previous frame ended. */
  function Advance(clock: Time, reading: Time): (c: Time)
    ensures SameUnwritable(c, reading)
    ensures c.fixedDeltaTime == clock.fixedDeltaTime && c.timeScale == clock.timeScale
  {
    reading.(fixedDeltaTime := clock.fixedDeltaTime, timeScale := clock.timeScale)
  }

  /** One frame: the engine advances its clock, then `Update` runs. */
  function RunFrame(h: HostState, f: Frame): HostState {
    UpdateTick(h.(clock := Advance(h.clock, f.reading)), f.entry)
  }

  /** The host after a series of frames. */
  function Updates(h: HostState, frames: seq<Frame>): HostState
    decreases |frames|
  {
    if |frames| == 0 then h else Updates(RunFrame(h, frames[0]), frames[1..])
  }

  /** The settings native code returns in one frame are the ones it is sent
      in the next; every other clock field it is sent is the engine's own
      reading. */
  lemma SettingsCarryToNextFrame(h: HostState, f: Frame, g: Frame)
    ensures var sent := UpdatePayload(h.transform, h.gameObject, Advance(h.clock, f.reading));
            var h1 := RunFrame(h, f);
            var next := UpdatePayload(h1.transform, h1.gameObject, Advance(h1.clock, g.reading));
            && next.time.fixedDeltaTime == f.entry(sent).time.fixedDeltaTime
            && next.time.timeScale == f.entry(sent).time.timeScale
            && SameUnwritable(next.time, g.reading)
  {
  }

  /** Any number of frames of an `update` that returns its payload unchanged
      leave the object where it was, with the game object synced to it and
      the two settings as they were; the clock is the engine's last reading. */
  lemma {:induction false} IdleUpdatesAreStable(h: HostState, frames: seq<Frame>)
    requires forall i, d :: 0 <= i < |frames| ==> frames[i].entry(d) == d
    requires frames != []
    ensures Updates(h, frames) == Synced(h).(clock := Advance(h.clock, frames[|frames| - 1].reading))
    decreases |frames|
  {
    var h0 := h.(clock := Advance(h.clock, frames[0].reading));
    IdentityUpdateKeepsHost(h0, frames[0].entry);
    var h1 := RunFrame(h, frames[0]);
    assert h1 == Synced(h).(clock := Advance(h.clock, frames[0].reading));
    if |frames| > 1 {
      var rest := frames[1..];
      IdleUpdatesAreStable(h1, rest);
      assert rest[|rest| - 1] == frames[|frames| - 1];
      assert Synced(h1) == Synced(h).(clock := h1.clock);
      assert Advance(h1.clock, rest[|rest| - 1].reading) == Advance(h.clock, rest[|rest| - 1].reading);
    } else {
      assert frames[1..] == [];
    }
  }

  /** After any number of frames, whatever the native code returns, the
      engine clock is the engine's last reading except in `fixedDeltaTime`
      and `timeScale`. */
  lemma {:induction false} ClockFramedAcrossUpdates(h: HostState, frames: seq<Frame>)
    requires frames != []
    ensures SameUnwritable(Updates(h, frames).clock, frames[|frames| - 1].reading)
    decreases |frames|
  {
    var h1 := RunFrame(h, frames[0]);
    if |frames| > 1 {
      var rest := frames[1..];
      ClockFramedAcrossUpdates(h1, rest);
      assert rest[|rest| - 1] == frames[|frames| - 1];
    } else {
      assert frames[1..] == [];
      var c0 := Advance(h.clock, frames[0].reading);
      assert SameUnwritable(h1.clock, c0);
      assert h1.clock.(fixedDeltaTime := frames[0].reading.fixedDeltaTime, timeScale := frames[0].reading.timeScale)
          == c0.(fixedDeltaTime := frames[0].reading.fixedDeltaTime, timeScale := frames[0].reading.timeScale);
    }
  }

  /** The time fields other than `fixedDeltaTime` and `timeScale` that the
      native code returns have no effect on the host: two entry points that
      differ only there lead to the same host state. */
  lemma UpdateIgnoresDiscardedTimeFields(h: HostState, e1: DataStruct -> DataStruct, e2: DataStruct -> DataStruct)
    requires var sent := UpdatePayload(h.transform, h.gameObject, h.clock);
             && e1(sent).transform == e2(sent).transform
             && e1(sent).gameObject == e2(sent).gameObject
             && e1(sent).time.fixedDeltaTime == e2(sent).time.fixedDeltaTime
             && e1(sent).time.timeScale == e2(sent).time.timeScale
    ensures UpdateTick(h, e1) == UpdateTick(h, e2)
  {
  }

  /** `Start` overrides the host transform: what it sends does not depend on
      the transform the host had before. */
  lemma StartIgnoresPriorTransform(h: HostState, t: Transform, entry: DataStruct -> DataStruct)
    ensures StartTick(h.(transform := t), entry) == StartTick(h, entry)
  {
  }

  /** With a module that loads, `Awake`'s two lookups load it at most once,
      and the `update` lookup uses the module the `start` lookup pooled. */
  lemma {:induction false} AwakeLoadsModuleOnce(pool: map<string, Handle>, os: Os, dll: string)
    requires NoZero(pool)
    requires dll !in pool ==> os.LoadLibrary(dll) != Zero
    ensures var s := ResolveStep(pool, os, dll, "start");
            var u := ResolveStep(s.pool, os, dll, "update");
            && LoadCount(s.calls + u.calls, dll) <= (if dll in pool then 0 else 1)
            && ModuleFor(s.pool, os, dll) == ModuleFor(pool, os, dll)
            && u.pool == s.pool
  {
    var s := ResolveStep(pool, os, dll, "start");
    var u := ResolveStep(s.pool, os, dll, "update");
    var first := LoadStep(pool, os, dll);
    assert dll in s.pool;
    assert LoadStep(s.pool, os, dll).calls == [];
    LoadCountAppend(first.calls, [GetProc(ModuleFor(pool, os, dll), "start")], dll);
    LoadCountAppend([], [GetProc(ModuleFor(s.pool, os, dll), "update")], dll);
    LoadCountAppend(s.calls, u.calls, dll);
  }

  /** With a module that does not load, each of `Awake`'s two lookups asks
      the loader again, and nothing is pooled. */
  lemma {:induction false} AwakeRetriesMissingModule(pool: map<string, Handle>, os: Os, dll: string)
    requires NoZero(pool)
    requires dll !in pool && os.LoadLibrary(dll) == Zero
    ensures var s := ResolveStep(pool, os, dll, "start");
            var u := ResolveStep(s.pool, os, dll, "update");
            && LoadCount(s.calls + u.calls, dll) == 2
            && u.pool == pool
  {
    var s := ResolveStep(pool, os, dll, "start");
    var u := ResolveStep(s.pool, os, dll, "update");
    assert s.calls == [Load(dll)] + [GetProc(Zero, "start")];
    assert u.calls == [Load(dll)] + [GetProc(Zero, "update")];
    LoadCountAppend([Load(dll)], [GetProc(Zero, "start")], dll);
    LoadCountAppend([Load(dll)], [GetProc(Zero, "update")], dll);
    LoadCountAppend(s.calls, u.calls, dll);
  }

  /** The names of the two entry points `Awake` resolves. */
  const StartSymbol := "start"
  const UpdateSymbol := "update"

  /** `UnityEngine.Time`: the engine clock. */
  class EngineClock {
    var now: Time

    constructor (now: Time)
      ensures this.now == now
    {
      this.now := now;
    }
  }

  /** The `runity` component. */
  class Runity {
    var dllName: string
    var position: Vector3
    var rotation: Quaternion
    var gameObject: GameObject    // m_gameObject
    var transform: Transform      // m_transform
    var dataStruct: DataStruct
    var time: Time                // m_time
    var start: FunctionDelegate
    var update: FunctionDelegate
    var objectPool: map<string, ObjId>
    var runStart: bool
    var runUpdate: bool

    /** The field initialisers: every struct at its default, no delegate
        bound, an empty object pool and both flags off. */
    constructor ()
      ensures dllName == "runity.dll"
      ensures position == ZeroVector && rotation == ZeroTransform.rotation
      ensures gameObject == DefaultGameObject && transform == ZeroTransform
      ensures dataStruct == DefaultDataStruct && time == ZeroTime
      ensures start == Null && update == Null && objectPool == map[]
      ensures !runStart && !runUpdate
    {
      dllName := "runity.dll";
      position := ZeroVector;
      rotation := ZeroTransform.rotation;
      gameObject := DefaultGameObject;
      transform := ZeroTransform;
      dataStruct := DefaultDataStruct;
      time := ZeroTime;
      start := Null;
      update := Null;
      objectPool := map[];
      runStart := false;
      runUpdate := false;
    }

    ghost function Host(clock: EngineClock): HostState
      reads this, clock
    {
      HostState(transform, gameObject, clock.now)
    }

    /** Resolves `start` and `update` from the module and sets each flag when
        its pointer is non-zero; then resets the per-frame structs. */
    method Awake(dlls: DllPool)
      requires dlls.Valid()
      modifies this`runStart, this`runUpdate, this`start, this`update
      modifies this`transform, this`gameObject, this`dataStruct, this`time
      modifies dlls`pool, dlls.native`calls
      ensures dlls.Valid()
      ensures var s := ResolveStep(old(dlls.pool), dlls.native.os, dllName, StartSymbol);
              var u := ResolveStep(s.pool, dlls.native.os, dllName, UpdateSymbol);
              && dlls.pool == u.pool
              && dlls.native.calls == old(dlls.native.calls) + s.calls + u.calls
              && runStart == (old(runStart) || s.result.pointer != Zero)
              && runUpdate == (old(runUpdate) || u.result.pointer != Zero)
              && start == (if s.result.pointer != Zero then s.result.delegate else old(start))
              && update == (if u.result.pointer != Zero then u.result.delegate else old(update))
      ensures transform == ZeroTransform && gameObject == DefaultGameObject
      ensures dataStruct == DefaultDataStruct && time == ZeroTime
    {
      ghost var s := ResolveStep(dlls.pool, dlls.native.os, dllName, StartSymbol);
      ghost var calls0 := dlls.native.calls;
      var startFunction, startPtr := dlls.LoadFunctionFromDLL(dllName, StartSymbol);
      assert Resolved(startFunction, startPtr) == s.result && dlls.native.calls == calls0 + s.calls;
      if startPtr != Zero {
        runStart := true;
        start := startFunction;
      }
      ghost var u := ResolveStep(dlls.pool, dlls.native.os, dllName, UpdateSymbol);
      var updateFunction, updatePtr := dlls.LoadFunctionFromDLL(dllName, UpdateSymbol);
      assert Resolved(updateFunction, updatePtr) == u.result;
      assert dlls.native.calls == calls0 + s.calls + u.calls;
      if updatePtr != Zero {
        runUpdate := true;
        update := updateFunction;
      }
      transform := ZeroTransform;
      gameObject := DefaultGameObject;
      dataStruct := DefaultDataStruct;
      time := ZeroTime;
      assert runStart == (old(runStart) || s.result.pointer != Zero);
      assert runUpdate == (old(runUpdate) || u.result.pointer != Zero);
      assert start == (if s.result.pointer != Zero then s.result.delegate else old(start));
      assert update == (if u.result.pointer != Zero then u.result.delegate else old(update));
    }

    /** Copies the engine clock into `time`. */
    method SetTime(clock: EngineClock)
      modifies this`time
      ensures time == clock.now
    {
      time := clock.now;
    }

    /** Calls the native `start` once with the start transform, then applies
        what it returns; does nothing when `start` was not resolved. */
    method Start(clock: EngineClock, entry: DataStruct -> DataStruct)
      modifies this, clock
      ensures !old(runStart) ==> unchanged(this) && unchanged(clock)
      ensures old(runStart) ==>
                && Host(clock) == StartTick(old(Host(clock)), entry)
                && dataStruct == entry(StartPayload(old(gameObject), old(clock.now)))
                && time == old(clock.now)
                && position == transform.position && rotation == transform.rotation
      ensures dllName == old(dllName) && start == old(start) && update == old(update)
      ensures objectPool == old(objectPool) && runStart == old(runStart) && runUpdate == old(runUpdate)
    {
      if runStart {
        transform := transform.(position := ZeroVector);
        transform := transform.(rotation := StartTransform.rotation);

        gameObject := gameObject.(transform := transform);
        gameObject := gameObject.(getGameObjectByTag := TagLookup);

        dataStruct := dataStruct.(transform := transform);
        dataStruct := dataStruct.(gameObject := gameObject);

        SetTime(clock);

        dataStruct := dataStruct.(time := time);

        dataStruct := entry(dataStruct);

        clock.now := clock.now.(fixedDeltaTime := dataStruct.time.fixedDeltaTime);
        clock.now := clock.now.(timeScale := dataStruct.time.timeScale);

        gameObject := dataStruct.gameObject;
        transform := dataStruct.transform;
        position := transform.position;
        rotation := transform.rotation;
      }
    }

    /** Every frame: sends the host transform, game object and a fresh clock
        snapshot to the native `update` and applies what it returns; does
        nothing when `update` was not resolved. */
    method Update(clock: EngineClock, entry: DataStruct -> DataStruct)
      modifies this, clock
      ensures !old(runUpdate) ==> unchanged(this) && unchanged(clock)
      ensures old(runUpdate) ==>
                && Host(clock) == UpdateTick(old(Host(clock)), entry)
                && dataStruct == entry(UpdatePayload(old(transform), old(gameObject), old(clock.now)))
                && time == old(clock.now)
                && position == transform.position && rotation == transform.rotation
      ensures dllName == old(dllName) && start == old(start) && update == old(update)
      ensures objectPool == old(objectPool) && runStart == old(runStart) && runUpdate == old(runUpdate)
    {
      if runUpdate {
        gameObject := gameObject.(transform := transform);

        dataStruct := dataStruct.(transform := transform);
        dataStruct := dataStruct.(gameObject := gameObject);

        SetTime(clock);

        dataStruct := dataStruct.(time := time);

        dataStruct := entry(dataStruct);

        clock.now := clock.now.(fixedDeltaTime := dataStruct.time.fixedDeltaTime);
        clock.now := clock.now.(timeScale := dataStruct.time.timeScale);

        gameObject := dataStruct.gameObject;
        transform := dataStruct.transform;
        position := transform.position;
        rotation := transform.rotation;
      }
    }

    /** The callback native code uses to find a host object by tag. `text`
        is the ANSI string at `tag`. */
    method GetGameObjectFromTag(tag: Handle, text: string, scene: Scene) returns (r: Result<GameObject, Exception>)
      modifies this`objectPool, scene`queries
      ensures var l := LookupTag(old(objectPool), scene.registry, tag, text);
              r == l.result && objectPool == l.pool && scene.queries == old(scene.queries) + l.queries
    {
      if tag == Zero {
        // `objectPool.ContainsKey` on the null string
        return Err(ArgumentNull);
      }
      if text in objectPool {
        var found := objectPool[text];
        if found !in scene.registry.objects {
          var again := scene.FindGameObjectWithTag(text);
          if again.None? {
            // reading the transform of a null object
            return Err(NullReference);
          }
          // `objectPool.Add` on the tag that is already present
          return Err(DuplicateKey);
        }
        return Ok(Snapshot(tag, scene.registry.objects[found]));
      }
      var found := scene.FindGameObjectWithTag(text);
      if found.None? {
        return Ok(Snapshot(tag, ZeroTransform));
      }
      objectPool := objectPool[text := found.value];
      return Ok(Snapshot(tag, scene.registry.objects[found.value]));
    }
  }
}
