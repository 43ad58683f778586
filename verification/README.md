# runity host bridge, modelled in Dafny

runity lets a Unity scene run per-frame behaviour from a native library. It has two C# scripts. `DLLPool` keeps a process-wide dictionary from library name to native module handle. `runity` uses it to resolve the library's `start` and `update` entry points, and calls them once at start-up and once per frame. Each call sends a `DataStruct` that holds the object's transform, its game object and a snapshot of the engine clock. From the returned struct the host keeps the transform, the game object and two clock fields. Native code can call back into `GetGameObjectFromTag`, which looks up host objects by tag through a small cache.

The model has five files:

- `interop.dfy`: native handles (`Zero` is `IntPtr.Zero`), `Option` and `Result`.
- `module_pool.dfy`: `DLLPool`. The operating system's loader is an oracle, `Os`. `NativeMethods` logs every loader call it receives, so "does not call `LoadLibrary`" can be stated. Pure step functions (`LoadStep`, `ResolveStep`, `FreeCalls`, `Run`) specify the class `DllPool`, whose methods update the `pool` map and the call log in place.
- `payload.dfy`: the sequential-layout structs exchanged with native code.
- `tag_cache.dfy`: the tag lookup, as written (`LookupTag`) and corrected (`RefreshLookup`), and the scene's tag query with a query counter.
- `bridge.dfy`: the host state from frame to frame and what one call does to it, plus the class `Runity` with `Awake`, `Start`, `Update`, `SetTime` and `GetGameObjectFromTag`. The native entry point is a parameter `entry: DataStruct -> DataStruct`.

## What the code does and does not do

The pool has no reference count and no per-name unload. `UnloadAll` frees every handle but keeps every entry, so a later `LoadDLL` of the name hands back the freed handle. Only the `start` and `update` entry points are resolved; there is no teardown entry point. The tag lookup never refreshes a stale cache entry: a cached object that was destroyed makes every later lookup of its tag throw (see "## Findings").

## Model

| member | source | states |
|---|---|---|
| `ModulePool.PooledHandle` | cs_examples/DLLPool.cs:63-71 | Returns the pooled handle for a pooled name and `Zero` for any other name. While the pool holds no `Zero` handle, the result is non-zero exactly when the name is pooled. |
| `ModulePool.LoadStep` | cs_examples/DLLPool.cs:80-114 | The pool stays free of `Zero`. The result is non-zero exactly when the name ends up pooled under that handle. At most the one entry for the name is added, and every other entry keeps its handle. The loader is called, once, exactly when the name was not pooled, and its answer is the result. |
| `ModulePool.ResolveStep` | cs_examples/DLLPool.cs:124-157 | The pointer is the loader's export of the symbol from the pooled or newly loaded module. The delegate is null exactly when the pointer is `Zero`. The pool and the loader calls are those of loading the library, followed by one symbol lookup. |
| `ModulePool.Run` | cs_examples/DLLPool.cs:99-111 | No sequence of pool operations ever puts a `Zero` handle into the pool. |
| `ModulePool.LoadedAtMostOnce` | cs_examples/DLLPool.cs:82-111 | Over any sequence of `LoadDLL`, `LoadFunctionFromDLL` and `UnloadAll` calls, a pooled library is never loaded again, whatever the loader answers, and one that is not pooled but loads successfully is loaded at most once. |
| `ModulePool.PooledHandleIsStable` | cs_examples/DLLPool.cs:164-174 | Once a name is pooled, its handle never changes and it is never removed, whatever operations follow. |
| `ModulePool.FreedHandleIsReturnedAgain` | cs_examples/DLLPool.cs:82-85 | After `UnloadAll` frees a pooled handle, `LoadDLL` of that name returns the freed handle without asking the loader. |
| `ModulePool.UnloadAllFreesEachOnce` | cs_examples/DLLPool.cs:164-174 | When every pooled key is enumerated once, there is one `FreeLibrary` call per key, with that key's handle. Every pooled handle is freed. |
| `ModulePool.NativeMethods.LoadLibrary` | cs_examples/DLLPool.cs:22-23 | Answers what the OS table gives for the name, and logs the call. |
| `ModulePool.NativeMethods.GetProcAddress` | cs_examples/DLLPool.cs:25-26 | Answers the OS export for the module and symbol, and logs the call. |
| `ModulePool.NativeMethods.FreeLibrary` | cs_examples/DLLPool.cs:28-29 | Logs one free of the handle. |
| `ModulePool.DllPool.constructor` | cs_examples/DLLPool.cs:39 | The pool starts empty, and therefore satisfies its invariant. |
| `ModulePool.DllPool.GetDLL` | cs_examples/DLLPool.cs:63-71 | Returns the pooled handle or `Zero`. Under the invariant, the result is non-zero iff the name is pooled. It changes nothing. |
| `ModulePool.DllPool.LoadDLL` | cs_examples/DLLPool.cs:80-114 | Keeps the invariant. The returned handle, the new pool and the new loader calls are those of `LoadStep`. |
| `ModulePool.DllPool.LoadFunctionFromDLL` | cs_examples/DLLPool.cs:124-157 | Keeps the invariant. The returned delegate and pointer, the new pool and the new loader calls are those of `ResolveStep`. |
| `ModulePool.DllPool.UnloadAll` | cs_examples/DLLPool.cs:164-174 | Leaves the pool unchanged. It appends one `FreeLibrary` per pooled key, in some order that lists each key exactly once. |
| `TagCache.Find` | cs_examples/runity.cs:305 | Any object the scene's tag query returns is live. |
| `TagCache.LookupTag` | cs_examples/runity.cs:265-329 | A null tag pointer, and only that, throws the null-argument exception. At most one scene query, and none exactly when the tag pointer is null or the tag is cached on a live object. Every answer carries the caller's tag pointer. The cache only grows, and only by the looked-up tag. A throwing lookup leaves the cache as it was. |
| `TagCache.NullTagThrows` | cs_examples/runity.cs:272-279 | A null tag pointer decodes to a null string; the dictionary rejects it before any query, and the cache is unchanged. |
| `TagCache.HitLiveUsesCache` | cs_examples/runity.cs:293-301 | Hit on a live object: no query, the cache is unchanged, and the cached object's current transform is returned. |
| `TagCache.HitDestroyedThrows` | cs_examples/runity.cs:282-291 | Hit on a destroyed object: one query, and then an exception with the cache unchanged. If the query finds an object, the exception is the duplicate-key one from `Add`. If not, it is a null reference. |
| `TagCache.MissNotFoundFallsBack` | cs_examples/runity.cs:305-315 | Miss, tag not found: one query, and the all-zero transform (rotation w = 0) is returned with the caller's tag. Nothing is cached. |
| `TagCache.MissFoundCaches` | cs_examples/runity.cs:316-325 | Miss, tag found: one query. The tag is cached to the found object, and that object's transform is returned. |
| `TagCache.NotFoundIsRetried` | cs_examples/runity.cs:303-315 | A "not found" is not remembered. When the object appears later, the next lookup finds it and caches it. |
| `TagCache.FoundIsServedFromCache` | cs_examples/runity.cs:279-301 | After a found lookup, the next lookup makes no query while the object lives. It returns that object's current transform, even if the tag now names another object. |
| `TagCache.Replay` | cs_examples/runity.cs:265-329 | Repeated lookups of one tag give one answer per scene. Across them the cache only grows, and only by that tag; no entry is replaced. |
| `TagCache.StaleEntryIsPermanent` | cs_examples/runity.cs:282-291 | A destroyed cached object poisons its tag: every later lookup throws and the cache never changes. |
| `TagCache.StaleCacheCounterexample` | cs_examples/runity.cs:282-291 | With a non-null tag pointer whose string is "Player", "Player" is cached to destroyed object 1 while object 2 carries the tag. The query finds object 2, yet the lookup throws the duplicate-key exception. |
| `TagCache.RefreshLookup` | cs_examples/runity.cs:269-291 | The corrected lookup throws only for a null tag pointer, as the original does. A live cached object answers with no query. Otherwise the answer is a fresh query's, with one query. Afterwards the tag's cache entry, if any, is live, and other tags are untouched. |
| `TagCache.RefreshAgreesWhereLookupSucceeds` | cs_examples/runity.cs:279-326 | Wherever the as-written lookup does not throw, the corrected one gives the same outcome. |
| `TagCache.RefreshRecovers` | cs_examples/runity.cs:282-291 | With the correction, a destroyed entry is replaced by the object now carrying the tag. The next lookup then serves it from the cache with no query. |
| `TagCache.Scene.FindGameObjectWithTag` | cs_examples/runity.cs:284 | Answers the scene's tag query and counts one query. |
| `Bridge.WriteBackClock` | cs_examples/runity.cs:218-219 | Of the returned time fields, only `fixedDeltaTime` and `timeScale` reach the engine clock. Every other clock field is unchanged. |
| `Bridge.StartPayload` | cs_examples/runity.cs:173-185 | `start` receives the fixed start transform, both as the transform and as the game object's transform. The game object keeps its tag, and the tag-lookup callback is bound. The time is the fresh clock snapshot. |
| `Bridge.UpdatePayload` | cs_examples/runity.cs:207-214 | `update` receives `m_transform`, both as the transform and as the game object's transform. The game object keeps its tag and callback. The time is the fresh clock snapshot. |
| `Bridge.Exchange` | cs_examples/runity.cs:216-222 | After a call, the host transform and game object are the returned ones. The clock takes the returned `fixedDeltaTime` and `timeScale` and nothing else. |
| `Bridge.IdentityUpdateKeepsHost` | cs_examples/runity.cs:207-222 | Round trip: an `update` that returns its payload unchanged leaves the host as it was, except that the game object's transform is synced to `m_transform`. |
| `Bridge.SettingsCarryToNextFrame` | cs_examples/runity.cs:207-219 | The `fixedDeltaTime` and `timeScale` that native code returns in one frame are what it is sent in the next frame. Every other clock field it is sent is the engine's new reading. |
| `Bridge.IdleUpdatesAreStable` | cs_examples/runity.cs:203-229 | With the engine advancing its clock between frames, any number of such frames leave the object where it was, with the game object synced to it. The two settings keep their values, and the clock is the engine's last reading. |
| `Bridge.ClockFramedAcrossUpdates` | cs_examples/runity.cs:216-219 | After any number of frames, whatever the native code returns, the engine clock equals the engine's last reading in every field except `fixedDeltaTime` and `timeScale`. |
| `Bridge.UpdateIgnoresDiscardedTimeFields` | cs_examples/runity.cs:216-222 | Entry points whose results differ only in the discarded time fields lead to the same host state. |
| `Bridge.StartIgnoresPriorTransform` | cs_examples/runity.cs:173-174 | What `Start` does does not depend on the transform the host had before. |
| `Bridge.AwakeLoadsModuleOnce` | cs_examples/runity.cs:136-146 | With a library that loads, `Awake`'s two resolutions load it at most once, and none when it is pooled. The `update` lookup uses the module the `start` lookup pooled. |
| `Bridge.AwakeRetriesMissingModule` | cs_examples/runity.cs:136-146 | With a library that does not load, each of the two resolutions asks the loader again, and nothing is pooled. |
| `Bridge.Runity.constructor` | cs_examples/runity.cs:24-50 | The field initialisers: the library name is "runity.dll", the structs are at their defaults, no delegate is bound, the object pool is empty and both flags are off. |
| `Bridge.Runity.Awake` | cs_examples/runity.cs:134-165 | Resolves `start` and then `update` through the pool. A flag and its delegate are set exactly when that pointer is non-zero, and are left as they were otherwise. The per-frame structs are reset to their defaults. |
| `Bridge.Runity.SetTime` | cs_examples/runity.cs:242-259 | `m_time` becomes the engine clock's current values. |
| `Bridge.Runity.Start` | cs_examples/runity.cs:169-200 | Without `runStart`, nothing changes. Otherwise the host state becomes `StartTick` of the old one, and `dataStruct` holds what `start` returned. `m_time` is the clock snapshot, and `position`/`rotation` copy the new transform. |
| `Bridge.Runity.Update` | cs_examples/runity.cs:203-229 | Without `runUpdate`, nothing changes. Otherwise the host state becomes `UpdateTick` of the old one, and `dataStruct` holds what `update` returned. `m_time` is the clock snapshot, and `position`/`rotation` copy the new transform. |
| `Bridge.Runity.GetGameObjectFromTag` | cs_examples/runity.cs:265-329 | The answer or exception, the new `objectPool` and the number of scene queries are those of `LookupTag`, including the exception for a null tag pointer. |

## Findings

| source | as written | input that shows it | evidently intended | confidence | as-written member | corrected member |
|---|---|---|---|---|---|---|
| cs_examples/runity.cs:282-291 | A cached object that was destroyed is looked up again, and then `objectPool.Add` is called on the tag that is already present. That throws. If the new query finds nothing, the code reads the transform of `null` and throws instead. The entry is never replaced, so every later lookup of that tag throws too. | A non-null tag pointer to "Player"; "Player" is cached to object 1, object 1 is destroyed, and object 2 now carries the tag "Player". | Replace the stale entry with the object found now, or drop it when nothing carries the tag. Return that object's transform or the zero fallback, as the comment at lines 269-270 describes. | not executed; high | `TagCache.StaleCacheCounterexample` (with `TagCache.LookupTag`, `TagCache.StaleEntryIsPermanent`) | `TagCache.RefreshLookup` (with `TagCache.RefreshRecovers`, `TagCache.RefreshAgreesWhereLookupSucceeds`) |

The component method `Bridge.Runity.GetGameObjectFromTag` models the code as written, so its contract exhibits the exception. The correction is stated and proved beside it.

## Left out

- The Rust crate is not part of this model: vector, quaternion and lerp float math, the `String` wrapper over raw pointers, `free_ptr`, the callback wrappers and the `repr(C)` layouts. Its `DataStruct` has a `debug` field and its `GameObject` has a `hash` field that the C# structs lack. Layout compatibility is not modelled.
- `DLLPool`'s singleton `Awake` and its `OnDestroy` are Unity lifecycle glue. `OnDestroy` only calls `UnloadAll`.
- Plugin path building and the editor/player `#if` are left out. `LoadLibrary` is keyed by the library name.
- All logging (`Debug.Log`, `LogWarning`, `LogError`) is left out, including the warning for a tag that is not found.
- `FreeLibrary`'s boolean result is ignored by its only caller and is not modelled.
- `ModulePool.DllPool.LoadFunctionFromDLL`: of the exceptions its handler catches, only the one raised for a missing symbol is modelled. A delegate is modelled by the pointer it wraps, and `Marshal.GetDelegateForFunctionPointer` is assumed not to throw.
- Copying the transform onto the engine object (runity.cs lines 197-198 and 226-227) is left out. The `position` and `rotation` fields are modelled.
- `runity`'s `OnDestroy`, which frees the tag pointer, is left out.
- `Bridge.Runity.Start` and `Bridge.Runity.Update`: native code may call back into `GetGameObjectFromTag` during the call. Those callbacks are not modelled inside the call. They are modelled as separate calls of `Bridge.Runity.GetGameObjectFromTag`.
- `Marshal.PtrToStringAnsi` is an oracle: `GetGameObjectFromTag` receives the decoded tag text beside the tag pointer. A null pointer decodes to a null string, and the resulting `ArgumentNullException` is modelled; the decoding of a non-null pointer is not.
- The `UnityException` that the scene's tag query raises for a tag the project does not define is not modelled.
- Unity's call order (`Awake`, then `Start` once, then `Update` every frame) is not enforced. The methods may be called in any order.
- Float values are modelled as `real`. They are only copied, and the constants written (0, 0.25, 1) are exact in single precision.
- `Bridge.Runity.SetTime`: `UnityEngine.Time.frameCount` is an `int` that is converted to a `float` (runity.cs line 249), which rounds counts above 2^24. The model keeps the clock's `frameCount` as a `real` and does not model that rounding.
- `ModulePool.Os`: the loader's answers are fixed for the whole run. A library that fails to load cannot become loadable later, and a module freed by `UnloadAll` still answers `GetProcAddress` with its old exports, where the real loader fails on an unloaded module.
- `ModulePool.LoadedAtMostOnce`: because of the fixed loader, it covers a library that is pooled or whose load succeeds. With a loader that changes over time, the promise would be that no load follows the first successful one; the model cannot express that.
- `Bridge.Updates`: how the engine advances its clock between frames is an assumption of the model (`Bridge.Advance`). Every field takes the engine's new reading, except `fixedDeltaTime` and `timeScale`, which are settings the engine keeps until someone writes them.
