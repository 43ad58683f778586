/**
 * The sequential-layout structs that `runity` passes to and receives from
 * the native entry points (cs_examples/runity.cs, lines 67-125).
 *
 * Every numeric field is a C# `float` that the host only copies; none is
 * computed on, so they are modelled as `real`, and the few constants the host
 * writes (0, 0.25, 1) are exact in single precision.
 */
module Payload {
  import opened Interop

  type Float = real

  datatype Vector3 = Vector3(x: Float, y: Float, z: Float)

  datatype Quaternion = Quaternion(x: Float, y: Float, z: Float, w: Float)

  datatype Transform = Transform(position: Vector3, rotation: Quaternion)

  /** The `GetGameObjectByTag` delegate slot: empty, or bound to the host's
      `GetGameObjectFromTag`. */
  datatype Callback = NoCallback | TagLookup

  /** `tag` is the address of the tag string, as native code sees it. */
  datatype GameObject = GameObject(tag: Handle, transform: Transform, getGameObjectByTag: Callback)

  /** The clock snapshot, field for field as `UnityEngine.Time` exposes it. */
  datatype Time = Time(
    deltaTime: Float,
    fixedDeltaTime: Float,
    fixedTime: Float,
    fixedUnscaledDeltaTime: Float,
    fixedUnscaledTime: Float,
    frameCount: Float,
    maximumDeltaTime: Float,
    maximumParticleDeltaTime: Float,
    realTimeSinceStartup: Float,
    smoothDeltaTime: Float,
    time: Float,
    timeScale: Float,
    timeSinceLevelLoad: Float,
    unscaledDeltaTime: Float,
    unscaledTime: Float)

  /** The payload of `start` and `update`. */
  datatype DataStruct = DataStruct(transform: Transform, gameObject: GameObject, time: Time)

  // The default (all-zero) value of each struct, as `new T { }` gives it.
  const ZeroVector := Vector3(0.0, 0.0, 0.0)
  const ZeroTransform := Transform(ZeroVector, Quaternion(0.0, 0.0, 0.0, 0.0))
  const DefaultGameObject := GameObject(Zero, ZeroTransform, NoCallback)
  const ZeroTime := Time(0.0, 0.0, 0.0, 0.0, 0.0, 0.0, 0.0, 0.0, 0.0, 0.0, 0.0, 0.0, 0.0, 0.0, 0.0)
  const DefaultDataStruct := DataStruct(ZeroTransform, DefaultGameObject, ZeroTime)

  /** The transform `Start` hands to the native `start`: at the origin,
      rotation (0, 0.25, 0, 1). */
  const StartTransform := Transform(ZeroVector, Quaternion(0.0, 0.25, 0.0, 1.0))
}
