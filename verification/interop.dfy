/**
 * Values that cross the boundary between the managed host and native code.
 */
module Interop {

  /** A native pointer-sized value (`IntPtr`): a module handle, a function
      pointer or the address of a string. */
  type Handle = int

  /** `IntPtr.Zero`: "no handle". */
  const Zero: Handle := 0

  datatype Option<+T> = None | Some(value: T)

  /** The outcome of a host operation that can throw a .NET exception. */
  datatype Result<+T, +E> = Ok(value: T) | Err(error: E)
}
