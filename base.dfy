/** Fixed-width integers, optional values and errors shared by the client model. */
module Base {

  /** Go's uint32, uint64 and int32, and a byte of a Go []byte. */
  type uint32 = x: int | 0 <= x < 0x1_0000_0000
  type uint64 = x: int | 0 <= x < 0x1_0000_0000_0000_0000
  type int32 = x: int | -0x8000_0000 <= x < 0x8000_0000
  type byte = x: int | 0 <= x < 0x100

  /** Go's conversion uint32(n) of a non-negative int: keeps the low 32 bits. */
  function ToUint32(n: nat): (r: uint32)
    ensures n < 0x1_0000_0000 ==> r == n
    ensures (n - r) % 0x1_0000_0000 == 0
  {
    n % 0x1_0000_0000
  }

  /** A Go pointer that may be nil. */
  datatype Option<+T> = None | Some(value: T)

  /** A value or a Go error. */
  datatype Result<+T, +E> = Success(value: T) | Failure(error: E)

  /** A Go error: one reported by a collaborator, or one wrapped with fmt.Errorf("<context>: %v", cause). */
  datatype Error = Error(message: string) | Wrapped(context: string, cause: Error)
}
