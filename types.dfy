/** Machine integers, the error taxonomy of `axerrno` and the result shapes
    shared by the hypervisor modules. */
module Types {

  const USIZE_MODULUS: int := 0x1_0000_0000_0000_0000
  const U32_MODULUS: int := 0x1_0000_0000
  const U16_MODULUS: int := 0x1_0000

  /** A 64-bit `usize` (the target is riscv64). */
  type Usize = x: int | 0 <= x < USIZE_MODULUS
  type U32 = x: int | 0 <= x < U32_MODULUS
  type U16 = x: int | 0 <= x < U16_MODULUS

  /** `a + b` on `usize` in a release build, where overflow wraps. */
  function WrappingAdd(a: Usize, b: Usize): (r: Usize)
    ensures a + b < USIZE_MODULUS ==> r == a + b
    ensures a + b >= USIZE_MODULUS ==> r == a + b - USIZE_MODULUS
  {
    (a + b) % USIZE_MODULUS
  }

  /** `a - b` on `usize` in a release build, where underflow wraps. */
  function WrappingSub(a: Usize, b: Usize): (r: Usize)
    ensures b <= a ==> r == a - b
    ensures a < b ==> r == a - b + USIZE_MODULUS
  {
    (a - b) % USIZE_MODULUS
  }

  /** `x as u32`: keeps the low 32 bits. */
  function TruncateU32(x: Usize): (r: U32)
    ensures x < U32_MODULUS ==> r == x
    ensures (x - r) % U32_MODULUS == 0
  {
    x % U32_MODULUS
  }

  /** `x as u16`: keeps the low 16 bits. */
  function TruncateU16(x: U32): (r: U16)
    ensures x < U16_MODULUS ==> r == x
    ensures (x - r) % U16_MODULUS == 0
  {
    x % U16_MODULUS
  }

  /** The `axerrno::AxError` variants this core produces or passes on. */
  datatype AxError =
    | BadAddress
    | BadState
    | InvalidData
    | InvalidInput
    | Io
    | NoMemory
    | NotFound
    | Unsupported
    | AlreadyExists

  datatype Option<T> = None | Some(value: T)

  /** `AxResult<T>`. */
  datatype Result<T> = Ok(value: T) | Err(error: AxError)

  /** Why the hypervisor panics. */
  datatype PanicReason =
    | UserPageFault                     // `panic!("User page fault")`
    | PageFaultError(error: AxError)    // `panic!("Page fault at ... with error ...")`
    | UnreachableLength(len: nat)       // `unreachable!()` on an instruction length other than 2 or 4
    | ZeroClaim                         // `assert!(irq != 0)`
    | StartTransitionFailed             // `transition_state(Free, Ready).unwrap()`
    | VcpuAlreadyRunning                // `panic!` in `sync_vcpu`

  /** The outcome of a Rust call that may return an `AxResult` or panic. */
  datatype Exec<T> = Done(value: T) | Failed(error: AxError) | Panicked(reason: PanicReason)
}
