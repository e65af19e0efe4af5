/** Types shared by the kernel and userspace halves of the model. */
module Base {
  /** `u8`, `u32`, `s32` are C's fixed-width integers as bounded mathematical ones. */
  type u8 = x: int | 0 <= x < 256
  type u32 = x: int | 0 <= x < 0x1_0000_0000
  type s32 = x: int | -0x8000_0000 <= x < 0x8000_0000

  const TWO32 := 0x1_0000_0000
  const TWO64 := 0x1_0000_0000_0000_0000

  datatype Option<+T> = None | Some(value: T)

  /** Kernel return codes that the modelled code distinguishes. */
  datatype Errno = EINVAL | EBUSY | EFAULT | EAGAIN | ENOMEM

  function Min(a: int, b: int): int { if a <= b then a else b }

  function Max(a: int, b: int): int { if a <= b then b else a }

  predicate Distinct(s: seq<nat>) { forall i, j :: 0 <= i < j < |s| ==> s[i] != s[j] }

  /** The kernel's `clamp_t`. */
  function Clamp(v: int, lo: int, hi: int): int { Min(Max(v, lo), hi) }
}
