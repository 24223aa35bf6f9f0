/** Types shared by every module of the model. */
module Prelude {
  datatype Option<+T> = None | Some(value: T)

  type u8 = x: int | 0 <= x < 0x100
  type u16 = x: int | 0 <= x < 0x1_0000
  type u32 = x: int | 0 <= x < 0x1_0000_0000
  type u64 = x: int | 0 <= x < 0x1_0000_0000_0000_0000

  const U32_MAX: u32 := 0xFFFF_FFFF
  const U64_MAX: u64 := 0xFFFF_FFFF_FFFF_FFFF

  /** The error numbers the two modules return; a driver may return others. */
  datatype Errno =
    | EIO | EAGAIN | EACCES | EALREADY | EMSGSIZE | EOVERFLOW | EINVAL
    | ENOENT | EBADMSG | EPERM | EBUSY | ENOSPC | ERANGE | Other(code: int)

  /** What an entry point returns: zero, one (a consumed control frame) or a negative error. */
  datatype Outcome = Done | Consumed | Failed(error: Errno)

  /** `f` lists, in increasing order, the places of `t` where the elements of `s` sit. */
  ghost predicate Embeds<T>(f: seq<nat>, s: seq<T>, t: seq<T>) {
    && |f| == |s|
    && (forall i :: 0 <= i < |f| ==> f[i] < |t| && t[f[i]] == s[i])
    && (forall i, j :: 0 <= i < j < |f| ==> f[i] < f[j])
  }

  /** `s` is obtained from `t` by deleting elements: no reordering and no repetition. */
  ghost predicate Subsequence<T>(s: seq<T>, t: seq<T>) {
    exists f: seq<nat> :: Embeds(f, s, t)
  }

  predicate Distinct<T(==)>(s: seq<T>) {
    forall i, j :: 0 <= i < j < |s| ==> s[i] != s[j]
  }
}
