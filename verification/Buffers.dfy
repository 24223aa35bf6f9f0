/** The two library calls that fill byte buffers in place. */
module Buffers {
  import opened Prelude
  import opened ByteStrings

  /** memcpy into a buffer. */
  method Put(a: array<u8>, at: nat, bytes: Bytes)
    requires at + |bytes| <= a.Length
    modifies a
    ensures a[..] == old(a[..at]) + bytes + old(a[at + |bytes|..])
  {
    forall i | 0 <= i < |bytes| {
      a[at + i] := bytes[i];
    }
  }

  /** radio_crypto_clear */
  method Wipe(a: array<u8>)
    modifies a
    ensures forall i :: 0 <= i < a.Length ==> a[i] == 0
  {
    var left := a.Length;
    while left != 0
      invariant 0 <= left <= a.Length
      invariant forall i :: 0 <= i < a.Length - left ==> a[i] == 0
    {
      a[a.Length - left] := 0;
      left := left - 1;
    }
  }
}
