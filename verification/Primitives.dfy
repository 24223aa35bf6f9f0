/**
 * The primitives the radio calls: HMAC-SHA-256 and AES-256-GCM, as functions on
 * bytes. Only what every correct implementation satisfies is assumed of them here;
 * that nobody without the key can produce their outputs is a property of runs and is
 * stated with the link, in module Link.
 */
module Primitives {
  import opened Prelude
  import opened ByteStrings
  import opened Wire

  datatype Crypto = Crypto(
    mac: (Bytes, Bytes) -> Key,
    seal: (Bytes, Bytes, Bytes, Bytes) -> Bytes,
    open: (Bytes, Bytes, Bytes, Bytes) -> Option<Bytes>)
  {
    /** A 16-byte tag, decryption of what was encrypted, and GCM being deterministic. */
    ghost predicate Lawful() {
      && (forall k, n, a, p :: |seal(k, n, a, p)| == |p| + TAG_BYTES)
      && (forall k, n, a, p :: open(k, n, a, seal(k, n, a, p)) == Some(p))
      && (forall k, n, a, s :: open(k, n, a, s).Some? ==> s == seal(k, n, a, open(k, n, a, s).value))
    }

    /** The AES key a session key stands for. */
    function Material(k: SessionKey): Key {
      mac(k.master, KdfContext(k))
    }

    /** The frame a control message travels in. */
    function ControlFrame(master: Key, m: Control): Bytes {
      ControlBody(m) + mac(master, MacInput(m))
    }
  }
}
