/**
 * Byte layouts of the protected radio link: what is signed, what keys are derived
 * from, and what an encrypted frame authenticates.
 */
module Wire {
  import opened Prelude
  import opened ByteStrings

  const NONCE_BYTES := 16
  const MAC_BYTES := 32
  const TAG_BYTES := 16
  const AAD_BYTES := 8
  const DATA_HEADER := 12
  const HELLO_BYTES := 68
  const REPLY_BYTES := 84
  const SECURE_OVERHEAD := 32

  type Nonce = n: Bytes | |n| == 16 witness BigEndian(16, 0)
  type Key = k: Bytes | |k| == 32 witness BigEndian(32, 0)

  function ZeroNonce(): Nonce {
    BigEndian(16, 0)
  }

  function ZeroKey(): Key {
    BigEndian(32, 0)
  }

  const DATA: u8 := 0
  const HELLO: u8 := 1
  const REPLY: u8 := 2

  /** The CSP identifier of a packet. */
  datatype Id = Id(src: u16, dst: u16, sport: u8, dport: u8, pri: u8, flags: u8)

  /** A handshake message, as its sender meant it. */
  datatype Control =
    | Hello(src: u16, dst: u16, boot: Nonce, request: Nonce)
    | Reply(src: u16, dst: u16, boot: Nonce, request: Nonce, server: Nonce)

  /** A session key, named by everything it is derived from. */
  datatype SessionKey =
    SessionKey(master: Key, src: u16, dst: u16, boot: Nonce, request: Nonce, server: Nonce)

  /** put_header */
  function Header(id: Id): (s: Bytes)
    ensures |s| == AAD_BYTES
  {
    BigEndian(2, id.src) + BigEndian(2, id.dst) + [id.sport, id.dport, id.pri, id.flags]
  }

  /** The identifier control frames are signed under: the two addresses and zeros. */
  function ControlId(src: u16, dst: u16): Id {
    Id(src, dst, 0, 0, 0, 0)
  }

  /** frame_header */
  function FrameHeader(kind: u8): (s: Bytes)
    ensures |s| == 4
  {
    [0x4B, 0x52, 1, kind]
  }

  /** What a control frame carries before its MAC. */
  function ControlBody(m: Control): (s: Bytes)
    ensures |s| == if m.Hello? then HELLO_BYTES - MAC_BYTES else REPLY_BYTES - MAC_BYTES
  {
    match m
    case Hello(_, _, boot, request) => FrameHeader(HELLO) + boot + request
    case Reply(_, _, boot, request, server) => FrameHeader(REPLY) + boot + request + server
  }

  /** The bytes sign_control authenticates. */
  function MacInput(m: Control): (s: Bytes)
    ensures |s| == if m.Hello? then 44 else 60
  {
    Header(ControlId(m.src, m.dst)) + ControlBody(m)
  }

  /** "KFSW UHF session v1" with its terminating NUL. */
  function Label(): (s: Bytes)
    ensures |s| == 20
  {
    [0x4B, 0x46, 0x53, 0x57, 0x20, 0x55, 0x48, 0x46, 0x20, 0x73,
     0x65, 0x73, 0x73, 0x69, 0x6F, 0x6E, 0x20, 0x76, 0x31, 0]
  }

  /** The bytes derive_key runs the MAC over. */
  function KdfContext(k: SessionKey): (s: Bytes)
    ensures |s| == 72
  {
    Label() + (BigEndian(2, k.src) + BigEndian(2, k.dst)) + (k.boot + k.request + k.server)
  }

  /** The clear prefix of a data frame. */
  function DataPrefix(sequence: u64): (s: Bytes)
    ensures |s| == DATA_HEADER
  {
    FrameHeader(DATA) + BigEndian(8, sequence)
  }

  /** The AEAD nonce: sender address, then counter. */
  function AeadNonce(sender: u16, sequence: u64): (s: Bytes)
    ensures |s| == 12
  {
    BigEndian(4, sender) + BigEndian(8, sequence)
  }

  /** What a data frame authenticates besides its payload. */
  function Aad(id: Id, prefix: Bytes): Bytes {
    Header(id) + prefix
  }

  lemma BigEndianInjective(n: nat, x: nat, y: nat)
    requires x < Pow256(n) && y < Pow256(n) && BigEndian(n, x) == BigEndian(n, y)
    ensures x == y
  {
    ReadsBack(n, x);
    ReadsBack(n, y);
  }

  lemma HeaderInjective(i: Id, j: Id)
    requires Header(i) == Header(j)
    ensures i == j
  {
    Widths();
    SplitEqual(BigEndian(2, i.src) + BigEndian(2, i.dst), [i.sport, i.dport, i.pri, i.flags],
               BigEndian(2, j.src) + BigEndian(2, j.dst), [j.sport, j.dport, j.pri, j.flags]);
    AddressesInjective(i.src, i.dst, j.src, j.dst);
    assert [i.sport, i.dport, i.pri, i.flags][0] == [j.sport, j.dport, j.pri, j.flags][0];
    assert [i.sport, i.dport, i.pri, i.flags][1] == [j.sport, j.dport, j.pri, j.flags][1];
    assert [i.sport, i.dport, i.pri, i.flags][2] == [j.sport, j.dport, j.pri, j.flags][2];
    assert [i.sport, i.dport, i.pri, i.flags][3] == [j.sport, j.dport, j.pri, j.flags][3];
  }

  lemma AddressesInjective(a: u16, b: u16, c: u16, d: u16)
    requires BigEndian(2, a) + BigEndian(2, b) == BigEndian(2, c) + BigEndian(2, d)
    ensures a == c && b == d
  {
    Widths();
    SplitEqual(BigEndian(2, a), BigEndian(2, b), BigEndian(2, c), BigEndian(2, d));
    BigEndianInjective(2, a, c);
    BigEndianInjective(2, b, d);
  }

  /** The input of a MAC determines kind, direction and every nonce of the message. */
  lemma MacInputInjective(m: Control, n: Control)
    requires MacInput(m) == MacInput(n)
    ensures m == n
  {
    SplitEqual(Header(ControlId(m.src, m.dst)), ControlBody(m),
               Header(ControlId(n.src, n.dst)), ControlBody(n));
    HeaderInjective(ControlId(m.src, m.dst), ControlId(n.src, n.dst));
    ControlBodyInjective(m, n);
  }

  lemma ControlBodyInjective(m: Control, n: Control)
    requires m.src == n.src && m.dst == n.dst && ControlBody(m) == ControlBody(n)
    ensures m == n
  {
    var kind := if m.Hello? then HELLO else REPLY;
    assert |ControlBody(m)| == |ControlBody(n)|;
    if m.Hello? {
      SplitEqual(FrameHeader(HELLO) + m.boot, m.request, FrameHeader(HELLO) + n.boot, n.request);
    } else {
      SplitEqual(FrameHeader(REPLY) + m.boot + m.request, m.server,
                 FrameHeader(REPLY) + n.boot + n.request, n.server);
      SplitEqual(FrameHeader(REPLY) + m.boot, m.request, FrameHeader(REPLY) + n.boot, n.request);
    }
    SplitEqual(FrameHeader(kind), m.boot, FrameHeader(kind), n.boot);
  }

  /** The input of a key derivation determines direction and all three nonces. */
  lemma KdfContextInjective(k: SessionKey, l: SessionKey)
    requires KdfContext(k) == KdfContext(l) && k.master == l.master
    ensures k == l
  {
    SplitEqual(Label() + (BigEndian(2, k.src) + BigEndian(2, k.dst)), k.boot + k.request + k.server,
               Label() + (BigEndian(2, l.src) + BigEndian(2, l.dst)), l.boot + l.request + l.server);
    SplitEqual(Label(), BigEndian(2, k.src) + BigEndian(2, k.dst),
               Label(), BigEndian(2, l.src) + BigEndian(2, l.dst));
    AddressesInjective(k.src, k.dst, l.src, l.dst);
    SplitEqual(k.boot + k.request, k.server, l.boot + l.request, l.server);
    SplitEqual(k.boot, k.request, l.boot, l.request);
  }

  /** The two things the master key authenticates: a handshake message, and a key derivation. */
  datatype MacUse = Signing(message: Control) | Deriving(key: SessionKey)

  function InputOf(use: MacUse): Bytes {
    match use
    case Signing(m) => MacInput(m)
    case Deriving(k) => KdfContext(k)
  }

  /**
   * Separation of the uses of one master key: two inputs of the MAC are the same bytes exactly
   * when they are the same use, so a tag fixes kind, direction and all nonces, and a handshake
   * MAC is never a session key.
   */
  lemma MacInputsSeparate(u: MacUse, v: MacUse)
    requires u.Deriving? && v.Deriving? ==> u.key.master == v.key.master
    ensures InputOf(u) == InputOf(v) <==> u == v
  {
    if InputOf(u) == InputOf(v) {
      assert |InputOf(u)| == |InputOf(v)|;
      match u
      case Signing(m) => MacInputInjective(m, v.message);
      case Deriving(k) => KdfContextInjective(k, v.key);
    }
  }

  /** Nonce and additional data of a frame determine sender, identifier and counter. */
  lemma FrameBindingInjective(a: u16, i: Id, s: u64, b: u16, j: Id, t: u64)
    requires AeadNonce(a, s) == AeadNonce(b, t) && Aad(i, DataPrefix(s)) == Aad(j, DataPrefix(t))
    ensures a == b && i == j && s == t
  {
    AeadNonceInjective(a, s, b, t);
    SplitEqual(Header(i), DataPrefix(s), Header(j), DataPrefix(t));
    HeaderInjective(i, j);
  }

  lemma AeadNonceInjective(a: u16, s: u64, b: u16, t: u64)
    requires AeadNonce(a, s) == AeadNonce(b, t)
    ensures a == b && s == t
  {
    Widths();
    SplitEqual(BigEndian(4, a), BigEndian(8, s), BigEndian(4, b), BigEndian(8, t));
    BigEndianInjective(4, a, b);
    BigEndianInjective(8, s, t);
  }
}
