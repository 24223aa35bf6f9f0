/**
 * The bytes on the wire and in the settings file, place by place: every integer most
 * significant byte first, every text in ASCII.
 */
module Layout {
  import opened Prelude
  import opened ByteStrings
  import opened Wire
  import opened Primitives
  import opened Session
  import opened Handshake
  import opened Delivery
  import opened Store

  /** Four bytes as an integer, most significant first. */
  function Read32(b: Bytes): nat
    requires |b| == 4
  {
    0x100_0000 * (b[0] as int) + 0x1_0000 * (b[1] as int) + 0x100 * (b[2] as int) + b[3] as int
  }

  function Read64(b: Bytes): nat
    requires |b| == 8
  {
    0x1_0000_0000 * Read32(b[..4]) + Read32(b[4..])
  }

  lemma ReadPrefix(b: Bytes, k: nat)
    requires k < |b|
    ensures FromBigEndian(b[..k + 1]) == 256 * FromBigEndian(b[..k]) + b[k]
  {
    assert b[..k + 1][..k] == b[..k];
  }

  /** Four bytes more. */
  lemma ReadFour(b: Bytes, k: nat)
    requires k + 4 <= |b|
    ensures FromBigEndian(b[..k + 4]) == 0x1_0000_0000 * FromBigEndian(b[..k]) + Read32(b[k..k + 4])
  {
    ReadPrefix(b, k);
    ReadPrefix(b, k + 1);
    ReadPrefix(b, k + 2);
    ReadPrefix(b, k + 3);
  }

  lemma Written32(x: u32)
    ensures Read32(BigEndian(4, x)) == x
  {
    var b := BigEndian(4, x);
    Widths();
    ReadsBack(4, x);
    ReadFour(b, 0);
    assert b[..4] == b && b[0..4] == b;
  }

  lemma Written64(x: u64)
    ensures Read64(BigEndian(8, x)) == x
  {
    var b := BigEndian(8, x);
    Widths();
    ReadsBack(8, x);
    ReadFour(b, 0);
    ReadFour(b, 4);
    assert b[..8] == b && b[0..4] == b[..4] && b[4..8] == b[4..];
  }

  /** The characters of a text. */
  function Ascii(text: string): Bytes
    requires forall i :: 0 <= i < |text| ==> text[i] < 128 as char
  {
    seq(|text|, i requires 0 <= i < |text| => text[i] as int)
  }

  function Be16(x: u16): Bytes {
    [x / 256, x % 256]
  }

  lemma Be16Is(x: u16)
    ensures BigEndian(2, x) == Be16(x)
  {
    assert BigEndian(2, x) == BigEndian(1, x / 256) + [x % 256];
    assert BigEndian(1, x / 256) == BigEndian(0, x / 256 / 256) + [x / 256 % 256];
  }

  lemma Be32Is(x: u16)
    ensures BigEndian(4, x) == [0, 0] + Be16(x)
  {
    assert BigEndian(4, x) == BigEndian(3, x / 256) + [x % 256];
    assert BigEndian(3, x / 256) == BigEndian(2, x / 256 / 256) + [x / 256 % 256];
    Be16Is(0);
  }

  /** What put_header writes for an identifier. */
  lemma HeaderLayout(id: Id)
    ensures Header(id) == [id.src / 256, id.src % 256, id.dst / 256, id.dst % 256, id.sport, id.dport, id.pri, id.flags]
  {
    Be16Is(id.src);
    Be16Is(id.dst);
  }

  /** A handshake frame, and what its MAC is computed over: the addresses, four zeros, and all before the MAC. */
  lemma HandshakeLayout(c: Crypto, master: Key, m: Control)
    ensures
      var f := c.ControlFrame(master, m);
      && |f| == (if m.Hello? then 68 else 84)
      && f[..4] == Ascii("KR") + [1, if m.Hello? then 1 else 2]
      && f[4..20] == m.boot && f[20..36] == m.request && (m.Reply? ==> f[36..52] == m.server)
      && f[|f| - 32..] == c.mac(master, Be16(m.src) + Be16(m.dst) + [0, 0, 0, 0] + f[..|f| - 32])
  {
    FrameParts(c, master, m);
    HeaderLayout(ControlId(m.src, m.dst));
    assert Header(ControlId(m.src, m.dst)) == Be16(m.src) + Be16(m.dst) + [0, 0, 0, 0];
  }

  /** What a session key is derived from: the label with its NUL, both addresses, and the three nonces. */
  lemma DerivationLayout(k: SessionKey)
    ensures KdfContext(k) ==
            Ascii("KFSW UHF session v1") + [0] + Be16(k.src) + Be16(k.dst) + k.boot + k.request + k.server
    ensures |KdfContext(k)| == 72
  {
    Be16Is(k.src);
    Be16Is(k.dst);
    assert Label() == Ascii("KFSW UHF session v1") + [0];
  }

  /**
   * A data frame: twelve bytes in the clear, the counter in the last eight of them, then
   * ciphertext and tag, under the sender's address and the counter as nonce, and with the
   * identifier and the clear bytes authenticated.
   */
  lemma DataLayout(c: Crypto, sender: u16, e: Seal)
    ensures
      var f := WireFrame(c, sender, e);
      && |f| >= 12
      && f[..4] == Ascii("KR") + [1, 0]
      && Read64(f[4..12]) == e.sequence
      && f[12..] == c.seal(c.mac(e.key.master, KdfContext(e.key)), [0, 0] + Be16(sender) + f[4..12],
                           Header(e.id) + f[..12], e.payload)
  {
    var f := WireFrame(c, sender, e);
    var prefix := DataPrefix(e.sequence);
    LastField(prefix, SealBytes(c, sender, e));
    FieldOfPrefix(prefix, SealBytes(c, sender, e), 4, 12);
    FieldOfPrefix(prefix, SealBytes(c, sender, e), 0, 4);
    LastField(FrameHeader(DATA), BigEndian(8, e.sequence));
    Be32Is(sender);
    Written64(e.sequence);
    assert f[4..12] == BigEndian(8, e.sequence) && f[..12] == prefix;
  }

  /** The settings record: "KRU1", one bit for each switch, three zeros, the key, and the checksum of all that. */
  lemma RecordLayout(crc: Crc, s: Settings)
    ensures
      var r := Record(crc, s);
      && |r| == 44 && r[..4] == Ascii("KRU1")
      && r[4] == (if s.enabled then 1 else 0) + (if s.tx then 2 else 0) +
                 (if s.rx then 4 else 0) + (if s.keySet then 8 else 0)
      && r[5..8] == [0, 0, 0] && r[8..40] == s.key
      && Read32(r[40..]) == crc(r[..40])
  {
    var r, body := Record(crc, s), RecordBody(s);
    LastField(body, BigEndian(4, crc(body)));
    FieldOfPrefix(body, BigEndian(4, crc(body)), 0, 4);
    FieldOfPrefix(body, BigEndian(4, crc(body)), 5, 8);
    FieldOfPrefix(body, BigEndian(4, crc(body)), 8, 40);
    Written32(crc(body));
  }

  /** What a load answers when the file system fails, or there is nothing. */
  lemma LoadAnswers(crc: Crc, file: Option<Bytes>, env: LoadEnv)
    requires file.Some? ==> env.openError != Some(ENOENT)
    ensures
      var found := LoadFile(crc, file, env);
      if file.None? then found == NotFound
      else if env.openError.Some? then found == LoadFailed(env.openError.value)
      else if !env.readOk || !env.closeOk then found == LoadFailed(EBADMSG)
      else found == LoadFile(crc, file, HEALTHY)
  {
  }

  /** What a save answers: the error of the first operation that fails, and nothing is done after it. */
  lemma SaveAnswers(crc: Crc, d: Disk, s: Settings, env: SaveEnv)
    ensures
      var record := Record(crc, s);
      var trace := SaveTrace(d, record, env);
      SaveOutcome(record, env) ==
      if env.openError.Some? then Failed(env.openError.value)
      else if env.written != 44 then Failed(EIO)
      else if env.syncError.Some? then Failed(env.syncError.value)
      else if env.closeError.Some? then Failed(env.closeError.value)
      else if env.renameError.Some? then Failed(env.renameError.value) else Done
    ensures
      var trace := SaveTrace(d, Record(crc, s), env);
      |trace| == if env.openError.Some? then 0
                 else if env.written != 44 || env.syncError.Some? then 2
                 else if env.closeError.Some? || env.renameError.Some? then 3 else 4
  {
  }
}
