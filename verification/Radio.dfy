/**
 * radio_crypto.c in its own shape: static state updated in place, frames assembled in
 * byte buffers, packets rewritten where they lie. Every method is proved to leave the
 * state, the packet and the frames sent that the functions of module Session prescribe.
 */
module Radio {
  import opened Prelude
  import opened ByteStrings
  import opened Buffers
  import opened Wire
  import opened Primitives
  import opened Session

  /** A CSP packet in its fixed buffer. */
  class PacketBuffer {
    var id: Id
    var length: nat
    const data: array<u8>

    ghost predicate Valid()
      reads this
    {
      length <= data.Length
    }

    ghost function Value(): Packet
      reads this, data
      requires Valid()
    {
      Packet(id, data[..length])
    }

    constructor (id: Id, size: nat)
      ensures Valid() && fresh(data) && data.Length == size && this.id == id && length == 0
    {
      this.id := id;
      length := 0;
      data := new u8[size](_ => 0);
    }
  }

  /** Three nonces, one after the other, to the end of a buffer. */
  method PutNonces(a: array<u8>, at: nat, boot: Nonce, request: Nonce, server: Nonce)
    requires at + 48 == a.Length
    modifies a
    ensures a[..at] == old(a[..at])
    ensures a[at..] == boot + request + server
  {
    Put(a, at, boot);
    Put(a, at + NONCE_BYTES, request);
    Put(a, at + 2 * NONCE_BYTES, server);
  }

  /** The frames that carry a list of signed messages. */
  function Frames(c: Crypto, signed: seq<Signed>): seq<Bytes> {
    seq(|signed|, i requires 0 <= i < |signed| => c.ControlFrame(signed[i].master, signed[i].control))
  }

  lemma FramesAppend(c: Crypto, s: seq<Signed>, t: seq<Signed>)
    ensures Frames(c, s + t) == Frames(c, s) + Frames(c, t)
  {
  }

  /** The UART codec: it takes control frames, and keeps them in the order in which it got them. */
  class Uart {
    var sent: seq<Bytes>

    constructor ()
      ensures sent == []
    {
      sent := [];
    }
  }

  /** sys_get_be64 */
  function ReadSequence(bytes: Bytes): u64
    requires |bytes| == 8
  {
    WritesBack(bytes);
    Widths();
    FromBigEndian(bytes)
  }

  /** What the crypto library keeps under a key identifier: the AES key, and where it came from. */
  datatype KeySlot = KeySlot(origin: SessionKey, material: Key)

  class Radio {
    const crypto: Crypto
    const config: Config
    const scratch: array<u8>
    const uart: Uart

    var settings: Settings
    var status: Status
    var master: Option<Key>
    var txKey: Option<KeySlot>
    var rxKey: Option<KeySlot>
    var bootNonce: Nonce
    var requestNonce: Nonce
    var peerBoot: Nonce
    var peerRequest: Nonce
    var serverNonce: Nonce
    var txSequence: u64
    var rxSequence: u64
    var lastRequest: int
    var lastHello: int
    var initialized: bool
    var pending: bool

    ghost predicate Valid()
      reads this
    {
      && config.Valid()
      && scratch.Length == config.bufferSize
      && Derived(txKey) && Derived(rxKey)
    }

    /** The crypto library holds, under an identifier, the key derived from its origin. */
    ghost predicate Derived(key: Option<KeySlot>) {
      key.Some? ==> key.value.material == crypto.Material(key.value.origin)
    }

    ghost function Origin(key: Option<KeySlot>): Option<SessionKey> {
      if key.Some? then Some(key.value.origin) else None
    }

    ghost function State(): Node
      reads this
    {
      Node(config, settings, status, master, Origin(txKey), Origin(rxKey), bootNonce, requestNonce,
           peerBoot, peerRequest, serverNonce, txSequence, rxSequence, lastRequest, lastHello, initialized, pending)
    }

    constructor (crypto: Crypto, config: Config, uart: Uart)
      requires config.Valid()
      ensures State() == PowerUp(config)
      ensures Valid() && fresh(scratch) && this.crypto == crypto && this.uart == uart
    {
      this.uart := uart;
      this.crypto := crypto;
      this.config := config;
      scratch := new u8[config.bufferSize](_ => 0);
      settings := DefaultSettings();
      status := Status(0, 0, 0, None);
      master, txKey, rxKey := None, None, None;
      bootNonce, requestNonce := ZeroNonce(), ZeroNonce();
      peerBoot, peerRequest, serverNonce := ZeroNonce(), ZeroNonce(), ZeroNonce();
      txSequence, rxSequence := 0, 0;
      lastRequest, lastHello := -RETRY_MS, -RETRY_MS;
      initialized, pending := false, false;
    }

    /** psa_destroy_key on both session keys. */
    method DestroyKeys()
      modifies `txKey, `rxKey
      ensures txKey.None? && rxKey.None?
    {
      txKey, rxKey := None, None;
    }

    /** Open both rate gates. */
    method OpenGates()
      modifies `lastRequest, `lastHello
      ensures lastRequest == lastHello == -RETRY_MS
    {
      lastRequest, lastHello := -RETRY_MS, -RETRY_MS;
    }

    /** clear_sessions */
    method ClearSessionState()
      modifies `txKey, `rxKey, `txSequence, `rxSequence, `pending, `lastRequest, `lastHello
      requires Valid()
      ensures State() == ClearSessions(old(State()))
      ensures Valid()
    {
      DestroyKeys();
      txSequence, rxSequence := 0, 0;
      pending := false;
      OpenGates();
    }

    /** import_master */
    method ImportMasterKey(importOk: bool) returns (outcome: Outcome)
      requires Valid()
      modifies this
      ensures State() == ImportMaster(old(State()), importOk)
      ensures outcome == if importOk then Done else Failed(EIO)
      ensures Valid()
    {
      ClearSessionState();
      master := None;
      if !importOk {
        return Failed(EIO);
      }
      master := Some(settings.key);
      outcome := Done;
    }

    /** sign_control with verify false: the MAC, if it can be computed, goes into the last bytes of the frame. */
    method Sign(data: array<u8>, computes: bool, ghost m: Control) returns (outcome: Outcome)
      requires master.Some?
      requires m.src == config.local && m.dst == config.peer
      requires data.Length >= MAC_BYTES && data[..data.Length - MAC_BYTES] == ControlBody(m)
      modifies data
      ensures data[..] == if computes then crypto.ControlFrame(master.value, m) else old(data[..])
      ensures outcome == if computes then Done else Failed(EACCES)
    {
      if !computes {
        return Failed(EACCES);
      }
      var size := data.Length - MAC_BYTES;
      var input := new u8[AAD_BYTES + size](_ => 0);
      Put(input, 0, Header(ControlId(config.local, config.peer)));
      Put(input, AAD_BYTES, data[..size]);
      assert input[..] == MacInput(m);
      Put(data, size, crypto.mac(master.value, input[..]));
      outcome := Done;
    }

    /** sign_control with verify true. */
    method Verify(data: array<u8>, size: nat) returns (valid: bool)
      requires master.Some? && MAC_BYTES <= size <= data.Length
      ensures valid == Verifies(crypto, State(), data[..size])
    {
      var input := new u8[AAD_BYTES + size - MAC_BYTES](_ => 0);
      Put(input, 0, Header(ControlId(config.peer, config.local)));
      Put(input, AAD_BYTES, data[..size - MAC_BYTES]);
      assert input[..] == Header(ControlId(config.peer, config.local)) + data[..size - MAC_BYTES];
      assert data[..size][..size - MAC_BYTES] == data[..size - MAC_BYTES];
      assert data[..size][size - MAC_BYTES..] == data[size - MAC_BYTES..size];
      valid := crypto.mac(master.value, input[..]) == data[size - MAC_BYTES..size];
    }

    /** The signed HELLO connect_locked assembles. */
    method BuildHello(computes: bool) returns (outcome: Outcome, frame: Bytes)
      requires master.Some?
      ensures outcome == if computes then Done else Failed(EACCES)
      ensures computes ==>
                frame == crypto.ControlFrame(master.value, Hello(config.local, config.peer, bootNonce, requestNonce))
    {
      var hello := new u8[HELLO_BYTES](_ => 0);
      Put(hello, 0, FrameHeader(HELLO));
      Put(hello, 4, bootNonce);
      Put(hello, 4 + NONCE_BYTES, requestNonce);
      ghost var m := Hello(config.local, config.peer, bootNonce, requestNonce);
      assert hello[..HELLO_BYTES - MAC_BYTES] == ControlBody(m);
      outcome := Sign(hello, computes, m);
      frame := hello[..];
    }

    /** The signed REPLY hello_received assembles. */
    method BuildReply(client: Nonce, request: Nonce, computes: bool) returns (outcome: Outcome, frame: Bytes)
      requires master.Some?
      ensures outcome == if computes then Done else Failed(EACCES)
      ensures computes ==>
                frame == crypto.ControlFrame(master.value,
                                             Reply(config.local, config.peer, client, request, serverNonce))
    {
      var reply := new u8[REPLY_BYTES](_ => 0);
      Put(reply, 0, FrameHeader(REPLY));
      Put(reply, 4, client);
      Put(reply, 4 + NONCE_BYTES, request);
      Put(reply, 4 + 2 * NONCE_BYTES, serverNonce);
      ghost var m := Reply(config.local, config.peer, client, request, serverNonce);
      assert reply[..REPLY_BYTES - MAC_BYTES] == ControlBody(m);
      outcome := Sign(reply, computes, m);
      frame := reply[..];
    }

    /** The key material derive_key computes: a MAC over label, direction and nonces. */
    method DeriveMaterial(boot: Nonce, request: Nonce, server: Nonce, transmit: bool) returns (material: Key)
      requires master.Some?
      ensures material == crypto.Material(DirectionalKey(State(), boot, request, server, transmit))
    {
      var source := if transmit then config.local else config.peer;
      var target := if transmit then config.peer else config.local;
      var context := new u8[72](_ => 0);
      Put(context, 0, Label());
      Put(context, |Label()|, BigEndian(2, source));
      Put(context, |Label()| + 2, BigEndian(2, target));
      assert context[..24] == Label() + (BigEndian(2, source) + BigEndian(2, target));
      PutNonces(context, 24, boot, request, server);
      ghost var k := DirectionalKey(State(), boot, request, server, transmit);
      assert context[..] == KdfContext(k) by {
        assert context[..] == context[..24] + context[24..];
      }
      material := crypto.mac(master.value, context[..]);
    }

    /** derive_key */
    method DeriveKey(boot: Nonce, request: Nonce, server: Nonce, transmit: bool, derives: bool)
      returns (outcome: Outcome)
      requires Valid() && master.Some?
      modifies this
      ensures
        var n := old(State());
        var k := Some(DirectionalKey(n, boot, request, server, transmit));
        State() == if !derives then n
                   else if transmit then n.(txKey := k, txSequence := 0)
                   else n.(rxKey := k, rxSequence := 0)
      ensures outcome == if derives then Done else Failed(EIO)
      ensures Valid()
    {
      var material := DeriveMaterial(boot, request, server, transmit);
      if !derives {
        return Failed(EIO);
      }
      if transmit {
        txKey := Some(KeySlot(SessionKey(master.value, config.local, config.peer, boot, request, server), material));
        txSequence := 0;
      } else {
        rxKey := Some(KeySlot(SessionKey(master.value, config.peer, config.local, boot, request, server), material));
        rxSequence := 0;
      }
      outcome := Done;
    }

    /** Sign the request that the nonces ask for; if that works, note that a reply is awaited, and send it. */
    method SendHello(computes: bool, sendError: Option<Errno>) returns (outcome: Outcome)
      requires Valid() && master.Some?
      modifies `pending, uart
      ensures State() == if computes then old(State()).(pending := true) else old(State())
      ensures outcome == if computes then SendOutcome(sendError) else Failed(EACCES)
      ensures uart.sent == old(uart.sent) +
              if computes
              then Frames(crypto, [Signed(master.value, Hello(config.local, config.peer, bootNonce, requestNonce))])
              else []
      ensures Valid()
    {
      var hello;
      outcome, hello := BuildHello(computes);
      if outcome == Done {
        pending := true;
        uart.sent := uart.sent + [hello];
        outcome := SendOutcome(sendError);
      }
    }

    /** connect_locked */
    method ConnectLocked(env: ConnectEnv) returns (outcome: Outcome)
      requires Valid()
      modifies this, uart
      ensures State() == Session.ConnectLocked(old(State()), env).node
      ensures outcome == Session.ConnectLocked(old(State()), env).outcome
      ensures uart.sent == old(uart.sent) + Frames(crypto, Session.ConnectLocked(old(State()), env).signed)
      ensures Valid()
    {
      if master.None? || !settings.enabled {
        return Failed(EACCES);
      }
      if env.now - lastRequest < RETRY_MS {
        return Failed(EAGAIN);
      }
      lastRequest := env.now;
      if env.draw.DrawFailed? {
        requestNonce := env.draw.left;
        return Failed(EIO);
      }
      requestNonce := env.draw.nonce;
      outcome := SendHello(env.signs, env.sendError);
    }

    /** kfsw_radio_uhf_crypto_connect */
    method Connect(env: ConnectEnv) returns (outcome: Outcome)
      requires Valid()
      modifies this, uart
      ensures State() == Session.Connect(old(State()), env).node
      ensures outcome == Session.Connect(old(State()), env).outcome
      ensures uart.sent == old(uart.sent) + Frames(crypto, Session.Connect(old(State()), env).signed)
      ensures Valid()
    {
      outcome := ConnectLocked(env);
      status := status.(lastError := ErrorOf(outcome));
    }

    /** Sign the answer to a HELLO and send it. */
    method SendReply(client: Nonce, request: Nonce, signs: bool, sendError: Option<Errno>) returns (outcome: Outcome)
      requires master.Some?
      modifies uart
      ensures outcome == if signs then SendOutcome(sendError) else Failed(EACCES)
      ensures uart.sent == old(uart.sent) + Frames(crypto, ReplySigned(State(), client, request, signs))
    {
      var frame;
      outcome, frame := BuildReply(client, request, signs);
      if outcome == Done {
        uart.sent := uart.sent + [frame];
        outcome := SendOutcome(sendError);
      }
    }

    /** Drop the outbound session and ask for a new one. */
    method StartOver(env: ConnectEnv)
      requires Valid()
      modifies this, uart
      ensures State() == Session.ConnectLocked(old(State()).(txKey := None), env).node
      ensures uart.sent ==
              old(uart.sent) + Frames(crypto, Session.ConnectLocked(old(State()).(txKey := None), env).signed)
      ensures Valid()
    {
      txKey := None;
      var _ := ConnectLocked(env);
    }

    /** hello_received, from the point where the session to answer for is in place. */
    method AnswerHello(client: Nonce, request: Nonce, newBoot: bool, env: HelloEnv, ghost created: seq<SessionKey>)
      returns (outcome: Outcome)
      requires Valid() && master.Some?
      modifies this, uart
      ensures State() == Answer(old(State()), client, request, newBoot, env, created).node
      ensures outcome == Answer(old(State()), client, request, newBoot, env, created).outcome
      ensures uart.sent ==
              old(uart.sent) + Frames(crypto, Answer(old(State()), client, request, newBoot, env, created).signed)
      ensures Valid()
    {
      ghost var n := State();
      outcome := SendReply(client, request, env.signs, env.sendError);
      if newBoot && !pending {
        StartOver(env.connect);
        FramesAppend(crypto, ReplySigned(n, client, request, env.signs),
                     Session.ConnectLocked(n.(txKey := None), env.connect).signed);
      }
    }

    /** A new receive key for a HELLO, and the nonces that name it. */
    method InstallSession(client: Nonce, request: Nonce, server: Nonce, derives: bool) returns (outcome: Outcome)
      requires Valid() && master.Some?
      modifies this
      ensures State() == if derives then InstallReceive(old(State()), client, request, server) else old(State())
      ensures outcome == if derives then Done else Failed(EIO)
      ensures Valid()
    {
      outcome := DeriveKey(client, request, server, false, derives);
      if outcome == Done {
        peerBoot, peerRequest, serverNonce := client, request, server;
      }
    }

    /** hello_received */
    method HelloReceived(client: Nonce, request: Nonce, env: HelloEnv) returns (outcome: Outcome)
      requires Valid() && master.Some?
      modifies this, uart
      ensures State() == Session.HelloReceived(old(State()), client, request, env).node
      ensures outcome == Session.HelloReceived(old(State()), client, request, env).outcome
      ensures uart.sent ==
              old(uart.sent) + Frames(crypto, Session.HelloReceived(old(State()), client, request, env).signed)
      ensures Valid()
    {
      ghost var n := State();
      var newBoot := rxKey.None? || peerBoot != client;
      var duplicate := !newBoot && peerRequest == request;
      if !duplicate && env.now - lastHello < RETRY_MS {
        return Failed(EAGAIN);
      }
      lastHello := env.now;
      if duplicate {
        outcome := AnswerHello(client, request, newBoot, env, []);
        return;
      }
      if env.draw.DrawFailed? {
        return Failed(EIO);
      }
      outcome := InstallSession(client, request, env.draw.nonce, env.derives);
      if outcome == Done {
        outcome := AnswerHello(client, request, newBoot, env,
                               [DirectionalKey(n, client, request, env.draw.nonce, false)]);
      }
    }

    /** control_received */
    method ControlReceived(packet: PacketBuffer, env: DecodeEnv) returns (outcome: Outcome)
      requires Valid() && packet.Valid() && IsControl(packet.Value().data)
      modifies this, uart
      ensures State() == Session.ControlReceived(crypto, old(State()), old(packet.Value()), env).node
      ensures outcome == Session.ControlReceived(crypto, old(State()), old(packet.Value()), env).outcome
      ensures uart.sent == old(uart.sent) +
              Frames(crypto, Session.ControlReceived(crypto, old(State()), old(packet.Value()), env).signed)
      ensures Valid()
    {
      ghost var n, p := State(), packet.Value();
      var expected := if packet.data[3] == HELLO then HELLO_BYTES else REPLY_BYTES;
      if packet.length != expected || packet.id.src != config.peer || packet.id.dst != config.local ||
         packet.id.sport != 0 || packet.id.dport != 0 || packet.id.flags != 0 || packet.id.pri != 0 ||
         master.None? || !settings.enabled
      {
        return Failed(EACCES);
      }
      assert ControlAdmitted(n, p);
      var valid := Verify(packet.data, expected);
      if !env.verifies || !valid {
        return Failed(EACCES);
      }
      var boot: Nonce, request: Nonce := packet.data[4..20], packet.data[20..36];
      assert boot == p.data[4..20] && request == p.data[20..36];
      if packet.data[3] == HELLO {
        outcome := HelloReceived(boot, request, env.hello);
        return;
      }
      var server: Nonce := packet.data[36..52];
      assert server == p.data[36..52];
      outcome := ReplyReceived(boot, request, server, env.derives);
    }

    /** The end of control_received: a REPLY to the pending request installs the send key. */
    method ReplyReceived(boot: Nonce, request: Nonce, server: Nonce, derives: bool) returns (outcome: Outcome)
      requires Valid() && master.Some?
      modifies this
      ensures State() == Session.ReplyReceived(old(State()), boot, request, server, derives).node
      ensures outcome == Session.ReplyReceived(old(State()), boot, request, server, derives).outcome
      ensures Valid()
    {
      if !pending || boot != bootNonce || request != requestNonce {
        return Failed(EALREADY);
      }
      outcome := DeriveKey(bootNonce, requestNonce, server, true, derives);
      if outcome == Done {
        pending := false;
      }
    }

    /** The associated data of a data frame: the identifier, then the frame's clear prefix. */
    method BuildAad(id: Id, prefix: Bytes) returns (aad: Bytes)
      requires |prefix| == DATA_HEADER
      ensures aad == Aad(id, prefix)
    {
      var buffer := new u8[AAD_BYTES + DATA_HEADER](_ => 0);
      Put(buffer, 0, Header(id));
      Put(buffer, AAD_BYTES, prefix);
      aad := buffer[..];
    }

    /** The AEAD nonce of a frame. */
    method BuildNonce(sender: u16, sequence: u64) returns (nonce: Bytes)
      ensures nonce == AeadNonce(sender, sequence)
    {
      var buffer := new u8[12](_ => 0);
      Put(buffer, 0, BigEndian(4, sender));
      Put(buffer, 4, BigEndian(8, sequence));
      nonce := buffer[..];
    }

    /** Seal a packet into scratch under the send key, and say how long the frame is. */
    method SealIntoScratch(packet: PacketBuffer, sequence: u64) returns (length: nat)
      requires Valid() && packet.Valid() && packet.data != scratch && txKey.Some? && crypto.Lawful()
      requires packet.length + SECURE_OVERHEAD <= config.bufferSize
      modifies scratch
      ensures length == packet.length + 28
      ensures length <= scratch.Length
      ensures scratch[..length] ==
              DataPrefix(sequence) +
              SealBytes(crypto, config.local,
                        Seal(txKey.value.origin, sequence, packet.id, packet.Value().data, true))
    {
      Put(scratch, 0, DataPrefix(sequence));
      var aad := BuildAad(packet.id, scratch[..DATA_HEADER]);
      assert scratch[..DATA_HEADER] == DataPrefix(sequence);
      var nonce := BuildNonce(config.local, sequence);
      var sealed := crypto.seal(txKey.value.material, nonce, aad, packet.data[..packet.length]);
      Put(scratch, DATA_HEADER, sealed);
      length := DATA_HEADER + |sealed|;
    }

    /** encode up to its common exit. */
    method Protect(packet: PacketBuffer, env: EncodeEnv) returns (outcome: Outcome)
      requires Valid() && packet.Valid() && packet.data != scratch && crypto.Lawful()
      requires packet.data.Length == config.bufferSize
      modifies this, uart, scratch, packet, packet.data
      ensures State() == Session.Protect(crypto, old(State()), old(packet.Value()), env).node
      ensures outcome == Session.Protect(crypto, old(State()), old(packet.Value()), env).outcome
      ensures packet.Valid() && packet.id == old(packet.id)
      ensures packet.Value().data == Session.Protect(crypto, old(State()), old(packet.Value()), env).data
      ensures uart.sent == old(uart.sent) +
              Frames(crypto, Session.Protect(crypto, old(State()), old(packet.Value()), env).signed)
      ensures Valid()
    {
      if !settings.enabled || !settings.tx {
        return Done;
      }
      if txKey.None? {
        var _ := ConnectLocked(env.connect);
        return Failed(EAGAIN);
      }
      if packet.length > config.payloadMax {
        return Failed(EMSGSIZE);
      }
      if txSequence == U64_MAX {
        return Failed(EOVERFLOW);
      }
      txSequence := txSequence + 1;
      if !env.seals {
        return Failed(EIO);
      }
      var length := SealIntoScratch(packet, txSequence);
      Put(packet.data, 0, scratch[..length]);
      packet.length := length;
      outcome := Done;
    }

    /** The codec's encode: on success the packet is rewritten as a data frame. */
    method Encode(packet: PacketBuffer, env: EncodeEnv) returns (outcome: Outcome)
      requires Valid() && packet.Valid() && packet.data != scratch && crypto.Lawful()
      requires packet.data.Length == config.bufferSize
      modifies this, uart, scratch, packet, packet.data
      ensures State() == Session.Encode(crypto, old(State()), old(packet.Value()), env).node
      ensures outcome == Session.Encode(crypto, old(State()), old(packet.Value()), env).outcome
      ensures packet.Valid() && packet.id == old(packet.id)
      ensures packet.Value().data == Session.Encode(crypto, old(State()), old(packet.Value()), env).data
      ensures uart.sent == old(uart.sent) +
              Frames(crypto, Session.Encode(crypto, old(State()), old(packet.Value()), env).signed)
      ensures Valid()
    {
      outcome := Protect(packet, env);
      status := status.(lastError := ErrorOf(outcome));
    }

    /** Decrypt a data frame under the receive key; nothing when it does not authenticate. */
    method OpenFrame(packet: PacketBuffer) returns (plain: Option<Bytes>)
      requires Valid() && packet.Valid() && rxKey.Some? && IsData(packet.Value().data)
      ensures plain == Opened(crypto, State(), packet.Value())
    {
      ghost var p := packet.Value();
      var prefix := packet.data[..DATA_HEADER];
      assert prefix == p.data[..DATA_HEADER] && packet.data[4..12] == p.data[4..12];
      assert packet.data[DATA_HEADER..packet.length] == p.data[DATA_HEADER..];
      var aad := BuildAad(packet.id, prefix);
      var nonce := BuildNonce(config.peer, ReadSequence(packet.data[4..12]));
      plain := crypto.open(rxKey.value.material, nonce, aad, packet.data[DATA_HEADER..packet.length]);
    }

    /** Move the receive counter to an accepted frame and count it. */
    method Accept(sequence: u64)
      requires Valid()
      modifies `rxSequence, `status
      ensures State() == Advanced(old(State()), sequence)
      ensures Valid()
    {
      rxSequence := sequence;
      status := status.(authenticated := Bump(status.authenticated));
    }

    /** The rest of decode for a frame that authenticated: refuse a replay, or hand over what it carried. */
    method Deliver(packet: PacketBuffer, plain: Bytes, sequence: u64) returns (outcome: Outcome)
      requires Valid() && packet.Valid() && packet.data != scratch
      requires packet.data.Length == config.bufferSize && |plain| <= scratch.Length
      modifies `rxSequence, `status, scratch, packet, packet.data
      ensures State() ==
              if sequence <= old(rxSequence)
              then old(State()).(status := old(status).(replays := Bump(old(status).replays)))
              else Advanced(old(State()), sequence)
      ensures outcome == if sequence <= old(rxSequence) then Failed(EALREADY) else Done
      ensures packet.Valid() && packet.id == old(packet.id)
      ensures packet.Value().data == if sequence <= old(rxSequence) then old(packet.Value()).data else plain
      ensures Valid()
    {
      Put(scratch, 0, plain);
      if sequence <= rxSequence {
        status := status.(replays := Bump(status.replays));
        return Failed(EALREADY);
      }
      Accept(sequence);
      Put(packet.data, 0, scratch[..|plain|]);
      packet.length := |plain|;
      outcome := Done;
    }

    /** The branch of decode for data frames and everything that is no frame at all. */
    method DecodeData(packet: PacketBuffer, env: DecodeEnv) returns (outcome: Outcome)
      requires Valid() && packet.Valid() && packet.data != scratch
      requires packet.data.Length == config.bufferSize
      modifies `rxSequence, `status, scratch, packet, packet.data
      ensures State() == Session.DecodeData(crypto, old(State()), old(packet.Value()), env).node
      ensures outcome == Session.DecodeData(crypto, old(State()), old(packet.Value()), env).outcome
      ensures packet.Valid() && packet.id == old(packet.id)
      ensures packet.Value().data == Session.DecodeData(crypto, old(State()), old(packet.Value()), env).data
      ensures Valid()
    {
      ghost var p := packet.Value();
      var framed := packet.length >= 4 && packet.data[0] == 0x4B && packet.data[1] == 0x52;
      if !settings.enabled || !settings.rx {
        return if framed then Failed(EACCES) else Done;
      }
      if !framed || packet.data[2] != 1 || packet.data[3] != DATA || rxKey.None? ||
         packet.length < DATA_HEADER + TAG_BYTES
      {
        return Failed(EACCES);
      }
      var sequence := ReadSequence(packet.data[4..12]);
      assert p.data[4..12] == packet.data[..packet.length][4..12] == packet.data[4..12];
      var plain := OpenFrame(packet);
      if !env.opens || plain.None? || |plain.value| > scratch.Length {
        return Failed(EACCES);
      }
      outcome := Deliver(packet, plain.value, sequence);
    }

    /** The end of decode: count and remember an error. */
    method Finish(outcome: Outcome)
      requires Valid()
      modifies `status
      ensures State() == Settle(old(State()), outcome)
      ensures Valid()
    {
      if outcome.Failed? {
        status := status.(rejected := Bump(status.rejected), lastError := Some(outcome.error));
      }
    }

    /** The test that decode opens with. */
    method IsControlFrame(packet: PacketBuffer) returns (control: bool)
      requires packet.Valid()
      ensures control == IsControl(packet.Value().data)
    {
      control :=
        packet.length >= 4 && packet.data[0] == 0x4B && packet.data[1] == 0x52 && packet.data[2] == 1 &&
        (packet.data[3] == HELLO || packet.data[3] == REPLY);
    }

    /** decode up to its common exit. */
    method Dispatch(packet: PacketBuffer, env: DecodeEnv) returns (outcome: Outcome)
      requires Valid() && packet.Valid() && packet.data != scratch
      requires packet.data.Length == config.bufferSize
      modifies this, uart, scratch, packet, packet.data
      ensures State() == Session.Dispatch(crypto, old(State()), old(packet.Value()), env).node
      ensures outcome == Session.Dispatch(crypto, old(State()), old(packet.Value()), env).outcome
      ensures packet.Valid() && packet.id == old(packet.id)
      ensures packet.Value().data == Session.Dispatch(crypto, old(State()), old(packet.Value()), env).data
      ensures uart.sent == old(uart.sent) +
              Frames(crypto, Session.Dispatch(crypto, old(State()), old(packet.Value()), env).signed)
      ensures Valid()
    {
      var control := IsControlFrame(packet);
      if control {
        outcome := ControlReceived(packet, env);
        if outcome == Done {
          outcome := Consumed;
        }
      } else {
        outcome := DecodeData(packet, env);
      }
    }

    /** The codec's decode: an accepted packet is rewritten as what it carried. */
    method Decode(packet: PacketBuffer, env: DecodeEnv) returns (outcome: Outcome)
      requires Valid() && packet.Valid() && packet.data != scratch
      requires packet.data.Length == config.bufferSize
      modifies this, uart, scratch, packet, packet.data
      ensures State() == Session.Decode(crypto, old(State()), old(packet.Value()), env).node
      ensures outcome == Session.Decode(crypto, old(State()), old(packet.Value()), env).outcome
      ensures packet.Valid() && packet.id == old(packet.id)
      ensures packet.Value().data == Session.Decode(crypto, old(State()), old(packet.Value()), env).data
      ensures uart.sent == old(uart.sent) +
              Frames(crypto, Session.Decode(crypto, old(State()), old(packet.Value()), env).signed)
      ensures forall i :: 0 <= i < scratch.Length ==> scratch[i] == 0
      ensures Valid()
    {
      outcome := Dispatch(packet, env);
      Finish(outcome);
      Wipe(scratch);
    }

    /** The part of initialisation that can fail. */
    method LoadAndStart(env: InitEnv) returns (outcome: Outcome)
      requires Valid()
      modifies this
      ensures State() == Session.LoadAndStart(old(State()), env).0
      ensures outcome == Session.LoadAndStart(old(State()), env).1
      ensures Valid()
    {
      if !env.cryptoOk {
        return Failed(EIO);
      }
      if env.draw.DrawFailed? {
        bootNonce := env.draw.left;
        return Failed(EIO);
      }
      bootNonce := env.draw.nonce;
      if env.loaded.LoadFailed? {
        return Failed(env.loaded.error);
      }
      if env.loaded.Found? {
        settings := env.loaded.settings;
      }
      outcome := Done;
      if settings.keySet {
        outcome := ImportMasterKey(env.importOk);
      }
    }

    /** kfsw_radio_uhf_crypto_init, once the codec is registered. */
    method Initialise(env: InitEnv) returns (outcome: Outcome)
      requires Valid()
      modifies this
      ensures State() == Init(old(State()), env).0
      ensures outcome == Init(old(State()), env).1
      ensures Valid()
    {
      outcome := LoadAndStart(env);
      initialized := true;
      status := status.(lastError := ErrorOf(outcome));
    }

    /** save_settings under the lock, after the draw or the store failed. */
    method Remember(error: Errno)
      requires Valid()
      modifies `status
      ensures State() == CommitFailed(old(State()), error)
      ensures Valid()
    {
      status := status.(lastError := Some(error));
    }

    /** save_settings under the lock, after the draw and the store succeeded. */
    method CommitSettings(next: Settings, boot: Nonce, changedKey: bool, importOk: bool)
      requires Valid()
      modifies this
      ensures State() == Commit(old(State()), next, boot, changedKey, importOk)
      ensures Valid()
    {
      settings := next;
      bootNonce := boot;
      ClearSessionState();
      var outcome := Done;
      if changedKey {
        outcome := ImportMasterKey(importOk);
      }
      status := status.(lastError := ErrorOf(outcome));
    }
  }
}
