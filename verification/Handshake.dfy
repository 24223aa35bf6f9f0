/**
 * The handshake seen from one node and from two: what completes it, what a HELLO does to the
 * send key, and what the link may always deliver.
 */
module Handshake {
  import opened Prelude
  import opened ByteStrings
  import opened Wire
  import opened Primitives
  import opened Session
  import opened Link
  import opened Channel
  import opened LinkInvariant
  import opened Delivery

  // ---------------------------------------------------------------- completion

  function FramePacket(c: Crypto, master: Key, m: Control): Packet {
    Packet(ControlId(m.src, m.dst), c.ControlFrame(master, m))
  }

  /** The fields of a message, where its frame carries them. */
  lemma BodyParts(m: Control)
    ensures
      var body := ControlBody(m);
      && body[..4] == FrameHeader(if m.Hello? then HELLO else REPLY)
      && body[4..20] == m.boot && body[20..36] == m.request
      && (m.Reply? ==> body[36..52] == m.server)
  {
    var header := FrameHeader(if m.Hello? then HELLO else REPLY);
    var first := header + m.boot;
    LastField(header, m.boot);
    LastField(first, m.request);
    FieldOfPrefix(first, m.request, 4, 20);
    FieldOfPrefix(first, m.request, 0, 4);
    if m.Reply? {
      var second := first + m.request;
      LastField(second, m.server);
      FieldOfPrefix(second, m.server, 0, 4);
      FieldOfPrefix(second, m.server, 4, 20);
      FieldOfPrefix(second, m.server, 20, 36);
    }
  }

  /** A control frame, cut into its parts. */
  lemma FrameParts(c: Crypto, master: Key, m: Control)
    ensures
      var data := c.ControlFrame(master, m);
      && |data| == (if m.Hello? then HELLO_BYTES else REPLY_BYTES)
      && data[..4] == FrameHeader(if m.Hello? then HELLO else REPLY)
      && data[4..20] == m.boot && data[20..36] == m.request
      && (m.Reply? ==> data[36..52] == m.server)
      && data[..|data| - MAC_BYTES] == ControlBody(m)
      && data[|data| - MAC_BYTES..] == c.mac(master, MacInput(m))
  {
    var body, tag := ControlBody(m), c.mac(master, MacInput(m));
    BodyParts(m);
    LastField(body, tag);
    FieldOfPrefix(body, tag, 0, 4);
    FieldOfPrefix(body, tag, 4, 20);
    FieldOfPrefix(body, tag, 20, 36);
    if m.Reply? {
      FieldOfPrefix(body, tag, 36, 52);
    }
  }

  /** A frame a node signed is admitted and verified by a peer that holds the same master key. */
  lemma SignedIsVerified(c: Crypto, n: Node, m: Control)
    requires n.master.Some? && n.settings.enabled
    requires m.src == n.config.peer && m.dst == n.config.local
    ensures
      var p := FramePacket(c, n.master.value, m);
      IsControl(p.data) && ControlAdmitted(n, p) && Verifies(c, n, p.data) && Read(n, p) == m
  {
    FrameParts(c, n.master.value, m);
    var data := c.ControlFrame(n.master.value, m);
    assert data[..4][2] == data[2] && data[..4][3] == data[3];
  }

  /**
   * A handshake that is not disturbed completes: the asker's send key and the answerer's
   * receive key are then the same, and new to the answerer.
   */
  lemma HandshakeCompletes(c: Crypto, x: Node, y: Node, ask: ConnectEnv, answer: DecodeEnv, finish: DecodeEnv)
    requires x.master.Some? && x.master == y.master
    requires x.settings.enabled && y.settings.enabled
    requires x.config.local == y.config.peer && x.config.peer == y.config.local
    requires ask.now - x.lastRequest >= RETRY_MS && ask.draw.Drawn? && ask.signs
    requires answer.verifies && answer.hello.now - y.lastHello >= RETRY_MS && answer.hello.draw.Drawn?
    requires answer.hello.derives && answer.hello.signs
    requires y.peerRequest != ask.draw.nonce
    requires finish.verifies && finish.derives
    ensures
      var hello := Hello(x.config.local, x.config.peer, x.bootNonce, ask.draw.nonce);
      var reply := Reply(y.config.local, y.config.peer, x.bootNonce, ask.draw.nonce, answer.hello.draw.nonce);
      var asked := ConnectLocked(x, ask);
      var answered := Decode(c, y, FramePacket(c, x.master.value, hello), answer);
      var done := Decode(c, asked.node, FramePacket(c, x.master.value, reply), finish);
      && Signed(x.master.value, hello) in asked.signed
      && Signed(x.master.value, reply) in answered.signed
      && done.outcome == Consumed
      && done.node.txKey.Some? && done.node.txKey == answered.node.rxKey && answered.created == [done.node.txKey.value]
      && done.node.txSequence == 0 && answered.node.rxSequence == 0 && !done.node.pending
  {
    var hello := Hello(x.config.local, x.config.peer, x.bootNonce, ask.draw.nonce);
    var reply := Reply(y.config.local, y.config.peer, x.bootNonce, ask.draw.nonce, answer.hello.draw.nonce);
    SignedIsVerified(c, y, hello);
    SignedIsVerified(c, ConnectLocked(x, ask).node, reply);
    Answers(c, y, hello, answer);
  }

  /** A verified HELLO past the gate, with a new request, is answered under a new key. */
  lemma Answers(c: Crypto, y: Node, m: Control, env: DecodeEnv)
    requires y.master.Some? && y.settings.enabled && m.Hello?
    requires m.src == y.config.peer && m.dst == y.config.local && y.peerRequest != m.request
    requires env.verifies && env.hello.now - y.lastHello >= RETRY_MS && env.hello.draw.Drawn?
    requires env.hello.derives && env.hello.signs
    ensures
      var r := Decode(c, y, FramePacket(c, y.master.value, m), env);
      var k := DirectionalKey(y, m.boot, m.request, env.hello.draw.nonce, false);
      && r.created == [k] && r.node.rxKey == Some(k) && r.node.rxSequence == 0
      && Signed(y.master.value,
                Reply(y.config.local, y.config.peer, m.boot, m.request, env.hello.draw.nonce)) in r.signed
  {
    SignedIsVerified(c, y, m);
    var seen := y.(lastHello := env.hello.now);
    var k := DirectionalKey(y, m.boot, m.request, env.hello.draw.nonce, false);
    AnswerSigns(InstallReceive(seen, m.boot, m.request, env.hello.draw.nonce), m.boot, m.request,
                IsNewBoot(y, m.boot), env.hello, [k]);
  }

  lemma AnswerSigns(n: Node, client: Nonce, request: Nonce, newBoot: bool, env: HelloEnv, created: seq<SessionKey>)
    requires n.master.Some? && env.signs
    ensures
      var h := Answer(n, client, request, newBoot, env, created);
      && h.created == created && h.node.rxKey == n.rxKey && h.node.rxSequence == n.rxSequence
      && Signed(n.master.value, Reply(n.config.local, n.config.peer, client, request, n.serverNonce)) in h.signed
  {
  }

  /**
   * A re-keying HELLO keeps the send key exactly when the peer has not restarted since the
   * last one, or a request of this node's own is pending.
   */
  lemma SendKeySurvivesHello(n: Node, client: Nonce, request: Nonce, env: HelloEnv)
    requires n.master.Some? && n.txKey.Some? && HelloReceived(n, client, request, env).created != []
    ensures HelloReceived(n, client, request, env).node.txKey.Some? <==>
              (n.rxKey.Some? && n.peerBoot == client) || n.pending
  {
  }

  // ---------------------------------------------------------------- frame round trip

  /** With equal keys and a counter the receiver has not reached, decode undoes encode. */
  lemma FrameRoundTrip(c: Crypto, x: Node, y: Node, p: Packet, seal: EncodeEnv, env: DecodeEnv)
    requires c.Lawful() && x.config.Valid() && seal.seals && env.opens
    requires x.config.local == y.config.peer && x.config.bufferSize == y.config.bufferSize
    requires x.settings.enabled && x.settings.tx && y.settings.enabled && y.settings.rx
    requires x.txKey.Some? && x.txKey == y.rxKey
    requires |p.data| <= x.config.payloadMax && y.rxSequence <= x.txSequence < U64_MAX
    ensures
      var sent := Encode(c, x, p, seal);
      var got := Decode(c, y, Packet(p.id, sent.data), env);
      && sent.outcome == Done && |sent.data| == |p.data| + 28 && |sent.data| + 4 <= x.config.bufferSize
      && got.outcome == Done && got.data == p.data
      && got.accepted == sent.attempts && got.node.rxSequence == sent.node.txSequence
  {
    var e := Encode(c, x, p, seal).attempts[0];
    var q := Packet(p.id, Encode(c, x, p, seal).data);
    assert q.data == WireFrame(c, x.config.local, e);
    WireFrameOpens(c, y, e);
    DataMoves(c, y, q, env);
  }

  /** The frame of an attempt under the receive key opens to that attempt. */
  lemma WireFrameOpens(c: Crypto, y: Node, e: Seal)
    requires c.Lawful() && y.rxKey == Some(e.key)
    ensures
      var q := Packet(e.id, WireFrame(c, y.config.peer, e));
      && IsData(q.data) && !IsControl(q.data) && SequenceOf(q.data) == e.sequence
      && Opened(c, y, q) == Some(e.payload)
  {
    var data := WireFrame(c, y.config.peer, e);
    assert data[..4] == FrameHeader(DATA);
    assert data[4..12] == BigEndian(8, e.sequence);
    assert data[..DATA_HEADER] == DataPrefix(e.sequence);
    assert data[DATA_HEADER..] == SealBytes(c, y.config.peer, e);
    Widths();
    ReadsBack(8, e.sequence);
  }

  // ---------------------------------------------------------------- what the link may always do

  /** The link may deliver, at any time and any number of times, every handshake frame ever signed. */
  lemma SignedFramesDeliverable(c: Crypto, w: World, side: Side, s: Signed)
    requires s in w.signed && w.At(side).node.master == Some(s.master)
    requires s.control.src == w.At(side).node.config.peer && s.control.dst == w.At(side).node.config.local
    ensures Unforged(c, w, w.At(side).node, FramePacket(c, s.master, s.control))
  {
    var data := FramePacket(c, s.master, s.control).data;
    FrameParts(c, s.master, s.control);
    assert data[..4][3] == data[3];
    assert MacInput(s.control) ==
           Header(ControlId(s.control.src, s.control.dst)) + data[..|data| - MAC_BYTES];
  }

  /** The link may deliver, at any time and any number of times, every data frame ever sealed. */
  lemma SealedFramesDeliverable(c: Crypto, w: World, side: Side, e: Seal)
    requires c.Lawful() && WorldInv(w) && e in w.At(side.Other()).attempts && e.ok
    requires w.At(side).node.rxKey == Some(e.key)
    ensures Unforged(c, w, w.At(side).node,
                     Packet(e.id, WireFrame(c, w.At(side.Other()).node.config.local, e)))
  {
    var y := w.At(side).node;
    var data := WireFrame(c, y.config.peer, e);
    WireFrameOpens(c, y, e);
    PrefixOf(data);
  }
}
