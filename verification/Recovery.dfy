/**
 * How sessions come about without anyone asking for them, and survive lost frames: a repeated
 * HELLO is answered again, and sending without a session asks for one.
 */
module Recovery {
  import opened Prelude
  import opened Wire
  import opened Primitives
  import opened Session
  import opened Handshake
  import opened Exchange

  // ---------------------------------------------------------------- a lost REPLY

  /** The HELLO a node last made a key for. */
  function LastHello(n: Node): Control {
    Hello(n.config.peer, n.config.local, n.peerBoot, n.peerRequest)
  }

  lemma DuplicateAnswered(n: Node, env: HelloEnv)
    requires n.master.Some? && n.rxKey.Some?
    ensures
      var h := HelloReceived(n, n.peerBoot, n.peerRequest, env);
      && h.node == n.(lastHello := env.now) && h.created == [] && h.installed == []
      && h.signed == (if env.signs then [Signed(n.master.value, ReplyOf(n))] else [])
      && h.outcome == (if !env.signs then Failed(EACCES)
                       else if env.sendError.Some? then Failed(env.sendError.value) else Done)
  {
  }

  /**
   * The HELLO a node last answered, delivered again, is answered again, at any time: the same
   * REPLY, for the key in use, is signed and sent, no key is made, and nothing of the session moves.
   */
  lemma RepeatedHelloAnswered(c: Crypto, n: Node, env: DecodeEnv)
    requires n.master.Some? && n.settings.enabled && n.rxKey.Some? && env.verifies
    ensures
      var p := FramePacket(c, n.master.value, LastHello(n));
      var r := Decode(c, n, p, env);
      && r.signed == (if env.hello.signs
                      then [Signed(n.master.value,
                                   Reply(n.config.local, n.config.peer, n.peerBoot, n.peerRequest, n.serverNonce))]
                      else [])
      && r.outcome == (if !env.hello.signs then Failed(EACCES)
                       else if env.hello.sendError.Some? then Failed(env.hello.sendError.value) else Consumed)
      && r.created == [] && r.installed == [] && r.accepted == [] && r.data == p.data
      && r.node == n.(lastHello := env.hello.now, status := r.node.status)
  {
    HelloHanded(c, n, LastHello(n), env);
    DuplicateAnswered(n, env.hello);
    SignedIsVerified(c, n, LastHello(n));
  }

  /** A HELLO that is new to a node with its gate open makes a key, whatever becomes of the REPLY. */
  lemma NewRequestMakesKey(n: Node, client: Nonce, request: Nonce, env: HelloEnv)
    requires n.master.Some? && !IsDuplicate(n, client, request) && env.now - n.lastHello >= RETRY_MS
    requires env.draw.Drawn? && env.derives
    ensures
      var d := HelloReceived(n, client, request, env).node;
      && d.config == n.config && d.master == n.master && d.settings == n.settings
      && d.rxKey == Some(DirectionalKey(n, client, request, d.serverNonce, false))
      && d.peerBoot == client && d.peerRequest == request && d.rxSequence == 0
  {
  }

  /**
   * A lost REPLY costs nothing but time. The asker's HELLO made a key, and the REPLY was lost or
   * never sent; when the same HELLO comes again, even at once, the REPLY to it brings the
   * asker's direction up.
   */
  lemma LostReplyRecovered(c: Crypto, x: Node, y: Node, ask: ConnectEnv, first: DecodeEnv, again: DecodeEnv,
                           complete: DecodeEnv)
    requires Paired(x, y) && ask.now - x.lastRequest >= RETRY_MS && ask.draw.Drawn? && ask.signs
    requires first.verifies && first.hello.draw.Drawn? && first.hello.derives
    requires first.hello.now - y.lastHello >= RETRY_MS && !IsDuplicate(y, x.bootNonce, ask.draw.nonce)
    requires again.verifies && again.hello.signs && complete.verifies && complete.derives
    ensures
      var asked := ConnectLocked(x, ask).node;
      var hello := FramePacket(c, y.master.value, Hello(x.config.local, x.config.peer, x.bootNonce, ask.draw.nonce));
      var answered := Decode(c, y, hello, first).node;
      var repeated := Decode(c, answered, hello, again);
      var done := Handed(c, asked, ReplyOf(repeated.node), complete);
      && Signed(x.master.value, ReplyOf(repeated.node)) in repeated.signed && repeated.created == []
      && repeated.node.rxKey == answered.rxKey
      && done.txKey.Some? && done.txKey == repeated.node.rxKey && !done.pending
  {
    var asked := ConnectLocked(x, ask).node;
    var m := Hello(x.config.local, x.config.peer, x.bootNonce, ask.draw.nonce);
    HelloHanded(c, y, m, first);
    NewRequestMakesKey(y, x.bootNonce, ask.draw.nonce, first.hello);
    var answered := Decode(c, y, FramePacket(c, y.master.value, m), first).node;
    RepeatedHelloAnswered(c, answered, again);
    ReplyCompletes(c, asked, Decode(c, answered, FramePacket(c, y.master.value, m), again).node, complete);
  }

  // ---------------------------------------------------------------- sending without a session

  /** The node may ask: a key is loaded, protection is on, and the last attempt is a second old. */
  predicate MayAsk(n: Node, now: int) {
    n.master.Some? && n.settings.enabled && now - n.lastRequest >= 1000
  }

  /**
   * Sending without a session asks for one: the packet is refused for now and left alone, and
   * exactly one HELLO goes out, under the present boot nonce and a request nonce that is then awaited.
   */
  lemma EncodeAsks(c: Crypto, n: Node, p: Packet, env: EncodeEnv)
    requires n.settings.tx && n.txKey.None? && MayAsk(n, env.connect.now)
    requires env.connect.draw.Drawn? && env.connect.signs
    ensures
      var r := Encode(c, n, p, env);
      var nonce := env.connect.draw.nonce;
      && r.outcome == Failed(EAGAIN) && r.data == p.data && r.attempts == []
      && r.signed == [Signed(n.master.value, Hello(n.config.local, n.config.peer, n.bootNonce, nonce))]
      && r.node == n.(pending := true, requestNonce := nonce, lastRequest := env.connect.now,
                      status := n.status.(lastError := Some(EAGAIN)))
  {
  }

  /**
   * Sending starts a session by itself: encode without one, its HELLO, the answer and the
   * REPLY, and the next encode succeeds; and what it seals the peer opens to the packet sent.
   */
  lemma EncodeStartsSession(c: Crypto, x: Node, y: Node, p: Packet, q: Packet, first: EncodeEnv, answer: DecodeEnv,
                            complete: DecodeEnv, seal: EncodeEnv, open: DecodeEnv)
    requires c.Lawful() && Paired(x, y) && x.config.Valid() && x.config.bufferSize == y.config.bufferSize
    requires x.settings.tx && y.settings.rx && x.txKey.None? && MayAsk(x, first.connect.now)
    requires first.connect.draw.Drawn? && first.connect.signs
    requires answer.verifies && answer.hello.draw.Drawn? && answer.hello.derives
    requires answer.hello.now - y.lastHello >= RETRY_MS && !IsDuplicate(y, x.bootNonce, first.connect.draw.nonce)
    requires complete.verifies && complete.derives && seal.seals && open.opens && |q.data| <= x.config.payloadMax
    ensures
      var asked := Encode(c, x, p, first).node;
      var answered := Handed(c, y, HelloOf(asked), answer);
      var ready := Handed(c, asked, ReplyOf(answered), complete);
      var sent := Encode(c, ready, q, seal);
      var got := Decode(c, answered, Packet(q.id, sent.data), open);
      && sent.outcome == Done && got.outcome == Done && got.data == q.data
  {
    EncodeAsks(c, x, p, first);
    var asked := Encode(c, x, p, first).node;
    HelloHanded(c, y, HelloOf(asked), answer);
    NewRequestMakesKey(y, x.bootNonce, first.connect.draw.nonce, answer.hello);
    var answered := Handed(c, y, HelloOf(asked), answer);
    ReplyCompletes(c, asked, answered, complete);
    FrameRoundTrip(c, Handed(c, asked, ReplyOf(answered), complete), answered, q, seal, open);
  }
}
