/** Every event keeps both directions of the link sound, so every run does. */
module LinkInvariant {
  import opened Prelude
  import opened Wire
  import opened Primitives
  import opened Session
  import opened Link
  import opened Channel

  /**
   * A session or a pending request implies a loaded key and protection switched on, and the
   * send key is a derivation of that key for this node's present boot.
   */
  predicate NodeInv(n: Node) {
    && (n.txKey.Some? || n.rxKey.Some? || n.pending ==> n.master.Some? && n.settings.enabled)
    && (n.txKey.Some? ==>
          n.txKey == Some(DirectionalKey(n, n.bootNonce, n.txKey.value.request, n.txKey.value.server, true)))
    && (!n.initialized ==> n.master.None?)
  }

  /** Both nodes and both directions of the link are sound. */
  predicate WorldInv(w: World) {
    && NodeInv(w.left.node) && NodeInv(w.right.node)
    && ChannelInv(w.left, w.right, w.used, w.signed)
    && ChannelInv(w.right, w.left, w.used, w.signed)
  }

  // ---------------------------------------------------------------- one event

  /**
   * A handshake frame that passes the checks comes from the peer, never back from the node
   * itself: a HELLO under a request that exists, or a REPLY for a key the peer did make.
   */
  lemma PassesOnlyFromPeer(c: Crypto, w: World, side: Side, p: Packet)
    requires WorldInv(w) && Unforged(c, w, w.At(side).node, p)
    requires IsControl(p.data) && ControlAdmitted(w.At(side).node, p) && Verifies(c, w.At(side).node, p.data)
    ensures
      var n, m := w.At(side).node, Read(w.At(side).node, p);
      && Signed(n.master.value, m) in w.signed
      && m.src == w.At(side.Other()).node.config.local && m.src != n.config.local
      && (m.Hello? ==> m.request in w.used)
      && (m.Reply? ==> DirectionalKey(n, m.boot, m.request, m.server, true) in w.At(side.Other()).created)
  {
    ControlIsGenuine(c, w, w.At(side).node, p);
  }

  lemma SendingGenuine(c: Crypto, w: World, side: Side, op: Op)
    requires WorldInv(w) && Enabled(c, w, Event(side, op)) && op.Receive?
    ensures ReplyGenuine(c, w.At(side).node, op.packet, w.At(side.Other()).created)
    ensures HelloGenuine(c, w.At(side).node, op.packet, w.used)
  {
    var n, p := w.At(side).node, op.packet;
    if IsControl(p.data) && ControlAdmitted(n, p) && Verifies(c, n, p.data) {
      PassesOnlyFromPeer(c, w, side, p);
    }
  }

  /** The MACs an event adds keep the claim about signed messages, in the direction it sends. */
  lemma SignedKeptBySender(c: Crypto, w: World, side: Side, op: Op)
    requires WorldInv(w)
    ensures
      var w' := Step(c, w, Event(side, op));
      var x, y := w.At(side), w.At(side.Other());
      SignedInv(x.node.config.local, y.node.config.local, y.created, w'.used, w'.signed)
  {
    AdvanceSigns(c, w.At(side), op);
    AdvanceKeepsConfig(c, w.At(side), op);
  }

  lemma SenderEvent(c: Crypto, w: World, side: Side, op: Op)
    requires WorldInv(w) && Enabled(c, w, Event(side, op))
    ensures
      var w' := Step(c, w, Event(side, op));
      ChannelInv(w'.At(side), w'.At(side.Other()), w'.used, w'.signed)
  {
    var x, y := w.At(side), w.At(side.Other());
    if op.Receive? {
      SendingGenuine(c, w, side, op);
    }
    AdvanceKeepsConfig(c, x, op);
    AdvanceKeepsSender(c, x, op, y.created, w.used);
    SignedKeptBySender(c, w, side, op);
    AttemptsGrow(c, x, op);
  }

  lemma AttemptsGrow(c: Crypto, x: End, op: Op)
    ensures forall e :: e in x.attempts ==> e in Advance(c, x, op).0.attempts
  {
  }

  /** What one event makes of the receiving half of a side. */
  lemma ReceiverEvent(c: Crypto, w: World, side: Side, op: Op)
    requires WorldInv(w) && Enabled(c, w, Event(side, op))
    ensures
      var w' := Step(c, w, Event(side, op));
      ChannelInv(w'.At(side.Other()), w'.At(side), w'.used, w'.signed)
  {
    AdvanceKeepsConfig(c, w.At(side), op);
    AdvanceSigns(c, w.At(side), op);
    if op.Receive? && IsControl(op.packet.data) {
      ControlEvent(c, w, side, op);
    } else if op.Receive? {
      DataEvent(c, w, side, op);
    } else {
      LocalOpIdles(c, w.At(side), op);
      LocalOpReceivesNothing(c, w.At(side), op);
      NamedKept(c, w.At(side), op);
    }
  }

  lemma NamedKept(c: Crypto, e: End, op: Op)
    requires !op.Receive? && Named(e.node.config.peer, e.node.config.local, InboundOf(e.node))
    ensures Named(e.node.config.peer, e.node.config.local, InboundOf(Advance(c, e, op).0.node))
  {
    LocalOpIdles(c, e, op);
  }

  /** The MACs a receiver adds keep the claim about signed messages, in the direction it listens to. */
  lemma SignedKeptByReceiver(ax: u16, m: Node, more: seq<Signed>, drawn: set<Nonce>, created: seq<SessionKey>,
                             created': seq<SessionKey>, used: set<Nonce>, signed: set<Signed>)
    requires SignedInv(ax, m.config.local, created, used, signed) && SignsHonestly(m, more, drawn)
    requires m.config.peer == ax && ax != m.config.local
    requires forall k :: k in created ==> k in created'
    requires m.rxKey.Some? ==> m.rxKey.value in created'
    ensures SignedInv(ax, m.config.local, created', used + drawn, signed + (set s | s in more))
  {
  }

  /** A HELLO that installs a key extends the created keys by one that never existed. */
  lemma CreationEvent(x: End, y: End, y': End, k: SessionKey, used: set<Nonce>, drawn: set<Nonce>,
                      signed: set<Signed>, more: seq<Signed>)
    requires ChannelInv(x, y, used, signed) && SignsHonestly(y'.node, more, drawn)
    requires y'.node.config == y.node.config && y'.accepted == y.accepted && y'.created == y.created + [k]
    requires y'.node.rxKey == Some(k) && Named(x.node.config.local, y.node.config.local, InboundOf(y'.node))
    requires k.request in used && k.server !in used && k.server in drawn
    ensures ChannelInv(x, y', used + drawn, signed + (set s | s in more))
  {
    CreationKeepsReceiver(InboundOf(y.node), InboundOf(y'.node), y.created, y.accepted);
    CreationKeepsSender(OutboundOf(x.node), x.installed, x.attempts, y.created, k);
    SignedKeptByReceiver(x.node.config.local, y'.node, more, drawn, y.created, y'.created, used, signed);
  }

  /** An event that creates no key and accepts nothing, or accepts one genuine newer frame. */
  lemma QuietEvent(x: End, y: End, y': End, used: set<Nonce>, drawn: set<Nonce>,
                   signed: set<Signed>, more: seq<Signed>)
    requires ChannelInv(x, y, used, signed) && SignsHonestly(y'.node, more, drawn)
    requires y'.node.config == y.node.config && y'.created == y.created
    requires Named(x.node.config.local, y.node.config.local, InboundOf(y'.node))
    requires ReceiverInv(InboundOf(y'.node), y.created, y'.accepted)
    requires forall e :: e in y'.accepted ==> e in x.attempts && e.ok
    ensures ChannelInv(x, y', used + drawn, signed + (set s | s in more))
  {
    SignedKeptByReceiver(x.node.config.local, y'.node, more, drawn, y.created, y.created, used, signed);
  }

  lemma ControlEvent(c: Crypto, w: World, side: Side, op: Op)
    requires WorldInv(w) && Enabled(c, w, Event(side, op)) && op.Receive? && IsControl(op.packet.data)
    requires SignsHonestly(Advance(c, w.At(side), op).0.node, Advance(c, w.At(side), op).1, Draws(op))
    ensures
      var w' := Step(c, w, Event(side, op));
      ChannelInv(w'.At(side.Other()), w'.At(side), w'.used, w'.signed)
  {
    var x, y := w.At(side.Other()), w.At(side);
    var (y', more) := Advance(c, y, op);
    var r := DecodeControl(c, y.node, op.packet, op.decode);
    SendingGenuine(c, w, side, op);
    AdvanceKeepsConfig(c, y, op);
    ControlMoves(c, y.node, op.packet, op.decode, w.used);
    assert y.accepted + r.accepted == y.accepted;
    if r.created != [] {
      CreationEvent(x, y, y', r.created[0], w.used, Draws(op), w.signed, more);
    } else {
      assert y.created + r.created == y.created;
      QuietEvent(x, y, y', w.used, Draws(op), w.signed, more);
    }
  }

  lemma DataEvent(c: Crypto, w: World, side: Side, op: Op)
    requires WorldInv(w) && Enabled(c, w, Event(side, op)) && op.Receive? && !IsControl(op.packet.data)
    requires SignsHonestly(Advance(c, w.At(side), op).0.node, Advance(c, w.At(side), op).1, Draws(op))
    ensures
      var w' := Step(c, w, Event(side, op));
      ChannelInv(w'.At(side.Other()), w'.At(side), w'.used, w'.signed)
  {
    var x, y := w.At(side.Other()), w.At(side);
    var (y', more) := Advance(c, y, op);
    AdvanceKeepsConfig(c, y, op);
    DataKeepsReceiver(c, w, side, op);
    QuietEvent(x, y, y', w.used, Draws(op), w.signed, more);
  }

  /** A data frame leaves the accepted frames ordered and genuine. */
  lemma DataKeepsReceiver(c: Crypto, w: World, side: Side, op: Op)
    requires WorldInv(w) && Enabled(c, w, Event(side, op)) && op.Receive? && !IsControl(op.packet.data)
    ensures
      var x, y := w.At(side.Other()), w.At(side);
      var y' := Advance(c, y, op).0;
      && y'.created == y.created
      && Named(x.node.config.local, y.node.config.local, InboundOf(y'.node))
      && ReceiverInv(InboundOf(y'.node), y.created, y'.accepted)
      && forall e :: e in y'.accepted ==> e in x.attempts && e.ok
  {
    var y, p := w.At(side), op.packet;
    DataAdvances(c, y, p, op.decode);
    if Advance(c, y, op).0.accepted != y.accepted {
      DataIsGenuine(c, w, side, p);
      AcceptanceKeepsReceiver(InboundOf(y.node), Claimed(c, y.node, p), y.created, y.accepted);
    }
  }

  /** A data frame changes nothing that is received, or appends the frame it claims to be. */
  lemma DataAdvances(c: Crypto, y: End, p: Packet, env: DecodeEnv)
    requires !IsControl(p.data)
    ensures
      var y' := Advance(c, y, Receive(p, env)).0;
      && y'.created == y.created
      && (|| (y'.accepted == y.accepted && InboundOf(y'.node) == InboundOf(y.node))
          || (&& y.node.rxKey.Some? && IsData(p.data) && Opened(c, y.node, p).Some?
              && y'.accepted == y.accepted + [Claimed(c, y.node, p)]
              && y.node.rxSequence < SequenceOf(p.data)
              && InboundOf(y'.node) == InboundOf(y.node).(rxSequence := SequenceOf(p.data))))
  {
    var r := DecodeData(c, y.node, p, env);
    DataMoves(c, y.node, p, env);
    assert y.created + r.created == y.created;
    assert r.accepted == [] ==> y.accepted + r.accepted == y.accepted;
  }

  lemma HelloKeepsNode(n: Node, client: Nonce, request: Nonce, env: HelloEnv)
    requires NodeInv(n) && n.master.Some? && n.settings.enabled
    ensures NodeInv(HelloReceived(n, client, request, env).node)
  {
  }

  lemma DecodeKeepsNode(c: Crypto, n: Node, p: Packet, env: DecodeEnv)
    requires NodeInv(n)
    ensures NodeInv(Decode(c, n, p, env).node)
  {
    if !IsControl(p.data) {
      DataKeepsNode(c, n, p, env);
    } else if ControlAdmitted(n, p) && env.verifies && Verifies(c, n, p.data) && p.data[3] == HELLO {
      HelloKeepsNode(n, p.data[4..20], p.data[20..36], env.hello);
    }
  }

  lemma DataKeepsNode(c: Crypto, n: Node, p: Packet, env: DecodeEnv)
    requires NodeInv(n)
    ensures NodeInv(DecodeData(c, n, p, env).node)
  {
  }

  lemma EncodeKeepsNode(c: Crypto, n: Node, p: Packet, env: EncodeEnv)
    requires NodeInv(n)
    ensures NodeInv(Encode(c, n, p, env).node)
  {
  }

  lemma InitKeepsNode(n: Node, env: InitEnv)
    requires NodeInv(n) && !n.initialized
    ensures NodeInv(Init(n, env).0)
  {
  }

  /** Every entry point keeps the session-state invariant of its node. */
  lemma AdvanceKeepsNode(c: Crypto, e: End, op: Op)
    requires NodeInv(e.node) && (op.Initialise? ==> !e.node.initialized) && (op.Apply? ==> e.node.initialized)
    ensures NodeInv(Advance(c, e, op).0.node)
  {
    match op
    case Initialise(env) => InitKeepsNode(e.node, env);
    case Transmit(p, env) => EncodeKeepsNode(c, e.node, p, env);
    case Receive(p, env) => DecodeKeepsNode(c, e.node, p, env);
    case _ =>
  }

  lemma EventKeepsWorld(c: Crypto, w: World, event: Event)
    requires WorldInv(w) && Enabled(c, w, event)
    ensures WorldInv(Step(c, w, event))
  {
    SenderEvent(c, w, event.side, event.op);
    ReceiverEvent(c, w, event.side, event.op);
    AdvanceKeepsNode(c, w.At(event.side), event.op);
  }

  /** The invariant holds in every world of every run, whatever the link and the environment do. */
  lemma {:induction false} RunKeepsWorld(c: Crypto, config: Config, worlds: seq<World>, events: seq<Event>, i: nat)
    requires config.Valid() && IsRun(c, config, worlds, events) && i < |worlds|
    ensures WorldInv(worlds[i])
  {
    if i == 0 {
    } else {
      RunKeepsWorld(c, config, worlds, events, i - 1);
      EventKeepsWorld(c, worlds[i - 1], events[i - 1]);
    }
  }

  /** A run goes on with any event that is enabled. */
  lemma RunExtends(c: Crypto, config: Config, worlds: seq<World>, events: seq<Event>, event: Event, next: World)
    requires IsRun(c, config, worlds, events) && Leads(c, worlds[|events|], event, next)
    ensures IsRun(c, config, worlds + [next], events + [event])
  {
    var longer, more := worlds + [next], events + [event];
    forall i | 0 <= i < |more|
      ensures Leads(c, longer[i], more[i], longer[i + 1])
    {
      if i < |events| {
        assert more[i] == events[i] && longer[i] == worlds[i] && longer[i + 1] == worlds[i + 1];
      }
    }
  }
}
