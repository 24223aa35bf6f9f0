/**
 * The invariant of one direction of the link, from sender `x` to receiver `y`, and the
 * proof that every call on either side keeps it. Keys are compared by their rank: the
 * place at which the receiver created them.
 */
module Channel {
  import opened Prelude
  import opened ByteStrings
  import opened Wire
  import opened Primitives
  import opened Session
  import opened Link

  /** The place of a key among the keys created so far. */
  function Rank(created: seq<SessionKey>, k: SessionKey): nat {
    if created == [] then 0
    else if k in created[..|created| - 1] then Rank(created[..|created| - 1], k)
    else |created| - 1
  }

  lemma RankBelow(created: seq<SessionKey>, k: SessionKey)
    requires k in created
    ensures Rank(created, k) < |created| && created[Rank(created, k)] == k
  {
    if k in created[..|created| - 1] {
      RankBelow(created[..|created| - 1], k);
    }
  }

  lemma RankGrows(created: seq<SessionKey>, more: SessionKey)
    ensures forall k :: k in created ==> Rank(created + [more], k) == Rank(created, k) < |created|
    ensures more !in created ==> Rank(created + [more], more) == |created|
  {
    assert (created + [more])[..|created|] == created;
    forall k | k in created
      ensures Rank(created + [more], k) == Rank(created, k) < |created|
    {
      RankBelow(created, k);
    }
  }

  /** `e` was handled under an earlier key than `f`, or earlier under the same key. */
  predicate Before(created: seq<SessionKey>, e: Seal, f: Seal) {
    || Rank(created, e.key) < Rank(created, f.key)
    || (e.key == f.key && e.sequence < f.sequence)
  }

  predicate Ordered(created: seq<SessionKey>, s: seq<Seal>) {
    forall i, j :: 0 <= i < j < |s| ==> Before(created, s[i], s[j])
  }

  predicate KeysFrom(created: seq<SessionKey>, s: seq<Seal>) {
    forall e :: e in s ==> e.key in created
  }

  /** Everything encrypted so far comes before anything a key of rank `rank` may protect. */
  predicate AllBelow(created: seq<SessionKey>, s: seq<Seal>, rank: nat) {
    forall e :: e in s ==> Rank(created, e.key) < rank
  }

  /** Keys of this direction, all different, made from nonces that exist. */
  predicate CreatedInv(ax: u16, ay: u16, created: seq<SessionKey>, used: set<Nonce>) {
    && Distinct(created)
    && forall k :: k in created ==> k.src == ax && k.dst == ay && k.request in used && k.server in used
  }

  /** A signed HELLO of the sender names an existing request; a signed REPLY names a created key. */
  predicate SignedInv(ax: u16, ay: u16, created: seq<SessionKey>, used: set<Nonce>, signed: set<Signed>) {
    forall s :: s in signed ==>
      && (s.control.Hello? && s.control.src == ax ==> s.control.request in used)
      && (s.control.Reply? && s.control.src == ay && s.control.dst == ax ==>
            SessionKey(s.master, ax, ay, s.control.boot, s.control.request, s.control.server) in created)
  }

  /** The part of a node's state its outbound session lives in. */
  datatype Outbound = Outbound(txKey: Option<SessionKey>, txSequence: u64, pending: bool, request: Nonce)

  function OutboundOf(n: Node): Outbound {
    Outbound(n.txKey, n.txSequence, n.pending, n.requestNonce)
  }

  /** The keys were created, and in this order. */
  predicate InstalledInOrder(created: seq<SessionKey>, installed: seq<SessionKey>) {
    && (forall k :: k in installed ==> k in created)
    && (forall i, j :: 0 <= i < j < |installed| ==> Rank(created, installed[i]) < Rank(created, installed[j]))
  }

  /** The sender only holds keys the receiver created, and moves forward through them. */
  predicate SenderInv(o: Outbound, installed: seq<SessionKey>, attempts: seq<Seal>, created: seq<SessionKey>) {
    && InstalledInOrder(created, installed)
    && KeysFrom(created, attempts)
    && Ordered(created, attempts)
    && (o.txKey.Some? ==>
          && o.txKey.value in created && o.txKey.value in installed
          && (forall e :: e in attempts ==>
                || Rank(created, e.key) < Rank(created, o.txKey.value)
                || (e.key == o.txKey.value && e.sequence <= o.txSequence)))
    && (o.pending ==> NextKeysLater(o, installed, attempts, created))
  }

  /** While a request is pending, every key made for it is later than all that was used. */
  predicate NextKeysLater(o: Outbound, installed: seq<SessionKey>, attempts: seq<Seal>, created: seq<SessionKey>) {
    forall k :: k in created && k.request == o.request ==>
      && AllBelow(created, attempts, Rank(created, k))
      && (forall i :: i in installed ==> Rank(created, i) < Rank(created, k))
      && (o.txKey.Some? ==> Rank(created, o.txKey.value) < Rank(created, k))
  }

  /** The part of a node's state its inbound session lives in. */
  datatype Inbound = Inbound(master: Option<Key>, rxKey: Option<SessionKey>, rxSequence: u64,
                             boot: Nonce, request: Nonce, server: Nonce)

  function InboundOf(n: Node): Inbound {
    Inbound(n.master, n.rxKey, n.rxSequence, n.peerBoot, n.peerRequest, n.serverNonce)
  }

  /** The receive key is the derivation of the current master over the stored nonces. */
  predicate Named(ax: u16, ay: u16, i: Inbound) {
    i.rxKey.Some? ==>
      i.master.Some? && i.rxKey.value == SessionKey(i.master.value, ax, ay, i.boot, i.request, i.server)
  }

  /** The receive key is the newest one, and the counter has passed all it opened. */
  predicate ReceiverInv(i: Inbound, created: seq<SessionKey>, accepted: seq<Seal>) {
    && KeysFrom(created, accepted)
    && Ordered(created, accepted)
    && (i.rxKey.Some? ==>
          && created != [] && i.rxKey.value == created[|created| - 1]
          && (forall e :: e in accepted && e.key == i.rxKey.value ==> e.sequence <= i.rxSequence))
  }

  predicate ChannelInv(x: End, y: End, used: set<Nonce>, signed: set<Signed>) {
    var ax, ay := x.node.config.local, y.node.config.local;
    && x.node.config.peer == ay && y.node.config.peer == ax && ax != ay
    && CreatedInv(ax, ay, y.created, used)
    && SignedInv(ax, ay, y.created, used, signed)
    && SenderInv(OutboundOf(x.node), x.installed, x.attempts, y.created)
    && Named(ax, ay, InboundOf(y.node))
    && ReceiverInv(InboundOf(y.node), y.created, y.accepted)
    && (forall e :: e in y.accepted ==> e in x.attempts && e.ok)
  }

  // ---------------------------------------------------------------- sender side

  /** A move that installs nothing: the key is kept or dropped, a request is kept or fresh. */
  predicate Drifts(o: Outbound, p: Outbound, used: set<Nonce>) {
    && (p.txKey.None? || (p.txKey == o.txKey && p.txSequence == o.txSequence))
    && (p.pending ==> p.request !in used || (p.request == o.request && o.pending))
  }

  lemma DriftKeepsSender(o: Outbound, p: Outbound, installed: seq<SessionKey>, attempts: seq<Seal>,
                         created: seq<SessionKey>, used: set<Nonce>)
    requires SenderInv(o, installed, attempts, created)
    requires forall k :: k in created ==> k.request in used
    requires Drifts(o, p, used)
    ensures SenderInv(p, installed, attempts, created)
  {
  }

  lemma AttemptKeepsSender(o: Outbound, e: Seal, installed: seq<SessionKey>, attempts: seq<Seal>,
                           created: seq<SessionKey>)
    requires SenderInv(o, installed, attempts, created)
    requires o.txKey.Some? && e.key == o.txKey.value && o.txSequence < e.sequence
    ensures SenderInv(o.(txSequence := e.sequence), installed, attempts + [e], created)
  {
  }

  /** The key a pending request is answered with outranks everything, so order survives. */
  lemma InstallKeepsSender(o: Outbound, k: SessionKey, installed: seq<SessionKey>, attempts: seq<Seal>,
                           created: seq<SessionKey>)
    requires SenderInv(o, installed, attempts, created)
    requires o.pending && k.request == o.request && k in created
    ensures SenderInv(Outbound(Some(k), 0, false, o.request), installed + [k], attempts, created)
  {
  }

  /** A key the receiver adds is later than all the sender ever used. */
  lemma CreationKeepsSender(o: Outbound, installed: seq<SessionKey>, attempts: seq<Seal>,
                            created: seq<SessionKey>, more: SessionKey)
    requires SenderInv(o, installed, attempts, created) && more !in created
    ensures SenderInv(o, installed, attempts, created + [more])
  {
    RankGrows(created, more);
  }

  // ---------------------------------------------------------------- genuine frames

  /** A received control frame, read back into the message it claims to be. */
  function Read(n: Node, p: Packet): Control
    requires IsControl(p.data) && ControlAdmitted(n, p)
  {
    if p.data[3] == HELLO then
      Hello(n.config.peer, n.config.local, p.data[4..20], p.data[20..36])
    else
      Reply(n.config.peer, n.config.local, p.data[4..20], p.data[20..36], p.data[36..52])
  }

  lemma ReadsBody(n: Node, p: Packet)
    requires IsControl(p.data) && ControlAdmitted(n, p)
    ensures ControlBody(Read(n, p)) == p.data[..|p.data| - MAC_BYTES]
  {
    var d := p.data;
    assert FrameHeader(d[3]) == d[..4];
    if d[3] == HELLO {
      assert d[..4] + d[4..20] + d[20..36] == d[..36];
    } else {
      assert d[..4] + d[4..20] + d[20..36] + d[36..52] == d[..52];
    }
  }

  /** A control frame that passes the MAC was signed, as read, by a node holding the same master key. */
  lemma ControlIsGenuine(c: Crypto, w: World, n: Node, p: Packet)
    requires Unforged(c, w, n, p)
    requires IsControl(p.data) && ControlAdmitted(n, p) && Verifies(c, n, p.data)
    ensures Signed(n.master.value, Read(n, p)) in w.signed
  {
    ReadsBody(n, p);
    var s :| s in w.signed && s.master == n.master.value &&
             MacInput(s.control) ==
               Header(ControlId(n.config.peer, n.config.local)) + p.data[..|p.data| - MAC_BYTES];
    MacInputInjective(s.control, Read(n, p));
  }

  /** The frame a successful decryption claims to have been. */
  function Claimed(c: Crypto, n: Node, p: Packet): Seal
    requires IsData(p.data) && n.rxKey.Some? && Opened(c, n, p).Some?
  {
    Seal(n.rxKey.value, SequenceOf(p.data), p.id, Opened(c, n, p).value, true)
  }

  lemma PrefixOf(data: Bytes)
    requires IsData(data)
    ensures data[..DATA_HEADER] == DataPrefix(SequenceOf(data))
  {
    WritesBack(data[4..12]);
    assert data[..12] == data[..4] + data[4..12];
    assert data[..4] == FrameHeader(DATA);
  }

  /** A data frame that opens is, field by field, one the peer encrypted. */
  lemma DataIsGenuine(c: Crypto, w: World, side: Side, p: Packet)
    requires ChannelInv(w.At(side.Other()), w.At(side), w.used, w.signed)
    requires ChannelInv(w.At(side), w.At(side.Other()), w.used, w.signed)
    requires Unforged(c, w, w.At(side).node, p)
    requires IsData(p.data) && w.At(side).node.rxKey.Some? && Opened(c, w.At(side).node, p).Some?
    ensures Claimed(c, w.At(side).node, p) in w.At(side.Other()).attempts
  {
    var n := w.At(side).node;
    var other, s :| s in w.At(other).attempts && s.ok && s.key == n.rxKey.value &&
                    s.payload == Opened(c, n, p).value &&
                    AeadNonce(w.At(other).node.config.local, s.sequence) ==
                      AeadNonce(n.config.peer, SequenceOf(p.data)) &&
                    Aad(s.id, DataPrefix(s.sequence)) == Aad(p.id, p.data[..DATA_HEADER]);
    PrefixOf(p.data);
    FrameBindingInjective(w.At(other).node.config.local, s.id, s.sequence,
                          n.config.peer, p.id, SequenceOf(p.data));
    assert other == side.Other();
  }

  // ---------------------------------------------------------------- one call, sender side

  /** What a REPLY must be for the sender to install its key safely. */
  predicate ReplyGenuine(c: Crypto, n: Node, p: Packet, created: seq<SessionKey>) {
    IsControl(p.data) && p.data[3] == REPLY && ControlAdmitted(n, p) && Verifies(c, n, p.data) ==>
      DirectionalKey(n, p.data[4..20], p.data[20..36], p.data[36..52], true) in created
  }

  lemma ConnectDrifts(n: Node, env: ConnectEnv, used: set<Nonce>)
    requires FreshDraw(env.draw, n.requestNonce, used)
    ensures Drifts(OutboundOf(n), OutboundOf(ConnectLocked(n, env).node), used)
  {
  }

  lemma HelloDrifts(n: Node, client: Nonce, request: Nonce, env: HelloEnv, used: set<Nonce>)
    requires n.master.Some? && FreshDraw(env.connect.draw, n.requestNonce, used)
    ensures Drifts(OutboundOf(n), OutboundOf(HelloReceived(n, client, request, env).node), used)
    ensures HelloReceived(n, client, request, env).installed == []
  {
  }

  lemma DataDrifts(c: Crypto, n: Node, p: Packet, env: DecodeEnv)
    ensures OutboundOf(DecodeData(c, n, p, env).node) == OutboundOf(n)
    ensures DecodeData(c, n, p, env).installed == [] && DecodeData(c, n, p, env).signed == []
    ensures DecodeData(c, n, p, env).node.config == n.config
  {
  }

  /** The frame is a REPLY that passes every check. */
  predicate IsValidReply(c: Crypto, n: Node, p: Packet) {
    IsControl(p.data) && p.data[3] == REPLY && ControlAdmitted(n, p) && Verifies(c, n, p.data)
  }

  /** What decoding does to the outbound session: drift, or install the key a REPLY names. */
  lemma DecodeMoves(c: Crypto, n: Node, p: Packet, env: DecodeEnv, used: set<Nonce>)
    requires FreshDraw(env.hello.connect.draw, n.requestNonce, used)
    ensures
      var r := Decode(c, n, p, env);
      var o := OutboundOf(r.node);
      || (r.installed == [] && Drifts(OutboundOf(n), o, used))
      || (&& IsValidReply(c, n, p) && n.pending && p.data[20..36] == n.requestNonce
          && o == Outbound(Some(DirectionalKey(n, p.data[4..20], p.data[20..36], p.data[36..52], true)),
                           0, false, n.requestNonce)
          && r.installed == [o.txKey.value])
  {
    if !IsControl(p.data) {
      DataDrifts(c, n, p, env);
    } else if ControlAdmitted(n, p) && env.verifies && Verifies(c, n, p.data) && p.data[3] == HELLO {
      HelloDrifts(n, p.data[4..20], p.data[20..36], env.hello, used);
    }
  }

  lemma DecodeKeepsSender(c: Crypto, x: End, p: Packet, env: DecodeEnv, created: seq<SessionKey>, used: set<Nonce>)
    requires SenderInv(OutboundOf(x.node), x.installed, x.attempts, created)
    requires forall k :: k in created ==> k.request in used
    requires FreshDraw(env.hello.connect.draw, x.node.requestNonce, used)
    requires ReplyGenuine(c, x.node, p, created)
    ensures
      var r := Decode(c, x.node, p, env);
      SenderInv(OutboundOf(r.node), x.installed + r.installed, x.attempts, created)
  {
    DecodeMoves(c, x.node, p, env, used);
    var r := Decode(c, x.node, p, env);
    if r.installed == [] {
      assert x.installed + r.installed == x.installed;
      DriftKeepsSender(OutboundOf(x.node), OutboundOf(r.node), x.installed, x.attempts, created, used);
    } else {
      InstallKeepsSender(OutboundOf(x.node), r.installed[0], x.installed, x.attempts, created);
    }
  }

  /** What encoding does to the outbound session: drift, or spend one counter value. */
  lemma EncodeMoves(c: Crypto, n: Node, p: Packet, env: EncodeEnv, used: set<Nonce>)
    requires FreshDraw(env.connect.draw, n.requestNonce, used)
    ensures
      var r := Encode(c, n, p, env);
      || (r.attempts == [] && Drifts(OutboundOf(n), OutboundOf(r.node), used))
      || (&& |r.attempts| == 1 && n.txKey.Some? && r.attempts[0].key == n.txKey.value
          && n.txSequence < r.attempts[0].sequence
          && OutboundOf(r.node) == OutboundOf(n).(txSequence := r.attempts[0].sequence))
  {
  }

  lemma EncodeKeepsSender(c: Crypto, x: End, p: Packet, env: EncodeEnv, created: seq<SessionKey>, used: set<Nonce>)
    requires SenderInv(OutboundOf(x.node), x.installed, x.attempts, created)
    requires forall k :: k in created ==> k.request in used
    requires FreshDraw(env.connect.draw, x.node.requestNonce, used)
    ensures
      var r := Encode(c, x.node, p, env);
      SenderInv(OutboundOf(r.node), x.installed, x.attempts + r.attempts, created)
  {
    EncodeMoves(c, x.node, p, env, used);
    var r := Encode(c, x.node, p, env);
    if r.attempts == [] {
      assert x.attempts + r.attempts == x.attempts;
      DriftKeepsSender(OutboundOf(x.node), OutboundOf(r.node), x.installed, x.attempts, created, used);
    } else {
      assert r.attempts == [r.attempts[0]];
      AttemptKeepsSender(OutboundOf(x.node), r.attempts[0], x.installed, x.attempts, created);
    }
  }

  /** Every other call drifts. */
  lemma LocalOpDrifts(c: Crypto, x: End, op: Op, used: set<Nonce>)
    requires !op.Receive? && !op.Transmit? && FreshDraws(x.node, op, used)
    ensures Drifts(OutboundOf(x.node), OutboundOf(Advance(c, x, op).0.node), used)
    ensures Advance(c, x, op).0.attempts == x.attempts
    ensures Advance(c, x, op).0.installed == x.installed
  {
    if op.Ask? {
      ConnectDrifts(x.node, op.connect, used);
    } else if op.Initialise? {
      InitDrifts(x.node, op.init, used);
    } else if op.Apply? {
      CommitDrifts(x.node, op.next, op.boot, op.changedKey, op.importOk, used);
    }
  }

  lemma InitDrifts(n: Node, env: InitEnv, used: set<Nonce>)
    ensures Drifts(OutboundOf(n), OutboundOf(Init(n, env).0), used)
  {
  }

  lemma CommitDrifts(n: Node, next: Settings, boot: Nonce, changedKey: bool, importOk: bool, used: set<Nonce>)
    ensures Drifts(OutboundOf(n), OutboundOf(Commit(n, next, boot, changedKey, importOk)), used)
  {
  }

  /** Every call by the sender keeps its half of the invariant. */
  lemma AdvanceKeepsSender(c: Crypto, x: End, op: Op, created: seq<SessionKey>, used: set<Nonce>)
    requires SenderInv(OutboundOf(x.node), x.installed, x.attempts, created)
    requires forall k :: k in created ==> k.request in used
    requires FreshDraws(x.node, op, used)
    requires op.Receive? ==> ReplyGenuine(c, x.node, op.packet, created)
    ensures
      var x' := Advance(c, x, op).0;
      SenderInv(OutboundOf(x'.node), x'.installed, x'.attempts, created)
  {
    if op.Transmit? {
      EncodeKeepsSender(c, x, op.packet, op.encode, created, used);
    } else if op.Receive? {
      DecodeKeepsSender(c, x, op.packet, op.decode, created, used);
    } else {
      LocalOpDrifts(c, x, op, used);
      DriftKeepsSender(OutboundOf(x.node), OutboundOf(Advance(c, x, op).0.node), x.installed, x.attempts,
                       created, used);
    }
  }

  // ---------------------------------------------------------------- receiver side

  /** A move that creates and accepts nothing: the inbound session is kept or dropped. */
  predicate Idles(i: Inbound, j: Inbound) {
    j.rxKey.None? || j == i
  }

  lemma CreationKeepsReceiver(i: Inbound, j: Inbound, created: seq<SessionKey>, accepted: seq<Seal>)
    requires ReceiverInv(i, created, accepted)
    requires j.rxKey.Some? && j.rxKey.value !in created
    ensures ReceiverInv(j, created + [j.rxKey.value], accepted)
  {
    RankGrows(created, j.rxKey.value);
  }

  /** An accepted counter is beyond every earlier one, so order survives. */
  lemma AcceptanceKeepsReceiver(i: Inbound, e: Seal, created: seq<SessionKey>, accepted: seq<Seal>)
    requires ReceiverInv(i, created, accepted) && Distinct(created)
    requires i.rxKey.Some? && e.key == i.rxKey.value && i.rxSequence < e.sequence
    ensures ReceiverInv(i.(rxSequence := e.sequence), created, accepted + [e])
  {
    var last := |created| - 1;
    assert created == created[..last] + [created[last]];
    forall d | d in accepted
      ensures Before(created, d, e)
    {
      if d.key != e.key {
        assert d.key in created[..last];
        RankGrows(created[..last], created[last]);
      }
    }
  }

  /** The request of a HELLO the node would accept exists. */
  predicate HelloGenuine(c: Crypto, n: Node, p: Packet, used: set<Nonce>) {
    IsControl(p.data) && p.data[3] == HELLO && ControlAdmitted(n, p) && Verifies(c, n, p.data) ==>
      p.data[20..36] in used
  }

  /** What handling a HELLO does to the inbound session: nothing, or a key under a fresh nonce. */
  lemma HelloMoves(n: Node, client: Nonce, request: Nonce, env: HelloEnv)
    requires n.master.Some?
    ensures
      var h := HelloReceived(n, client, request, env);
      var j := InboundOf(h.node);
      || (h.created == [] && j == InboundOf(n))
      || (&& env.draw.Drawn?
          && h.created == [DirectionalKey(n, client, request, env.draw.nonce, false)]
          && j == Inbound(n.master, Some(h.created[0]), 0, client, request, env.draw.nonce))
  {
  }

  /** A data frame changes nothing inbound, or moves the counter to an opened frame's. */
  lemma DataMoves(c: Crypto, n: Node, p: Packet, env: DecodeEnv)
    ensures
      var r := DecodeData(c, n, p, env);
      var j := InboundOf(r.node);
      && r.created == []
      && (|| (r.accepted == [] && j == InboundOf(n))
          || (&& n.rxKey.Some? && IsData(p.data) && Opened(c, n, p).Some?
              && r.accepted == [Claimed(c, n, p)]
              && n.rxSequence < SequenceOf(p.data)
              && j == InboundOf(n).(rxSequence := SequenceOf(p.data))))
  {
  }

  lemma ControlMoves(c: Crypto, n: Node, p: Packet, env: DecodeEnv, used: set<Nonce>)
    requires IsControl(p.data) && HelloGenuine(c, n, p, used)
    ensures
      var r := DecodeControl(c, n, p, env);
      var j := InboundOf(r.node);
      && r.accepted == []
      && (|| (r.created == [] && j == InboundOf(n))
          || (&& ControlAdmitted(n, p) && env.hello.draw.Drawn? && p.data[20..36] in used
              && r.created == [DirectionalKey(n, p.data[4..20], p.data[20..36], env.hello.draw.nonce, false)]
              && j == Inbound(n.master, Some(r.created[0]), 0, p.data[4..20], p.data[20..36], env.hello.draw.nonce)))
  {
    if ControlAdmitted(n, p) && env.verifies && Verifies(c, n, p.data) && p.data[3] == HELLO {
      HelloMoves(n, p.data[4..20], p.data[20..36], env.hello);
    }
  }

  lemma StartIdles(n: Node, importOk: bool)
    ensures Idles(InboundOf(n), InboundOf(FinishInit(n, importOk).0))
    ensures FinishInit(n, importOk).0.config == n.config
  {
  }

  lemma InitIdles(n: Node, env: InitEnv)
    ensures Idles(InboundOf(n), InboundOf(Init(n, env).0))
    ensures Init(n, env).0.config == n.config
  {
    if env.cryptoOk && env.draw.Drawn? {
      var booted := n.(bootNonce := env.draw.nonce, initialized := true);
      if env.loaded.NotFound? {
        StartIdles(booted, env.importOk);
      } else if env.loaded.Found? {
        StartIdles(booted.(settings := env.loaded.settings), env.importOk);
      }
    }
  }

  lemma EncodeIdles(c: Crypto, n: Node, p: Packet, env: EncodeEnv)
    ensures InboundOf(Encode(c, n, p, env).node) == InboundOf(n)
    ensures Encode(c, n, p, env).node.config == n.config
  {
  }

  lemma LocalOpIdles(c: Crypto, y: End, op: Op)
    requires !op.Receive?
    ensures Idles(InboundOf(y.node), InboundOf(Advance(c, y, op).0.node))
  {
    if op.Initialise? {
      InitIdles(y.node, op.init);
    } else if op.Transmit? {
      EncodeIdles(c, y.node, op.packet, op.encode);
    }
  }

  lemma LocalOpReceivesNothing(c: Crypto, y: End, op: Op)
    requires !op.Receive?
    ensures Advance(c, y, op).0.created == y.created
    ensures Advance(c, y, op).0.accepted == y.accepted
  {
  }

  // ---------------------------------------------------------------- handshake MACs

  /** What a node signs: HELLOs with a nonce of this call, and REPLYs that name its receive key. */
  predicate SignsHonestly(n: Node, signed: seq<Signed>, drawn: set<Nonce>) {
    forall s :: s in signed ==>
      && s.control.src == n.config.local && s.control.dst == n.config.peer
      && (s.control.Hello? ==> s.control.request in drawn)
      && (s.control.Reply? ==>
            n.rxKey == Some(SessionKey(s.master, n.config.peer, n.config.local,
                                       s.control.boot, s.control.request, s.control.server)))
  }

  lemma ConnectSigns(n: Node, env: ConnectEnv)
    ensures SignsHonestly(ConnectLocked(n, env).node, ConnectLocked(n, env).signed, NoncesOf(env.draw))
    ensures InboundOf(ConnectLocked(n, env).node) == InboundOf(n)
  {
  }

  lemma HelloSigns(n: Node, client: Nonce, request: Nonce, env: HelloEnv)
    requires n.master.Some? && Named(n.config.peer, n.config.local, InboundOf(n))
    ensures SignsHonestly(HelloReceived(n, client, request, env).node,
                          HelloReceived(n, client, request, env).signed, NoncesOf(env.connect.draw))
  {
    var seen := n.(lastHello := env.now);
    var m := if env.draw.Drawn? && !IsDuplicate(n, client, request)
             then InstallReceive(seen, client, request, env.draw.nonce) else seen;
    ConnectSigns(m.(txKey := None), env.connect);
  }

  lemma DecodeSigns(c: Crypto, n: Node, p: Packet, env: DecodeEnv)
    requires Named(n.config.peer, n.config.local, InboundOf(n))
    ensures SignsHonestly(Decode(c, n, p, env).node, Decode(c, n, p, env).signed, Draws(Receive(p, env)))
  {
    if !IsControl(p.data) {
      DataDrifts(c, n, p, env);
    } else if ControlAdmitted(n, p) && env.verifies && Verifies(c, n, p.data) && p.data[3] == HELLO {
      HelloSigns(n, p.data[4..20], p.data[20..36], env.hello);
    }
  }

  lemma EncodeSigns(c: Crypto, n: Node, p: Packet, env: EncodeEnv)
    ensures SignsHonestly(Encode(c, n, p, env).node, Encode(c, n, p, env).signed, NoncesOf(env.connect.draw))
  {
    ConnectSigns(n, env.connect);
  }

  lemma AdvanceSigns(c: Crypto, e: End, op: Op)
    requires Named(e.node.config.peer, e.node.config.local, InboundOf(e.node))
    ensures SignsHonestly(Advance(c, e, op).0.node, Advance(c, e, op).1, Draws(op))
  {
    if op.Ask? {
      ConnectSigns(e.node, op.connect);
    } else if op.Transmit? {
      EncodeSigns(c, e.node, op.packet, op.encode);
    } else if op.Receive? {
      DecodeSigns(c, e.node, op.packet, op.decode);
    }
  }

  lemma AdvanceKeepsConfig(c: Crypto, e: End, op: Op)
    ensures Advance(c, e, op).0.node.config == e.node.config
  {
    if op.Initialise? {
      InitIdles(e.node, op.init);
    } else if op.Transmit? {
      EncodeIdles(c, e.node, op.packet, op.encode);
    } else if op.Receive? {
      DecodeKeepsConfig(c, e.node, op.packet, op.decode);
    }
  }

  lemma DecodeKeepsConfig(c: Crypto, n: Node, p: Packet, env: DecodeEnv)
    ensures Decode(c, n, p, env).node.config == n.config
  {
    if IsControl(p.data) {
      ControlKeepsConfig(c, n, p, env);
    } else {
      DataDrifts(c, n, p, env);
    }
  }

  lemma ControlKeepsConfig(c: Crypto, n: Node, p: Packet, env: DecodeEnv)
    requires IsControl(p.data)
    ensures ControlReceived(c, n, p, env).node.config == n.config
  {
  }
}
