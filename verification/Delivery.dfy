/**
 * What the protocol guarantees over whole runs: sessions that follow the peer's, AEAD
 * nonces that never repeat, and data frames delivered in order and at most once, through
 * loss, duplication, reordering, replay, resets, key changes and settings changes.
 */
module Delivery {
  import opened Prelude
  import opened ByteStrings
  import opened Wire
  import opened Primitives
  import opened Session
  import opened Link
  import opened Channel
  import opened LinkInvariant

  // ---------------------------------------------------------------- order

  function IndexOf<T(==)>(t: seq<T>, x: T): (i: nat)
    requires x in t
    ensures i < |t| && t[i] == x
  {
    if t[0] == x then 0 else 1 + IndexOf(t[1..], x)
  }

  lemma LaterSitsLater(created: seq<SessionKey>, t: seq<Seal>, i: nat, j: nat)
    requires Ordered(created, t) && i < |t| && j < |t| && Before(created, t[i], t[j])
    ensures i < j
  {
  }

  /** Two ordered lists, one inside the other: the inner one is a subsequence. */
  lemma OrderedEmbeds(created: seq<SessionKey>, s: seq<Seal>, t: seq<Seal>)
    requires Ordered(created, s) && Ordered(created, t) && forall e :: e in s ==> e in t
    ensures Subsequence(s, t)
  {
    var f := seq(|s|, i requires 0 <= i < |s| => IndexOf(t, s[i]));
    forall i, j | 0 <= i < j < |f|
      ensures f[i] < f[j]
    {
      LaterSitsLater(created, t, f[i], f[j]);
    }
    assert Embeds(f, s, t);
  }

  lemma OrderedDistinct(created: seq<SessionKey>, s: seq<Seal>)
    requires Ordered(created, s)
    ensures Distinct(s)
  {
    forall i, j | 0 <= i < j < |s|
      ensures s[i] != s[j]
    {
      assert Before(created, s[i], s[j]);
    }
  }

  /**
   * In-order, at-most-once delivery. What a side authenticates over a whole run is a
   * subsequence of what its peer successfully encrypted, with the same keys, counters,
   * identifiers and payloads, and no frame is accepted twice.
   */
  lemma InOrderDelivery(c: Crypto, config: Config, worlds: seq<World>, events: seq<Event>, at: nat, side: Side)
    requires config.Valid() && IsRun(c, config, worlds, events) && at < |worlds|
    ensures
      var w := worlds[at];
      && Subsequence(w.At(side).accepted, w.At(side.Other()).attempts)
      && Distinct(w.At(side).accepted)
      && forall e :: e in w.At(side).accepted ==> e.ok
  {
    RunKeepsWorld(c, config, worlds, events, at);
    var w := worlds[at];
    OrderedEmbeds(w.At(side).created, w.At(side).accepted, w.At(side.Other()).attempts);
    OrderedDistinct(w.At(side).created, w.At(side).accepted);
  }

  /**
   * Session authenticity. The send keys a side installed are, in order, among the receive
   * keys its peer made, no key is ever made twice, and the key in use is one of them.
   */
  lemma SessionAuthenticity(c: Crypto, config: Config, worlds: seq<World>, events: seq<Event>, at: nat, side: Side)
    requires config.Valid() && IsRun(c, config, worlds, events) && at < |worlds|
    ensures
      var w := worlds[at];
      var x, y := w.At(side), w.At(side.Other());
      && Subsequence(x.installed, y.created)
      && Distinct(y.created)
      && (x.node.txKey.Some? ==> x.node.txKey.value in x.installed)
      && (forall k :: k in y.created ==>
            k.src == x.node.config.local && k.dst == y.node.config.local)
  {
    RunKeepsWorld(c, config, worlds, events, at);
    var w := worlds[at];
    var installed, created := w.At(side).installed, w.At(side.Other()).created;
    var f := seq(|installed|, i requires 0 <= i < |installed| => Rank(created, installed[i]));
    forall i | 0 <= i < |f|
      ensures f[i] < |created| && created[f[i]] == installed[i]
    {
      RankBelow(created, installed[i]);
    }
    assert Embeds(f, installed, created);
  }

  /**
   * AEAD nonce uniqueness (section 8.2.1 of NIST SP 800-38D): over both sides and a whole
   * run, no two encryptions use the same master key, key-derivation input and nonce.
   */
  lemma NoncesNeverRepeat(c: Crypto, config: Config, worlds: seq<World>, events: seq<Event>, at: nat,
                          s: Side, i: nat, t: Side, j: nat)
    requires config.Valid() && IsRun(c, config, worlds, events) && at < |worlds|
    requires i < |worlds[at].At(s).attempts|
    requires j < |worlds[at].At(t).attempts|
    requires s != t || i != j
    ensures
      var w := worlds[at];
      var e, f := w.At(s).attempts[i], w.At(t).attempts[j];
      !(&& e.key.master == f.key.master && KdfContext(e.key) == KdfContext(f.key)
        && AeadNonce(w.At(s).node.config.local, e.sequence) == AeadNonce(w.At(t).node.config.local, f.sequence))
  {
    RunKeepsWorld(c, config, worlds, events, at);
    var w := worlds[at];
    var e, f := w.At(s).attempts[i], w.At(t).attempts[j];
    var a, b := w.At(s).node.config.local, w.At(t).node.config.local;
    DistinctUses(w, s, i, t, j);
    if e.key.master == f.key.master && KdfContext(e.key) == KdfContext(f.key) {
      KdfContextInjective(e.key, f.key);
    }
    if AeadNonce(a, e.sequence) == AeadNonce(b, f.sequence) {
      AeadNonceInjective(a, e.sequence, b, f.sequence);
    }
  }

  /** Two different encryptions differ in key or in counter. */
  lemma DistinctUses(w: World, s: Side, i: nat, t: Side, j: nat)
    requires WorldInv(w) && i < |w.At(s).attempts| && j < |w.At(t).attempts| && (s != t || i != j)
    ensures
      var e, f := w.At(s).attempts[i], w.At(t).attempts[j];
      e.key != f.key || e.sequence != f.sequence
  {
    var e, f := w.At(s).attempts[i], w.At(t).attempts[j];
    if s == t {
      var created := w.At(s.Other()).created;
      assert if i < j then Before(created, e, f) else Before(created, f, e);
    } else {
      assert e.key.src == w.At(s).node.config.local && f.key.src == w.At(t).node.config.local;
    }
  }

  /**
   * The session state of a node names its keys: the receive key is the derivation of the
   * loaded master key over the stored nonces, and the newest key made; the send key is a
   * derivation of the same master key over the present boot nonce; and any session or
   * pending request implies a loaded key and protection switched on.
   */
  lemma SessionStateNamed(c: Crypto, config: Config, worlds: seq<World>, events: seq<Event>, at: nat, side: Side)
    requires config.Valid() && IsRun(c, config, worlds, events) && at < |worlds|
    ensures
      var e := worlds[at].At(side);
      var n := e.node;
      && (n.txKey.Some? || n.rxKey.Some? || n.pending ==> n.master.Some? && n.settings.enabled)
      && (n.rxKey.Some? ==>
            && n.rxKey == Some(DirectionalKey(n, n.peerBoot, n.peerRequest, n.serverNonce, false))
            && e.created != [] && n.rxKey == Some(e.created[|e.created| - 1]))
      && (n.txKey.Some? ==>
            n.txKey == Some(DirectionalKey(n, n.bootNonce, n.txKey.value.request, n.txKey.value.server, true)))
  {
    RunKeepsWorld(c, config, worlds, events, at);
    var w := worlds[at];
    InboundNamed(w.At(side.Other()), w.At(side), w.used, w.signed);
  }

  lemma InboundNamed(x: End, y: End, used: set<Nonce>, signed: set<Signed>)
    requires ChannelInv(x, y, used, signed)
    ensures
      var n := y.node;
      n.rxKey.Some? ==>
        && n.master.Some?
        && n.rxKey == Some(DirectionalKey(n, n.peerBoot, n.peerRequest, n.serverNonce, false))
        && y.created != [] && n.rxKey == Some(y.created[|y.created| - 1])
  {
  }

  /** Every REPLY a node signs, repeated or not, names the receive key it then holds. */
  lemma ReplyNamesSession(c: Crypto, config: Config, worlds: seq<World>, events: seq<Event>, at: nat, s: Signed)
    requires config.Valid() && IsRun(c, config, worlds, events) && at < |events|
    requires s in Advance(c, worlds[at].At(events[at].side), events[at].op).1 && s.control.Reply?
    ensures
      var n := worlds[at + 1].At(events[at].side).node;
      n.rxKey == Some(SessionKey(s.master, n.config.peer, n.config.local,
                                 s.control.boot, s.control.request, s.control.server))
  {
    RunKeepsWorld(c, config, worlds, events, at);
    var e := worlds[at].At(events[at].side);
    AdvanceSigns(c, e, events[at].op);
    AdvanceKeepsConfig(c, e, events[at].op);
  }

  // ---------------------------------------------------------------- fail closed

  /** A data frame on the wire: the clear prefix, then ciphertext and tag. */
  function WireFrame(c: Crypto, sender: u16, e: Seal): Bytes {
    DataPrefix(e.sequence) + SealBytes(c, sender, e)
  }

  /**
   * With protection and transmission on, encode succeeds only by sealing the packet under
   * the send key in use, with a counter never used under it.
   */
  lemma TransmitsOnlySealed(c: Crypto, config: Config, worlds: seq<World>, events: seq<Event>, at: nat,
                            side: Side, p: Packet, env: EncodeEnv)
    requires config.Valid() && IsRun(c, config, worlds, events) && at < |worlds|
    requires
      var n := worlds[at].At(side).node;
      n.settings.enabled && n.settings.tx && Encode(c, n, p, env).outcome == Done
    ensures
      var x := worlds[at].At(side);
      var r := Encode(c, x.node, p, env);
      && |r.attempts| == 1
      && x.node.txKey == Some(r.attempts[0].key)
      && r.attempts[0].ok && r.attempts[0].id == p.id && r.attempts[0].payload == p.data
      && r.data == WireFrame(c, x.node.config.local, r.attempts[0])
      && forall e :: e in x.attempts && e.key == r.attempts[0].key ==> e.sequence < r.attempts[0].sequence
  {
    RunKeepsWorld(c, config, worlds, events, at);
  }

  /** A frame that opens is byte for byte the sealing of what it opens to. */
  lemma OpenedFrame(c: Crypto, n: Node, p: Packet)
    requires c.Lawful() && IsData(p.data) && n.rxKey.Some? && Opened(c, n, p).Some?
    ensures p.data == WireFrame(c, n.config.peer, Claimed(c, n, p))
  {
    PrefixOf(p.data);
    assert p.data == p.data[..DATA_HEADER] + p.data[DATA_HEADER..];
  }

  /** With protection and reception on, success means that one opened frame was accepted. */
  lemma SuccessIsAcceptance(c: Crypto, n: Node, p: Packet, env: DecodeEnv)
    requires n.settings.enabled && n.settings.rx && Decode(c, n, p, env).outcome == Done
    ensures n.rxKey.Some? && IsData(p.data) && Opened(c, n, p).Some?
    ensures Decode(c, n, p, env).accepted == [Claimed(c, n, p)]
    ensures Decode(c, n, p, env).data == Opened(c, n, p).value
    ensures n.rxSequence < SequenceOf(p.data)
  {
    if !IsControl(p.data) {
      DataMoves(c, n, p, env);
    }
  }

  /**
   * With protection and reception on, decode succeeds only on a frame that is, byte for
   * byte, one the peer sealed and this side never accepted, and it returns that frame's
   * payload under that frame's identifier.
   */
  lemma ReceivesOnlyGenuine(c: Crypto, config: Config, worlds: seq<World>, events: seq<Event>, at: nat,
                            side: Side, p: Packet, env: DecodeEnv)
    requires c.Lawful() && config.Valid() && IsRun(c, config, worlds, events) && at < |worlds|
    requires Enabled(c, worlds[at], Event(side, Receive(p, env)))
    requires
      var n := worlds[at].At(side).node;
      n.settings.enabled && n.settings.rx && Decode(c, n, p, env).outcome == Done
    ensures
      var w := worlds[at];
      var r := Decode(c, w.At(side).node, p, env);
      && |r.accepted| == 1
      && var e := r.accepted[0];
      && e in w.At(side.Other()).attempts && e.ok
      && e !in w.At(side).accepted
      && e.id == p.id && e.payload == r.data
      && p.data == WireFrame(c, w.At(side.Other()).node.config.local, e)
  {
    RunKeepsWorld(c, config, worlds, events, at);
    AcceptsOnlyGenuine(c, worlds[at], side, p, env);
  }

  lemma AcceptsOnlyGenuine(c: Crypto, w: World, side: Side, p: Packet, env: DecodeEnv)
    requires c.Lawful() && WorldInv(w) && Unforged(c, w, w.At(side).node, p)
    requires w.At(side).node.settings.enabled && w.At(side).node.settings.rx
    requires Decode(c, w.At(side).node, p, env).outcome == Done
    ensures
      var r := Decode(c, w.At(side).node, p, env);
      && |r.accepted| == 1
      && var e := r.accepted[0];
      && e in w.At(side.Other()).attempts && e.ok
      && e !in w.At(side).accepted
      && e.id == p.id && e.payload == r.data
      && p.data == WireFrame(c, w.At(side.Other()).node.config.local, e)
  {
    var n := w.At(side).node;
    SuccessIsAcceptance(c, n, p, env);
    DataIsGenuine(c, w, side, p);
    OpenedFrame(c, n, p);
  }
}
