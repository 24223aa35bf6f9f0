/**
 * One node between two session clears: how often handshakes can be made to run, and how
 * often the node starts its outbound session over.
 */
module Gates {
  import opened Prelude
  import opened Wire
  import opened Primitives
  import opened Session
  import opened Link
  import opened Channel

  /** The calls that neither reset the node nor change its settings. */
  predicate KeepsSessions(op: Op) {
    op.Ask? || op.Transmit? || op.Receive? || op.Reject?
  }

  /** `history` lists the states of one side, which starts just cleared, around each call. */
  predicate Follows(c: Crypto, history: seq<End>, ops: seq<Op>) {
    && |history| == |ops| + 1
    && history[0].node == ClearSessions(history[0].node)
    && forall i {:trigger ops[i]} :: 0 <= i < |ops| ==>
         KeepsSessions(ops[i]) && history[i + 1] == Advance(c, history[i], ops[i]).0
  }

  /** The readings of the uptime clock a call may take. */
  function Readings(op: Op): set<int> {
    match op
    case Ask(env) => {env.now}
    case Transmit(_, env) => {env.connect.now}
    case Receive(_, env) => {env.hello.now, env.hello.connect.now}
    case _ => {}
  }

  /** The uptime clock starts at zero and never runs backwards. */
  predicate Uptime(ops: seq<Op>) {
    && (forall i, r :: 0 <= i < |ops| && r in Readings(ops[i]) ==> 0 <= r)
    && (forall i, j, r, s :: 0 <= i < j < |ops| && r in Readings(ops[i]) && s in Readings(ops[j]) ==> r <= s)
  }

  /** The times at which a connection attempt passed the request gate: those at which last_request moved. */
  function Requests(history: seq<End>): seq<int> {
    if |history| < 2 then [] else
      var before, after := history[|history| - 2], history[|history| - 1];
      Requests(history[..|history| - 1]) +
      (if after.node.lastRequest != before.node.lastRequest then [after.node.lastRequest] else [])
  }

  /** The times at which a HELLO made a new receive key. */
  function Rekeys(history: seq<End>): seq<int> {
    if |history| < 2 then [] else
      var before, after := history[|history| - 2], history[|history| - 1];
      Rekeys(history[..|history| - 1]) +
      (if |after.created| > |before.created| then [after.node.lastHello] else [])
  }

  /** Successive times are at least a retry interval apart. */
  predicate Spaced(times: seq<int>) {
    forall i :: 0 < i < |times| ==> times[i - 1] + RETRY_MS <= times[i]
  }

  /** How many of the times fall into the window that opens at `from` and lasts `length`. */
  function CountIn(times: seq<int>, from: int, length: nat): nat {
    if times == [] then 0 else
      CountIn(times[..|times| - 1], from, length) +
      (if from <= times[|times| - 1] <= from + length then 1 else 0)
  }

  /** At most one per interval, plus one, fits into any window. */
  lemma {:induction false} SpacedCount(times: seq<int>, from: int, length: nat)
    requires Spaced(times)
    ensures CountIn(times, from, length) <= length / RETRY_MS + 1
    ensures times != [] && times[|times| - 1] >= from ==>
              CountIn(times, from, length) <= (times[|times| - 1] - from) / RETRY_MS + 1
    ensures times != [] && times[|times| - 1] < from ==> CountIn(times, from, length) == 0
  {
    if |times| == 0 {
    } else {
      var rest := times[..|times| - 1];
      SpacedCount(rest, from, length);
      if |rest| > 0 {
        assert times[|times| - 2] + RETRY_MS <= times[|times| - 1];
      }
    }
  }

  // ---------------------------------------------------------------- one call

  /** What one call may do to the two gates, the created keys and the inbound session. */
  predicate Moves(a: End, b: End) {
    && (b.node.lastRequest == a.node.lastRequest || b.node.lastRequest >= a.node.lastRequest + RETRY_MS)
    && (if |b.created| > |a.created|
        then b.node.rxKey.Some? && b.node.lastHello >= a.node.lastHello + RETRY_MS
        else b.created == a.created && b.node.rxKey == a.node.rxKey && b.node.peerBoot == a.node.peerBoot)
  }

  lemma CallMoves(c: Crypto, e: End, op: Op)
    requires KeepsSessions(op)
    ensures Moves(e, Advance(c, e, op).0)
    ensures
      var n := Advance(c, e, op).0.node;
      n.lastHello == e.node.lastHello || (op.Receive? && n.lastHello == op.decode.hello.now)
  {
    match op
    case Ask(env) => AskMoves(e.node, env);
    case Transmit(p, env) => EncodeMovesGates(c, e.node, p, env);
    case Receive(p, env) => DecodeMovesGates(c, e.node, p, env);
    case Reject(_) =>
  }

  lemma AskMoves(n: Node, env: ConnectEnv)
    ensures
      var m := ConnectLocked(n, env).node;
      && (m.lastRequest == n.lastRequest || m.lastRequest >= n.lastRequest + RETRY_MS)
      && m.lastHello == n.lastHello && m.rxKey == n.rxKey && m.peerBoot == n.peerBoot
  {
  }

  lemma EncodeMovesGates(c: Crypto, n: Node, p: Packet, env: EncodeEnv)
    ensures
      var m := Encode(c, n, p, env).node;
      && (m.lastRequest == n.lastRequest || m.lastRequest >= n.lastRequest + RETRY_MS)
      && m.lastHello == n.lastHello && m.rxKey == n.rxKey && m.peerBoot == n.peerBoot
  {
    AskMoves(n, env.connect);
  }

  lemma DecodeMovesGates(c: Crypto, n: Node, p: Packet, env: DecodeEnv)
    ensures
      var r := Decode(c, n, p, env);
      && (r.node.lastRequest == n.lastRequest || r.node.lastRequest >= n.lastRequest + RETRY_MS)
      && (r.node.lastHello == n.lastHello || r.node.lastHello == env.hello.now)
      && (if r.created != [] then r.node.rxKey.Some? && r.node.lastHello >= n.lastHello + RETRY_MS
          else r.node.rxKey == n.rxKey && r.node.peerBoot == n.peerBoot)
  {
    if !IsControl(p.data) {
      DataMovesGates(c, n, p, env);
    } else if ControlAdmitted(n, p) && env.verifies && Verifies(c, n, p.data) && p.data[3] == HELLO {
      HelloMovesGates(n, p.data[4..20], p.data[20..36], env.hello);
    }
  }

  lemma DataMovesGates(c: Crypto, n: Node, p: Packet, env: DecodeEnv)
    ensures
      var r := DecodeData(c, n, p, env);
      && r.node.lastRequest == n.lastRequest && r.node.lastHello == n.lastHello && r.created == []
      && r.node.rxKey == n.rxKey && r.node.peerBoot == n.peerBoot
  {
  }

  lemma HelloMovesGates(n: Node, client: Nonce, request: Nonce, env: HelloEnv)
    requires n.master.Some?
    ensures
      var h := HelloReceived(n, client, request, env);
      && (h.node.lastRequest == n.lastRequest || h.node.lastRequest >= n.lastRequest + RETRY_MS)
      && (h.node.lastHello == n.lastHello || h.node.lastHello == env.now)
      && (if h.created != [] then h.node.rxKey.Some? && h.node.lastHello >= n.lastHello + RETRY_MS
          else h.node.rxKey == n.rxKey && h.node.peerBoot == n.peerBoot)
  {
    AskMoves(n, env.connect);
  }

  /** Every call of a clear-free history makes such a move. */
  lemma HistoryMoves(c: Crypto, history: seq<End>, ops: seq<Op>)
    requires Follows(c, history, ops)
    ensures forall i :: 0 <= i < |ops| ==> Moves(history[i], history[i + 1])
  {
    forall i | 0 <= i < |ops|
      ensures Moves(history[i], history[i + 1])
    {
      CallMoves(c, history[i], ops[i]);
    }
  }

  // ---------------------------------------------------------------- rates

  lemma {:induction false} RequestsSpaced(history: seq<End>)
    requires |history| > 0 && forall i :: 0 <= i < |history| - 1 ==> Moves(history[i], history[i + 1])
    ensures
      var times := Requests(history);
      Spaced(times) && (times != [] ==> times[|times| - 1] == history[|history| - 1].node.lastRequest)
  {
    if |history| < 2 {
    } else {
      RequestsSpaced(history[..|history| - 1]);
      assert Moves(history[|history| - 2], history[|history| - 2 + 1]);
    }
  }

  /** Between two clears, at most T/1000 + 1 connection attempts pass the gate in any T milliseconds. */
  lemma RequestRate(c: Crypto, history: seq<End>, ops: seq<Op>, from: int, length: nat)
    requires Follows(c, history, ops)
    ensures CountIn(Requests(history), from, length) <= length / 1000 + 1
  {
    HistoryMoves(c, history, ops);
    RequestsSpaced(history);
    SpacedCount(Requests(history), from, length);
  }

  /** last_hello is the reading of some call that came before, so it is not in the future. */
  lemma {:induction false} HelloReading(c: Crypto, history: seq<End>, ops: seq<Op>, i: nat)
    requires Follows(c, history, ops) && i <= |ops|
    ensures history[i].node.lastHello == -RETRY_MS ||
            exists j :: 0 <= j < i && history[i].node.lastHello in Readings(ops[j])
  {
    if i == 0 {
    } else {
      HelloReading(c, history, ops, i - 1);
      CallMoves(c, history[i - 1], ops[i - 1]);
      if history[i].node.lastHello != history[i - 1].node.lastHello {
        assert history[i].node.lastHello in Readings(ops[i - 1]);
      }
    }
  }

  /** last_hello never decreases. */
  lemma HelloForward(c: Crypto, history: seq<End>, ops: seq<Op>, i: nat)
    requires Follows(c, history, ops) && Uptime(ops) && i < |ops|
    ensures history[i].node.lastHello <= history[i + 1].node.lastHello
  {
    HelloReading(c, history, ops, i);
    CallMoves(c, history[i], ops[i]);
    if history[i + 1].node.lastHello != history[i].node.lastHello {
      assert history[i + 1].node.lastHello in Readings(ops[i]);
    }
  }

  lemma {:induction false} RekeysSpaced(history: seq<End>)
    requires |history| > 0 && forall i :: 0 <= i < |history| - 1 ==> Moves(history[i], history[i + 1])
    requires forall i :: 0 <= i < |history| - 1 ==> history[i].node.lastHello <= history[i + 1].node.lastHello
    ensures
      var times := Rekeys(history);
      Spaced(times) && (times != [] ==> times[|times| - 1] <= history[|history| - 1].node.lastHello)
  {
    if |history| < 2 {
    } else {
      RekeysSpaced(history[..|history| - 1]);
      assert Moves(history[|history| - 2], history[|history| - 2 + 1]);
    }
  }

  /** Between two clears, at most T/1000 + 1 HELLOs make a new receive key in any T milliseconds. */
  lemma RekeyRate(c: Crypto, history: seq<End>, ops: seq<Op>, from: int, length: nat)
    requires Follows(c, history, ops) && Uptime(ops)
    ensures CountIn(Rekeys(history), from, length) <= length / 1000 + 1
  {
    HistoryMoves(c, history, ops);
    forall i | 0 <= i < |ops|
      ensures history[i].node.lastHello <= history[i + 1].node.lastHello
    {
      HelloForward(c, history, ops, i);
    }
    RekeysSpaced(history);
    SpacedCount(Rekeys(history), from, length);
  }

  // ---------------------------------------------------------------- starting over

  /** The boot nonces of the HELLOs that made a new receive key. */
  function Boots(history: seq<End>): seq<Nonce> {
    if |history| < 2 then [] else
      var before, after := history[|history| - 2], history[|history| - 1];
      Boots(history[..|history| - 1]) +
      (if |after.created| > |before.created| then [after.node.peerBoot] else [])
  }

  /** The drop-and-reconnect branch of hello_received is taken between two states. */
  predicate StartsOver(before: End, after: End) {
    && |after.created| > |before.created|
    && IsNewBoot(before.node, after.node.peerBoot) && !before.node.pending
  }

  /** The boot nonces for which a node dropped its send key and started over. */
  function Restarts(history: seq<End>): seq<Nonce> {
    if |history| < 2 then [] else
      var before, after := history[|history| - 2], history[|history| - 1];
      Restarts(history[..|history| - 1]) +
      (if StartsOver(before, after) then [after.node.peerBoot] else [])
  }

  /** Once the peer moved on to another boot nonce, no HELLO of an earlier boot re-keys. */
  predicate NeverStale(boots: seq<Nonce>) {
    forall i, j, k :: 0 <= i < j < k < |boots| && boots[i] == boots[k] ==> boots[j] == boots[k]
  }

  /** What a call does to the send key: only the branch, of all calls between two clears, drops it. */
  lemma OnlyStartingOverDrops(c: Crypto, e: End, op: Op)
    requires KeepsSessions(op)
    ensures
      var f := Advance(c, e, op).0;
      if StartsOver(e, f) then f.node.txKey.None?
      else e.node.txKey.Some? ==> f.node.txKey.Some?
  {
    if op.Receive? {
      DecodeSendKey(c, e.node, op.packet, op.decode);
    } else {
      LocalOpReceivesNothing(c, e, op);
    }
  }

  lemma DecodeSendKey(c: Crypto, n: Node, p: Packet, env: DecodeEnv)
    ensures
      var r := Decode(c, n, p, env);
      if r.created != [] && IsNewBoot(n, r.node.peerBoot) && !n.pending then r.node.txKey.None?
      else n.txKey.Some? ==> r.node.txKey.Some?
  {
    if !IsControl(p.data) {
      DataDrifts(c, n, p, env);
      DataMovesGates(c, n, p, env);
    } else if ControlAdmitted(n, p) && env.verifies && Verifies(c, n, p.data) && p.data[3] == HELLO {
      HelloSendKey(n, p.data[4..20], p.data[20..36], env.hello);
    }
  }

  lemma HelloSendKey(n: Node, client: Nonce, request: Nonce, env: HelloEnv)
    requires n.master.Some?
    ensures
      var h := HelloReceived(n, client, request, env);
      && (h.created != [] ==> h.node.peerBoot == client)
      && (if h.created != [] && IsNewBoot(n, client) && !n.pending then h.node.txKey.None?
          else h.node.txKey == n.txKey)
  {
  }

  lemma {:induction false} BootsFollowed(history: seq<End>)
    requires |history| > 0 && history[0].node.rxKey.None?
    requires forall i :: 0 <= i < |history| - 1 ==> Moves(history[i], history[i + 1])
    ensures
      var boots, n := Boots(history), history[|history| - 1].node;
      && (n.rxKey.Some? <==> boots != [])
      && (boots != [] ==> n.peerBoot == boots[|boots| - 1])
      && forall b :: b in Restarts(history) ==> b in boots
  {
    if |history| < 2 {
    } else {
      BootsFollowed(history[..|history| - 1]);
      assert Moves(history[|history| - 2], history[|history| - 2 + 1]);
    }
  }

  /** Without stale HELLOs, a boot nonce other than the last one is a new one. */
  lemma NotStaleIsNew(older: seq<Nonce>, b: Nonce)
    requires NeverStale(older + [b])
    ensures NeverStale(older)
    ensures older != [] && older[|older| - 1] != b ==> b !in older
  {
    var boots := older + [b];
    forall i, j, k | 0 <= i < j < k < |older| && older[i] == older[k]
      ensures older[j] == older[k]
    {
      assert boots[i] == older[i] && boots[j] == older[j] && boots[k] == older[k];
    }
    forall i | 0 <= i < |older| && older[|older| - 1] != b
      ensures older[i] != b
    {
      assert boots[|older|] == b && boots[|older| - 1] != b && boots[i] == older[i];
    }
  }

  lemma {:induction false} RestartsDistinct(history: seq<End>)
    requires |history| > 0 && history[0].node.rxKey.None?
    requires forall i :: 0 <= i < |history| - 1 ==> Moves(history[i], history[i + 1])
    requires NeverStale(Boots(history))
    ensures Distinct(Restarts(history))
  {
    if |history| < 2 {
    } else {
      var rest := history[..|history| - 1];
      BootsFollowed(rest);
      var before, after := history[|history| - 2], history[|history| - 1];
      if |after.created| > |before.created| {
        assert Boots(history) == Boots(rest) + [after.node.peerBoot];
        NotStaleIsNew(Boots(rest), after.node.peerBoot);
      } else {
        assert Boots(history) == Boots(rest);
      }
      RestartsDistinct(rest);
      if StartsOver(before, after) {
        assert after.node.peerBoot !in Restarts(rest);
      }
    }
  }

  /**
   * The reconnect cascade ends: between two clears and without stale HELLOs, a node starts
   * its outbound session over at most once for each boot nonce of its peer.
   */
  lemma RestartsOncePerBoot(c: Crypto, history: seq<End>, ops: seq<Op>)
    requires Follows(c, history, ops) && NeverStale(Boots(history))
    ensures Distinct(Restarts(history))
  {
    HistoryMoves(c, history, ops);
    RestartsDistinct(history);
  }

  // ---------------------------------------------------------------- keys made since a clear

  /** Two keys were made for the same HELLO. */
  predicate SameRequest(k: SessionKey, l: SessionKey) {
    k.boot == l.boot && k.request == l.request
  }

  /** What one call may do to the receive key, seen from the HELLO it is made for. */
  predicate MovesKey(a: End, b: End) {
    var n, m := a.node, b.node;
    || (b.created == a.created && m.rxKey == n.rxKey && m.peerBoot == n.peerBoot && m.peerRequest == n.peerRequest)
    || (&& m.rxKey.Some? && b.created == a.created + [m.rxKey.value]
        && m.rxKey.value.boot == m.peerBoot && m.rxKey.value.request == m.peerRequest
        && (n.rxKey.Some? ==> m.peerBoot != n.peerBoot || m.peerRequest != n.peerRequest))
  }

  /** A repeated HELLO makes no key; every other one that is taken makes one for its own request. */
  lemma CallRekeys(c: Crypto, e: End, op: Op)
    requires KeepsSessions(op)
    ensures MovesKey(e, Advance(c, e, op).0)
  {
    if op.Receive? {
      DecodeRekeys(c, e.node, op.packet, op.decode);
    }
  }

  lemma DecodeRekeys(c: Crypto, n: Node, p: Packet, env: DecodeEnv)
    ensures
      var r := Decode(c, n, p, env);
      var m := r.node;
      || (r.created == [] && m.rxKey == n.rxKey && m.peerBoot == n.peerBoot && m.peerRequest == n.peerRequest)
      || (&& m.rxKey.Some? && r.created == [m.rxKey.value]
          && m.rxKey.value.boot == m.peerBoot && m.rxKey.value.request == m.peerRequest
          && (n.rxKey.Some? ==> m.peerBoot != n.peerBoot || m.peerRequest != n.peerRequest))
  {
    if IsControl(p.data) {
      if ControlAdmitted(n, p) && env.verifies && Verifies(c, n, p.data) && p.data[3] == HELLO {
        HelloRekeys(n, p.data[4..20], p.data[20..36], env.hello);
      }
    } else {
      DataMoves(c, n, p, env);
      DataKeepsPeer(c, n, p, env);
    }
  }

  lemma DataKeepsPeer(c: Crypto, n: Node, p: Packet, env: DecodeEnv)
    ensures
      var r := DecodeData(c, n, p, env);
      && r.node.rxKey == n.rxKey && r.node.peerBoot == n.peerBoot && r.node.peerRequest == n.peerRequest
      && r.created == []
  {
  }

  lemma HelloRekeys(n: Node, client: Nonce, request: Nonce, env: HelloEnv)
    requires n.master.Some?
    ensures
      var h := HelloReceived(n, client, request, env);
      var m := h.node;
      || (h.created == [] && m.rxKey == n.rxKey && m.peerBoot == n.peerBoot && m.peerRequest == n.peerRequest)
      || (&& m.rxKey.Some? && h.created == [m.rxKey.value] && m.peerBoot == client && m.peerRequest == request
          && m.rxKey.value.boot == client && m.rxKey.value.request == request
          && (n.rxKey.Some? ==> client != n.peerBoot || request != n.peerRequest))
  {
  }

  /** The keys a side made since the clear its history starts with. */
  function MadeSince(first: End, last: End): seq<SessionKey> {
    if |first.created| <= |last.created| then last.created[|first.created|..] else []
  }

  /** No two keys made in a row are for the same HELLO, and the last one is in use. */
  predicate RekeyInv(first: End, last: End) {
    var since, n := MadeSince(first, last), last.node;
    && |first.created| <= |last.created|
    && (forall j :: 0 < j < |since| ==> !SameRequest(since[j - 1], since[j]))
    && (if since == [] then n.rxKey.None?
        else n.rxKey == Some(since[|since| - 1]) &&
             n.rxKey.value.boot == n.peerBoot && n.rxKey.value.request == n.peerRequest)
  }

  lemma RekeyStep(first: End, a: End, b: End)
    requires RekeyInv(first, a) && MovesKey(a, b)
    ensures RekeyInv(first, b)
  {
    var since := MadeSince(first, a);
    if b.created != a.created {
      assert MadeSince(first, b) == since + [b.node.rxKey.value];
    }
  }

  /** Over a whole history between two clears each re-key answers a HELLO other than the last one answered. */
  lemma {:induction false} RekeysAreNew(c: Crypto, history: seq<End>, ops: seq<Op>, i: nat)
    requires Follows(c, history, ops) && i < |history|
    ensures RekeyInv(history[0], history[i])
  {
    if i == 0 {
    } else {
      RekeysAreNew(c, history, ops, i - 1);
      CallRekeys(c, history[i - 1], ops[i - 1]);
      RekeyStep(history[0], history[i - 1], history[i]);
    }
  }

  /** An older HELLO came back: the last key is for one answered before, with another in between. */
  predicate ComesBack(keys: seq<SessionKey>) {
    && |keys| > 0
    && exists i, j :: (0 <= i < j < |keys| - 1 && SameRequest(keys[i], keys[|keys| - 1])
                       && !SameRequest(keys[j], keys[|keys| - 1]))
  }

  /** Between two clears a HELLO gets a second key exactly when it comes back after another one. */
  lemma SecondKeyIffComesBack(first: End, last: End)
    requires RekeyInv(first, last)
    ensures
      var keys := MadeSince(first, last);
      ComesBack(keys) <==> exists i :: 0 <= i < |keys| - 1 && SameRequest(keys[i], keys[|keys| - 1])
  {
    var keys := MadeSince(first, last);
    if i :| 0 <= i < |keys| - 1 && SameRequest(keys[i], keys[|keys| - 1]) {
      assert !SameRequest(keys[i + 1 - 1], keys[i + 1]);
    }
  }
}
