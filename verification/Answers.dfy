/**
 * What each call of the radio module answers and leaves, guard by guard, in the order in which
 * the guards are tried; and, over whole runs, what the status counters count.
 */
module Answers {
  import opened Prelude
  import opened ByteStrings
  import opened Wire
  import opened Primitives
  import opened Session
  import opened Link
  import opened Channel

  // ---------------------------------------------------------------- asking

  /** A key is loaded and protection is on. */
  predicate Protected(n: Node) {
    n.master.Some? && n.settings.enabled
  }

  /**
   * An attempt to connect: refused without a key or protection, put off within a second of the
   * last one, and in every other case it closes the gate for a second, even if it then fails.
   */
  lemma ConnectAnswers(n: Node, env: ConnectEnv)
    ensures
      var h := ConnectLocked(n, env);
      var opens := Protected(n) && env.now - n.lastRequest >= 1000;
      var asks := opens && env.draw.Drawn? && env.signs;
      && h.outcome == (if !Protected(n) then Failed(EACCES)
                       else if !opens then Failed(EAGAIN)
                       else if env.draw.DrawFailed? then Failed(EIO)
                       else if !env.signs then Failed(EACCES)
                       else if env.sendError.Some? then Failed(env.sendError.value) else Done)
      && h.node == n.(lastRequest := if opens then env.now else n.lastRequest,
                      requestNonce := if !opens then n.requestNonce
                                      else match env.draw case Drawn(nonce) => nonce case DrawFailed(left) => left,
                      pending := n.pending || asks)
      && h.signed == (if asks
                      then [Signed(n.master.value, Hello(n.config.local, n.config.peer, n.bootNonce, env.draw.nonce))]
                      else [])
      && h.created == [] && h.installed == []
  {
  }

  /** After an attempt that passed the gate, whatever became of it, the next one passes exactly a second later. */
  lemma GateClosesForASecond(n: Node, first: ConnectEnv, second: ConnectEnv)
    requires Protected(n) && first.now - n.lastRequest >= 1000
    ensures
      var after := Connect(n, first).node;
      if second.now < first.now + 1000
      then Connect(after, second).outcome == Failed(EAGAIN) && Connect(after, second).signed == []
      else Connect(after, second).node.lastRequest == second.now
  {
    ConnectAnswers(n, first);
  }

  // ---------------------------------------------------------------- handshake frames

  /** What comes of starting over after a HELLO: dropping the send key, and asking if the gate is open. */
  function StartedOver(n: Node, env: ConnectEnv): seq<Signed> {
    if Protected(n) && env.now - n.lastRequest >= 1000 && env.draw.Drawn? && env.signs
    then [Signed(n.master.value, Hello(n.config.local, n.config.peer, n.bootNonce, env.draw.nonce))]
    else []
  }

  /**
   * A HELLO that is not the one last answered: put off within a second of the last one; without a
   * nonce or a key it only closes the gate; else it makes a key, and the REPLY goes out, before any
   * HELLO of its own. The answer is that of the REPLY.
   */
  lemma HelloAnswers(n: Node, client: Nonce, request: Nonce, env: HelloEnv)
    requires n.master.Some? && !(n.rxKey.Some? && n.peerBoot == client && n.peerRequest == request)
    ensures
      var h := HelloReceived(n, client, request, env);
      if env.now - n.lastHello < 1000 then
        h == Handled(n, Failed(EAGAIN), [], [], [])
      else if env.draw.DrawFailed? || !env.derives then
        h == Handled(n.(lastHello := env.now), Failed(EIO), [], [], [])
      else
        var server := env.draw.nonce;
        var key := SessionKey(n.master.value, n.config.peer, n.config.local, client, request, server);
        var reply := Reply(n.config.local, n.config.peer, client, request, server);
        var over := (n.rxKey.None? || n.peerBoot != client) && !n.pending;
        && h.outcome == (if !env.signs then Failed(EACCES)
                         else if env.sendError.Some? then Failed(env.sendError.value) else Done)
        && h.created == [key] && h.installed == []
        && h.signed == (if env.signs then [Signed(n.master.value, reply)] else []) +
                       (if over then StartedOver(n, env.connect) else [])
        && h.node == n.(rxKey := Some(key), rxSequence := 0, peerBoot := client, peerRequest := request,
                        serverNonce := server, lastHello := env.now,
                        txKey := if over then None else n.txKey,
                        pending := n.pending || (over && StartedOver(n, env.connect) != []),
                        lastRequest := h.node.lastRequest, requestNonce := h.node.requestNonce)
  {
    if env.now - n.lastHello >= 1000 && env.draw.Drawn? && env.derives {
      var m := InstallReceive(n.(lastHello := env.now), client, request, env.draw.nonce);
      ConnectAnswers(m.(txKey := None), env.connect);
    }
  }

  /** A REPLY brings a key up exactly when it is the one that is awaited; else it changes nothing at all. */
  lemma ReplyAnswers(n: Node, boot: Nonce, request: Nonce, server: Nonce, derives: bool)
    requires n.master.Some?
    ensures
      var h := ReplyReceived(n, boot, request, server, derives);
      var key := SessionKey(n.master.value, n.config.local, n.config.peer, boot, request, server);
      if !(n.pending && boot == n.bootNonce && request == n.requestNonce) then
        h == Handled(n, Failed(EALREADY), [], [], [])
      else if !derives then
        h == Handled(n, Failed(EIO), [], [], [])
      else
        h == Handled(n.(txKey := Some(key), txSequence := 0, pending := false), Done, [], [], [key])
  {
  }

  /** The status after a refusal. */
  function Rejected(s: Status, error: Errno): Status {
    s.(rejected := (s.rejected + 1) % 0x1_0000_0000, lastError := Some(error))
  }

  /** "KR", the version and a handshake kind. */
  predicate LooksLikeHandshake(data: Bytes) {
    |data| >= 4 && data[0] == 'K' as int && data[1] == 'R' as int && data[2] == 1 && (data[3] == 1 || data[3] == 2)
  }

  /** The length, the addresses and the MAC of a handshake frame are right, and it is asked for. */
  predicate IsProper(c: Crypto, n: Node, p: Packet)
    requires |p.data| >= 4
  {
    && |p.data| == (if p.data[3] == 1 then 68 else 84)
    && p.id == Id(n.config.peer, n.config.local, 0, 0, 0, 0)
    && Protected(n)
    && p.data[|p.data| - 32..] ==
         c.mac(n.master.value, Header(Id(n.config.peer, n.config.local, 0, 0, 0, 0)) + p.data[..|p.data| - 32])
  }

  /** A handshake frame that is not proper is refused and counted, and nothing else happens. */
  lemma ImproperHandshakeRefused(c: Crypto, n: Node, p: Packet, env: DecodeEnv)
    requires LooksLikeHandshake(p.data) && !(env.verifies && IsProper(c, n, p))
    ensures Decode(c, n, p, env) ==
            Decoded(n.(status := Rejected(n.status, EACCES)), Failed(EACCES), p.data, [], [], [], [])
  {
  }

  /** A proper one is handled by its fields; it never reaches the application, and only a failure is counted. */
  lemma ProperHandshakeHandled(c: Crypto, n: Node, p: Packet, env: DecodeEnv)
    requires LooksLikeHandshake(p.data) && env.verifies && IsProper(c, n, p)
    ensures
      var r := Decode(c, n, p, env);
      var h := if p.data[3] == 1 then HelloReceived(n, p.data[4..20], p.data[20..36], env.hello)
               else ReplyReceived(n, p.data[4..20], p.data[20..36], p.data[36..52], env.derives);
      && r.outcome == (if h.outcome == Done then Consumed else h.outcome)
      && r.data == p.data && r.accepted == []
      && r.signed == h.signed && r.created == h.created && r.installed == h.installed
      && r.node == (if h.outcome.Failed? then h.node.(status := Rejected(h.node.status, h.outcome.error)) else h.node)
  {
    if p.data[3] == 1 {
      HelloNeverConsumed(n, p.data[4..20], p.data[20..36], env.hello);
    }
  }

  lemma HelloNeverConsumed(n: Node, client: Nonce, request: Nonce, env: HelloEnv)
    requires n.master.Some?
    ensures !HelloReceived(n, client, request, env).outcome.Consumed?
  {
  }

  // ---------------------------------------------------------------- data frames

  /** What a data frame opens to, if it is one, there is a key for it and it authenticates. */
  function Opens(c: Crypto, n: Node, p: Packet, works: bool): Option<Bytes> {
    if works && |p.data| >= 28 && p.data[0] == 'K' as int && p.data[1] == 'R' as int && p.data[2] == 1 && p.data[3] == 0
       && n.rxKey.Some?
    then c.open(c.mac(n.rxKey.value.master, KdfContext(n.rxKey.value)),
                BigEndian(4, n.config.peer) + p.data[4..12], Header(p.id) + p.data[..12], p.data[12..])
    else None
  }

  lemma OpensIsOpened(c: Crypto, n: Node, p: Packet)
    requires IsData(p.data) && n.rxKey.Some?
    ensures Opens(c, n, p, true) == Opened(c, n, p)
  {
    WritesBack(p.data[4..12]);
  }

  /**
   * Everything that is no handshake frame. With protection or reception off it passes as it is,
   * unless it begins with "KR"; with both on it is refused unless it authenticates, refused and
   * counted as a replay unless it is newer than all before, and else handed over and counted.
   */
  lemma DataAnswers(c: Crypto, n: Node, p: Packet, env: DecodeEnv)
    requires !LooksLikeHandshake(p.data)
    ensures
      var r := Decode(c, n, p, env);
      var plain := Opens(c, n, p, env.opens);
      && r.signed == [] && r.created == [] && r.installed == []
      && if !n.settings.enabled || !n.settings.rx then
           if |p.data| >= 4 && p.data[0] == 'K' as int && p.data[1] == 'R' as int
           then r.outcome == Failed(EACCES) && r.node == n.(status := Rejected(n.status, EACCES)) && r.data == p.data
           else r.outcome == Done && r.node == n && r.data == p.data
         else if plain.None? || |plain.value| > n.config.bufferSize then
           r.outcome == Failed(EACCES) && r.node == n.(status := Rejected(n.status, EACCES)) && r.data == p.data
         else
           var sequence := FromBigEndian(p.data[4..12]);
           if sequence <= n.rxSequence then
             && r.outcome == Failed(EALREADY) && r.data == p.data
             && r.node == n.(status := Rejected(n.status.(replays := (n.status.replays + 1) % 0x1_0000_0000), EALREADY))
           else
             && r.outcome == Done && r.data == plain.value && r.node.rxSequence == sequence
             && r.node == n.(rxSequence := r.node.rxSequence,
                             status := n.status.(authenticated := (n.status.authenticated + 1) % 0x1_0000_0000))
  {
    if IsData(p.data) && n.rxKey.Some? {
      OpensIsOpened(c, n, p);
    }
  }

  // ---------------------------------------------------------------- sending

  /** What encode answers: nothing is sealed unless every guard passes, and a counter is used up by every attempt. */
  lemma EncodeAnswers(c: Crypto, n: Node, p: Packet, env: EncodeEnv)
    requires n.txKey.Some? || !n.settings.enabled || !n.settings.tx
    ensures
      var r := Encode(c, n, p, env);
      var on := n.settings.enabled && n.settings.tx;
      var tries := on && |p.data| <= n.config.payloadMax && n.txSequence < 0xFFFF_FFFF_FFFF_FFFF;
      var fits := |p.data| + 16 <= n.config.bufferSize - 16;
      && r.signed == []
      && r.outcome == (if !on then Done
                       else if |p.data| > n.config.payloadMax then Failed(EMSGSIZE)
                       else if !tries then Failed(EOVERFLOW)
                       else if env.seals && fits then Done else Failed(EIO))
      && (!tries || r.outcome != Done ==> r.data == p.data)
      && |r.attempts| == (if tries then 1 else 0)
      && r.node == n.(txSequence := if tries then n.txSequence + 1 else n.txSequence,
                      status := n.status.(lastError := if r.outcome.Failed? then Some(r.outcome.error) else None))
  {
  }

  /** Without a send key, encode only asks for one, and says so, whatever became of asking. */
  lemma EncodeWithoutKey(c: Crypto, n: Node, p: Packet, env: EncodeEnv)
    requires n.settings.enabled && n.settings.tx && n.txKey.None?
    ensures
      var r := Encode(c, n, p, env);
      var h := ConnectLocked(n, env.connect);
      && r.outcome == Failed(EAGAIN) && r.data == p.data && r.attempts == [] && r.signed == h.signed
      && r.node == h.node.(status := n.status.(lastError := Some(EAGAIN)))
  {
    ConnectAnswers(n, env.connect);
  }

  // ---------------------------------------------------------------- starting

  /**
   * Initialisation: a boot nonce, then the settings file, then the key. Whatever fails, the node
   * counts as initialised, remembers the error, and has no master key unless it was imported.
   */
  lemma InitAnswers(config: Config, env: InitEnv)
    ensures
      var (n, outcome) := Init(PowerUp(config), env);
      var drawn := env.cryptoOk && env.draw.Drawn?;
      var settings := if drawn && env.loaded.Found? then env.loaded.settings else DefaultSettings();
      var imports := drawn && !env.loaded.LoadFailed? && settings.keySet;
      && outcome == (if !drawn then Failed(EIO)
                     else if env.loaded.LoadFailed? then Failed(env.loaded.error)
                     else if imports && !env.importOk then Failed(EIO) else Done)
      && n == PowerUp(config).(
                initialized := true,
                settings := settings,
                bootNonce := n.bootNonce,
                master := if imports && env.importOk then Some(settings.key) else None,
                status := Status(0, 0, 0, if outcome.Failed? then Some(outcome.error) else None))
      && (drawn ==> n.bootNonce == env.draw.nonce)
  {
  }

  /** What a node starts with: protection on in both directions, and no key. */
  lemma StartsProtected(config: Config)
    ensures
      var n := PowerUp(config);
      && n.settings.enabled && n.settings.tx && n.settings.rx && !n.settings.keySet
      && n.master.None? && n.txKey.None? && n.rxKey.None? && !n.pending && !n.initialized
      && n.lastRequest == -1000 && n.lastHello == -1000
  {
  }

  // ---------------------------------------------------------------- the status counters

  /** What a side did since it was last switched on. */
  datatype Count = Count(authenticated: nat, rejected: nat, replays: nat, lastError: Option<Errno>)

  function ErrorIn(outcome: Outcome): Option<Errno> {
    if outcome.Failed? then Some(outcome.error) else None
  }

  /** One call, by what it answered. */
  function CountedCall(c: Crypto, e: End, op: Op, count: Count): Count {
    match op
    case PowerCycle => Count(0, 0, 0, None)
    case Initialise(env) => count.(lastError := ErrorIn(Init(e.node, env).1))
    case Ask(env) => count.(lastError := ErrorIn(Connect(e.node, env).outcome))
    case Transmit(p, env) => count.(lastError := ErrorIn(Encode(c, e.node, p, env).outcome))
    case Receive(p, env) =>
      var r := Decode(c, e.node, p, env);
      Count(count.authenticated + |r.accepted|,
            count.rejected + (if r.outcome.Failed? then 1 else 0),
            count.replays + (if r.outcome == Failed(EALREADY) && !LooksLikeHandshake(p.data) then 1 else 0),
            if r.outcome.Failed? then Some(r.outcome.error) else count.lastError)
    case Apply(_, _, changedKey, importOk) => count.(lastError := if changedKey && !importOk then Some(EIO) else None)
    case Reject(error) => count.(lastError := Some(error))
  }

  function CountAt(c: Crypto, worlds: seq<World>, events: seq<Event>, at: nat, side: Side): Count
    requires at <= |events| < |worlds|
  {
    if at == 0 then Count(0, 0, 0, None)
    else
      var before := CountAt(c, worlds, events, at - 1, side);
      if events[at - 1].side == side then CountedCall(c, worlds[at - 1].At(side), events[at - 1].op, before) else before
  }

  /** The status shows the count, in 32 bits. */
  predicate Shows(s: Status, count: Count) {
    && s.authenticated == count.authenticated % 0x1_0000_0000
    && s.rejected == count.rejected % 0x1_0000_0000
    && s.replays == count.replays % 0x1_0000_0000
    && s.lastError == count.lastError
  }

  lemma BumpCounts(x: u32, count: nat)
    requires x == count % 0x1_0000_0000
    ensures (x + 1) % 0x1_0000_0000 == (count + 1) % 0x1_0000_0000
  {
  }

  lemma CallShows(c: Crypto, e: End, op: Op, count: Count)
    requires Shows(e.node.status, count)
    ensures Shows(Advance(c, e, op).0.node.status, CountedCall(c, e, op, count))
  {
    match op
    case Receive(p, env) => ReceiveShows(c, e, p, env, count);
    case Transmit(p, env) => EncodeShows(c, e.node, p, env);
    case Ask(env) => ConnectAnswers(e.node, env);
    case Initialise(env) => InitShows(e.node, env);
    case _ =>
  }

  lemma ReceiveShows(c: Crypto, e: End, p: Packet, env: DecodeEnv, count: Count)
    requires Shows(e.node.status, count)
    ensures Shows(Decode(c, e.node, p, env).node.status, CountedCall(c, e, Receive(p, env), count))
  {
    DecodeShows(c, e.node, p, env);
    BumpCounts(e.node.status.authenticated, count.authenticated);
    BumpCounts(e.node.status.rejected, count.rejected);
    BumpCounts(e.node.status.replays, count.replays);
  }

  lemma DecodeShows(c: Crypto, n: Node, p: Packet, env: DecodeEnv)
    ensures
      var r := Decode(c, n, p, env);
      var replayed := r.outcome == Failed(EALREADY) && !LooksLikeHandshake(p.data);
      && |r.accepted| <= 1
      && r.node.status.authenticated ==
           (if r.accepted != [] then Bump(n.status.authenticated) else n.status.authenticated)
      && r.node.status.rejected == (if r.outcome.Failed? then Bump(n.status.rejected) else n.status.rejected)
      && r.node.status.replays == (if replayed then Bump(n.status.replays) else n.status.replays)
      && r.node.status.lastError == (if r.outcome.Failed? then Some(r.outcome.error) else n.status.lastError)
  {
    if LooksLikeHandshake(p.data) {
      HandshakeShows(c, n, p, env);
    } else {
      DataShows(c, n, p, env);
    }
  }

  lemma HandshakeShows(c: Crypto, n: Node, p: Packet, env: DecodeEnv)
    requires IsControl(p.data)
    ensures
      var r := Decode(c, n, p, env);
      && r.accepted == [] && (r.outcome.Failed? || r.outcome == Consumed)
      && r.node.status == if r.outcome.Failed? then Rejected(n.status, r.outcome.error) else n.status
  {
    if ControlAdmitted(n, p) && env.verifies && Verifies(c, n, p.data) && p.data[3] == HELLO {
      HelloKeepsStatus(n, p.data[4..20], p.data[20..36], env.hello);
    }
  }

  lemma HelloKeepsStatus(n: Node, client: Nonce, request: Nonce, env: HelloEnv)
    requires n.master.Some?
    ensures HelloReceived(n, client, request, env).node.status == n.status
    ensures !HelloReceived(n, client, request, env).outcome.Consumed?
  {
  }

  lemma DataShows(c: Crypto, n: Node, p: Packet, env: DecodeEnv)
    requires !LooksLikeHandshake(p.data)
    ensures
      var r := Decode(c, n, p, env);
      && |r.accepted| <= 1
      && (r.accepted != [] ==>
            r.outcome == Done && r.node.status == n.status.(authenticated := Bump(n.status.authenticated)))
      && (r.accepted == [] && r.outcome == Failed(EALREADY) ==>
            r.node.status == Rejected(n.status.(replays := Bump(n.status.replays)), EALREADY))
      && (r.accepted == [] && r.outcome.Failed? && r.outcome != Failed(EALREADY) ==>
            r.node.status == Rejected(n.status, r.outcome.error))
      && (r.accepted == [] && !r.outcome.Failed? ==> r.node.status == n.status)
  {
  }

  lemma EncodeShows(c: Crypto, n: Node, p: Packet, env: EncodeEnv)
    ensures
      var r := Encode(c, n, p, env);
      r.node.status == n.status.(lastError := ErrorIn(r.outcome))
  {
  }

  lemma InitShows(n: Node, env: InitEnv)
    ensures Init(n, env).0.status == n.status.(lastError := ErrorIn(Init(n, env).1))
  {
  }

  /**
   * The status agrees with history: in every run each side's counters are the frames it
   * authenticated, the calls it refused and the replays it saw since it was last switched on,
   * modulo 2^32, and the last error is that of the last call that sets one.
   */
  lemma {:induction false} StatusAgreesWithHistory(c: Crypto, config: Config, worlds: seq<World>, events: seq<Event>,
                                                   at: nat, side: Side)
    requires IsRun(c, config, worlds, events) && at <= |events|
    ensures Shows(worlds[at].At(side).node.status, CountAt(c, worlds, events, at, side))
  {
    if at == 0 {
    } else {
      StatusAgreesWithHistory(c, config, worlds, events, at - 1, side);
      assert Leads(c, worlds[at - 1], events[at - 1], worlds[at]);
      if events[at - 1].side == side {
        CallShows(c, worlds[at - 1].At(side), events[at - 1].op, CountAt(c, worlds, events, at - 1, side));
      }
    }
  }
}
