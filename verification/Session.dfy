/**
 * The radio session protocol as functions on the state of one node: what each entry
 * point of radio_crypto.c makes of the state it finds. Every entry point holds
 * crypto_lock throughout, so each is one step. The class in module Radio is proved
 * to compute these functions; modules Link and Delivery prove what they achieve.
 */
module Session {
  import opened Prelude
  import opened ByteStrings
  import opened Wire
  import opened Primitives

  const RETRY_MS := 1000

  datatype Settings = Settings(key: Key, keySet: bool, enabled: bool, tx: bool, rx: bool)

  function DefaultSettings(): Settings {
    Settings(ZeroKey(), false, true, true, true)
  }

  /** What the build fixes: the two addresses and the CSP buffer budget. */
  datatype Config = Config(local: u16, peer: u16, bufferSize: nat, payloadMax: nat) {
    predicate Valid() {
      && local != peer
      && payloadMax + SECURE_OVERHEAD <= bufferSize < 0x1_0000
    }
  }

  datatype Status = Status(authenticated: u32, rejected: u32, replays: u32, lastError: Option<Errno>)

  /** The static variables of radio_crypto.c; a PSA key identifier is what the key was made from. */
  datatype Node = Node(
    config: Config,
    settings: Settings,
    status: Status,
    master: Option<Key>,
    txKey: Option<SessionKey>,
    rxKey: Option<SessionKey>,
    bootNonce: Nonce,
    requestNonce: Nonce,
    peerBoot: Nonce,
    peerRequest: Nonce,
    serverNonce: Nonce,
    txSequence: u64,
    rxSequence: u64,
    lastRequest: int,
    lastHello: int,
    initialized: bool,
    pending: bool)

  datatype Packet = Packet(id: Id, data: Bytes)

  /** An attempted encryption, or an accepted decryption (`ok` is then true). */
  datatype Seal = Seal(key: SessionKey, sequence: u64, id: Id, payload: Bytes, ok: bool)

  /** A handshake MAC that was computed. */
  datatype Signed = Signed(master: Key, control: Control)

  /** A random draw either yields a nonce or fails, leaving `left` in the buffer. */
  datatype Draw = Drawn(nonce: Nonce) | DrawFailed(left: Nonce)

  /** Everything outside the module that decides how a call goes. */
  datatype ConnectEnv = ConnectEnv(now: int, draw: Draw, signs: bool, sendError: Option<Errno>)
  datatype HelloEnv = HelloEnv(now: int, draw: Draw, derives: bool, signs: bool,
                               sendError: Option<Errno>, connect: ConnectEnv)
  datatype DecodeEnv = DecodeEnv(verifies: bool, hello: HelloEnv, derives: bool, opens: bool)
  datatype EncodeEnv = EncodeEnv(seals: bool, connect: ConnectEnv)
  datatype InitEnv = InitEnv(cryptoOk: bool, draw: Draw, loaded: Loaded, importOk: bool)

  /** What radio_crypto_store_load found. */
  datatype Loaded = Found(settings: Settings) | NotFound | LoadFailed(error: Errno)

  /** A handshake call: new state, result, MACs computed, receive keys created, send keys installed. */
  datatype Handled = Handled(node: Node, outcome: Outcome, signed: seq<Signed>,
                             created: seq<SessionKey>, installed: seq<SessionKey>)

  datatype Encoded = Encoded(node: Node, outcome: Outcome, data: Bytes,
                             signed: seq<Signed>, attempts: seq<Seal>)

  datatype Decoded = Decoded(node: Node, outcome: Outcome, data: Bytes,
                             signed: seq<Signed>, created: seq<SessionKey>,
                             installed: seq<SessionKey>, accepted: seq<Seal>)

  /** The state of a node at power-up, before initialisation. */
  function PowerUp(config: Config): Node {
    Node(config, DefaultSettings(), Status(0, 0, 0, None), None, None, None,
         ZeroNonce(), ZeroNonce(), ZeroNonce(), ZeroNonce(), ZeroNonce(),
         0, 0, -RETRY_MS, -RETRY_MS, false, false)
  }

  function ErrorOf(outcome: Outcome): Option<Errno> {
    if outcome.Failed? then Some(outcome.error) else None
  }

  function SendOutcome(error: Option<Errno>): Outcome {
    match error
    case None => Done
    case Some(e) => Failed(e)
  }

  /** A 32-bit counter of the status block: it wraps. */
  function Bump(x: u32): u32 {
    (x + 1) % 0x1_0000_0000
  }

  function ClearSessions(n: Node): Node {
    n.(txKey := None, rxKey := None, txSequence := 0, rxSequence := 0, pending := false,
       lastRequest := -RETRY_MS, lastHello := -RETRY_MS)
  }

  function ImportMaster(n: Node, importOk: bool): Node {
    ClearSessions(n).(master := if importOk then Some(n.settings.key) else None)
  }

  /** The key derive_key computes for one direction of the link. */
  function DirectionalKey(n: Node, boot: Nonce, request: Nonce, server: Nonce, transmit: bool): SessionKey
    requires n.master.Some?
  {
    SessionKey(n.master.value,
               if transmit then n.config.local else n.config.peer,
               if transmit then n.config.peer else n.config.local,
               boot, request, server)
  }

  function ConnectLocked(n: Node, env: ConnectEnv): Handled {
    if n.master.None? || !n.settings.enabled then
      Handled(n, Failed(EACCES), [], [], [])
    else if env.now - n.lastRequest < RETRY_MS then
      Handled(n, Failed(EAGAIN), [], [], [])
    else
      match env.draw
      case DrawFailed(left) =>
        Handled(n.(lastRequest := env.now, requestNonce := left), Failed(EIO), [], [], [])
      case Drawn(nonce) =>
        var asked := n.(lastRequest := env.now, requestNonce := nonce);
        if !env.signs then
          Handled(asked, Failed(EACCES), [], [], [])
        else
          Handled(asked.(pending := true), SendOutcome(env.sendError),
                  [Signed(n.master.value, Hello(n.config.local, n.config.peer, n.bootNonce, nonce))], [], [])
  }

  /** kfsw_radio_uhf_crypto_connect */
  function Connect(n: Node, env: ConnectEnv): Handled {
    var h := ConnectLocked(n, env);
    h.(node := h.node.(status := h.node.status.(lastError := ErrorOf(h.outcome))))
  }

  predicate IsNewBoot(n: Node, client: Nonce) {
    n.rxKey.None? || n.peerBoot != client
  }

  predicate IsDuplicate(n: Node, client: Nonce, request: Nonce) {
    !IsNewBoot(n, client) && n.peerRequest == request
  }

  /** Install a receive key for a HELLO, under a fresh server nonce. */
  function InstallReceive(n: Node, client: Nonce, request: Nonce, server: Nonce): Node
    requires n.master.Some?
  {
    n.(rxKey := Some(DirectionalKey(n, client, request, server, false)), rxSequence := 0,
       peerBoot := client, peerRequest := request, serverNonce := server)
  }

  /** The REPLY for the receive session in place, unless the MAC could not be computed. */
  function ReplySigned(n: Node, client: Nonce, request: Nonce, signs: bool): seq<Signed>
    requires n.master.Some?
  {
    if signs
    then [Signed(n.master.value, Reply(n.config.local, n.config.peer, client, request, n.serverNonce))]
    else []
  }

  /** Answer an accepted HELLO, and start over outbound when the peer restarted. */
  function Answer(n: Node, client: Nonce, request: Nonce, newBoot: bool, env: HelloEnv,
                  created: seq<SessionKey>): Handled
    requires n.master.Some?
  {
    var signed := ReplySigned(n, client, request, env.signs);
    var outcome := if env.signs then SendOutcome(env.sendError) else Failed(EACCES);
    if newBoot && !n.pending then
      var h := ConnectLocked(n.(txKey := None), env.connect);
      Handled(h.node, outcome, signed + h.signed, created, [])
    else
      Handled(n, outcome, signed, created, [])
  }

  function HelloReceived(n: Node, client: Nonce, request: Nonce, env: HelloEnv): Handled
    requires n.master.Some?
  {
    var newBoot := IsNewBoot(n, client);
    var duplicate := IsDuplicate(n, client, request);
    if !duplicate && env.now - n.lastHello < RETRY_MS then
      Handled(n, Failed(EAGAIN), [], [], [])
    else
      var seen := n.(lastHello := env.now);
      if duplicate then
        Answer(seen, client, request, newBoot, env, [])
      else
        match env.draw
        case DrawFailed(_) => Handled(seen, Failed(EIO), [], [], [])
        case Drawn(server) =>
          if !env.derives then
            Handled(seen, Failed(EIO), [], [], [])
          else
            Answer(InstallReceive(seen, client, request, server), client, request, newBoot, env,
                   [DirectionalKey(n, client, request, server, false)])
  }

  function ReplyReceived(n: Node, boot: Nonce, request: Nonce, server: Nonce, derives: bool): Handled
    requires n.master.Some?
  {
    if !n.pending || boot != n.bootNonce || request != n.requestNonce then
      Handled(n, Failed(EALREADY), [], [], [])
    else if !derives then
      Handled(n, Failed(EIO), [], [], [])
    else
      var k := DirectionalKey(n, n.bootNonce, n.requestNonce, server, true);
      Handled(n.(txKey := Some(k), txSequence := 0, pending := false), Done, [], [], [k])
  }

  function ControlSize(kind: u8): nat {
    if kind == HELLO then HELLO_BYTES else REPLY_BYTES
  }

  /** The first four bytes of a frame of this protocol version. */
  predicate IsControl(data: Bytes) {
    |data| >= 4 && data[0] == 0x4B && data[1] == 0x52 && data[2] == 1 && (data[3] == HELLO || data[3] == REPLY)
  }

  /** Whether the MAC of a received control frame holds under the node's master key. */
  predicate Verifies(c: Crypto, n: Node, data: Bytes)
    requires n.master.Some? && |data| >= MAC_BYTES
  {
    c.mac(n.master.value, Header(ControlId(n.config.peer, n.config.local)) + data[..|data| - MAC_BYTES])
      == data[|data| - MAC_BYTES..]
  }

  /** The checks control_received makes before it looks at the MAC. */
  predicate ControlAdmitted(n: Node, p: Packet)
    requires IsControl(p.data)
  {
    && |p.data| == ControlSize(p.data[3])
    && p.id == ControlId(n.config.peer, n.config.local)
    && n.master.Some? && n.settings.enabled
  }

  function ControlReceived(c: Crypto, n: Node, p: Packet, env: DecodeEnv): Handled
    requires IsControl(p.data)
  {
    if !ControlAdmitted(n, p) || !env.verifies || !Verifies(c, n, p.data) then
      Handled(n, Failed(EACCES), [], [], [])
    else if p.data[3] == HELLO then
      HelloReceived(n, p.data[4..20], p.data[20..36], env.hello)
    else
      ReplyReceived(n, p.data[4..20], p.data[20..36], p.data[36..52], env.derives)
  }

  /** encode up to its common exit. */
  function Protect(c: Crypto, n: Node, p: Packet, env: EncodeEnv): Encoded {
    if !n.settings.enabled || !n.settings.tx then
      Encoded(n, Done, p.data, [], [])
    else if n.txKey.None? then
      var h := ConnectLocked(n, env.connect);
      Encoded(h.node, Failed(EAGAIN), p.data, h.signed, [])
    else if |p.data| > n.config.payloadMax then
      Encoded(n, Failed(EMSGSIZE), p.data, [], [])
    else if n.txSequence == U64_MAX then
      Encoded(n, Failed(EOVERFLOW), p.data, [], [])
    else
      var sequence := n.txSequence + 1;
      var ok := env.seals && |p.data| + TAG_BYTES <= n.config.bufferSize - DATA_HEADER - 4;
      var attempt := Seal(n.txKey.value, sequence, p.id, p.data, ok);
      Encoded(n.(txSequence := sequence),
              if ok then Done else Failed(EIO),
              if ok then DataPrefix(sequence) + SealBytes(c, n.config.local, attempt) else p.data,
              [], [attempt])
  }

  /** The codec's encode: what happened is remembered as the last error. */
  function Encode(c: Crypto, n: Node, p: Packet, env: EncodeEnv): Encoded {
    var r := Protect(c, n, p, env);
    r.(node := r.node.(status := r.node.status.(lastError := ErrorOf(r.outcome))))
  }

  /** The ciphertext and tag AES-GCM makes of an attempt by the node at address `sender`. */
  function SealBytes(c: Crypto, sender: u16, s: Seal): Bytes {
    c.seal(c.Material(s.key), AeadNonce(sender, s.sequence), Aad(s.id, DataPrefix(s.sequence)), s.payload)
  }

  predicate IsData(data: Bytes) {
    |data| >= DATA_HEADER + TAG_BYTES && data[0] == 0x4B && data[1] == 0x52 && data[2] == 1 && data[3] == DATA
  }

  function SequenceOf(data: Bytes): u64
    requires |data| >= DATA_HEADER
  {
    WritesBack(data[4..12]);
    Widths();
    FromBigEndian(data[4..12])
  }

  /** What decryption under the receive key yields for a data frame. */
  function Opened(c: Crypto, n: Node, p: Packet): Option<Bytes>
    requires IsData(p.data) && n.rxKey.Some?
  {
    c.open(c.Material(n.rxKey.value), AeadNonce(n.config.peer, SequenceOf(p.data)),
           Aad(p.id, p.data[..DATA_HEADER]), p.data[DATA_HEADER..])
  }

  /** The end of decode: errors are counted, and only errors are remembered. */
  function Settle(n: Node, outcome: Outcome): Node {
    if outcome.Failed? then
      n.(status := n.status.(rejected := Bump(n.status.rejected), lastError := Some(outcome.error)))
    else
      n
  }

  function Refused(n: Node, error: Errno, data: Bytes): Decoded {
    Decoded(n, Failed(error), data, [], [], [], [])
  }

  /** The codec's decode up to its common exit. */
  function Dispatch(c: Crypto, n: Node, p: Packet, env: DecodeEnv): Decoded {
    if IsControl(p.data) then DecodeControl(c, n, p, env) else DecodeData(c, n, p, env)
  }

  /** The codec's decode. */
  function Decode(c: Crypto, n: Node, p: Packet, env: DecodeEnv): Decoded {
    var r := Dispatch(c, n, p, env);
    r.(node := Settle(r.node, r.outcome))
  }

  /** The branch of decode for handshake frames; a handled one never reaches the application. */
  function DecodeControl(c: Crypto, n: Node, p: Packet, env: DecodeEnv): Decoded
    requires IsControl(p.data)
  {
    var h := ControlReceived(c, n, p, env);
    Decoded(h.node, if h.outcome == Done then Consumed else h.outcome, p.data, h.signed, h.created, h.installed, [])
  }

  /** The branch of decode for everything else. */
  function DecodeData(c: Crypto, n: Node, p: Packet, env: DecodeEnv): Decoded {
    var framed := |p.data| >= 4 && p.data[0] == 0x4B && p.data[1] == 0x52;
    if !n.settings.enabled || !n.settings.rx then
      if framed then Refused(n, EACCES, p.data) else Decoded(n, Done, p.data, [], [], [], [])
    else if !IsData(p.data) || n.rxKey.None? then
      Refused(n, EACCES, p.data)
    else
      var plain := Opened(c, n, p);
      if !env.opens || plain.None? || |plain.value| > n.config.bufferSize then
        Refused(n, EACCES, p.data)
      else if SequenceOf(p.data) <= n.rxSequence then
        Refused(n.(status := n.status.(replays := Bump(n.status.replays))), EALREADY, p.data)
      else
        Decoded(Advanced(n, SequenceOf(p.data)), Done, plain.value, [], [], [],
                [Seal(n.rxKey.value, SequenceOf(p.data), p.id, plain.value, true)])
  }

  /** An accepted frame moves the receive counter and is counted. */
  function Advanced(n: Node, sequence: u64): Node {
    n.(rxSequence := sequence, status := n.status.(authenticated := Bump(n.status.authenticated)))
  }

  /** kfsw_radio_uhf_crypto_init, from the point where it holds the lock. */
  function Init(n: Node, env: InitEnv): (Node, Outcome) {
    var (m, outcome) := LoadAndStart(n, env);
    (m.(initialized := true, status := m.status.(lastError := ErrorOf(outcome))), outcome)
  }

  /** The part of initialisation that can fail. */
  function LoadAndStart(n: Node, env: InitEnv): (Node, Outcome) {
    if !env.cryptoOk then
      (n, Failed(EIO))
    else if env.draw.DrawFailed? then
      (n.(bootNonce := env.draw.left), Failed(EIO))
    else
      var booted := n.(bootNonce := env.draw.nonce);
      match env.loaded
      case LoadFailed(error) => (booted, Failed(error))
      case NotFound => FinishInit(booted, env.importOk)
      case Found(settings) => FinishInit(booted.(settings := settings), env.importOk)
  }

  /** The last step of a successful load: the key goes to the crypto library if there is one. */
  function FinishInit(n: Node, importOk: bool): (Node, Outcome) {
    if !n.settings.keySet then (n, Done)
    else (ImportMaster(n, importOk), if importOk then Done else Failed(EIO))
  }

  /** The locked half of save_settings, after the draw and the file write succeeded. */
  function Commit(n: Node, next: Settings, boot: Nonce, changedKey: bool, importOk: bool): Node {
    var cleared := ClearSessions(n.(settings := next, bootNonce := boot));
    var m := if changedKey then ImportMaster(cleared, importOk) else cleared;
    var outcome := if changedKey && !importOk then Failed(EIO) else Done;
    m.(status := m.status.(lastError := ErrorOf(outcome)))
  }

  /** The locked half of save_settings, after the draw or the file write failed. */
  function CommitFailed(n: Node, error: Errno): Node {
    n.(status := n.status.(lastError := Some(error)))
  }
}
