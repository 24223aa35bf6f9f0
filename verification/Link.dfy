/**
 * Two nodes and a hostile link. A run is a sequence of events, each one call of an
 * entry point on one side; the link hands a node any packet it likes, as often and in
 * any order it likes, except one that would be a forgery.
 */
module Link {
  import opened Prelude
  import opened Wire
  import opened Primitives
  import opened Session

  datatype Side = Left | Right {
    function Other(): Side {
      if Left? then Right else Left
    }
  }

  /**
   * One side of the link: its state, and what it ever did, which no reset erases. `created`
   * lists the receive keys it made, `installed` the send keys it took from REPLYs, `attempts`
   * the encryptions it ran and `accepted` the data frames it authenticated, each in the order
   * in which they happened.
   */
  datatype End = End(node: Node, created: seq<SessionKey>, installed: seq<SessionKey>,
                     attempts: seq<Seal>, accepted: seq<Seal>)

  /** The world also remembers which nonces ever existed and which MACs were ever computed. */
  datatype World = World(left: End, right: End, used: set<Nonce>, signed: set<Signed>) {
    function At(side: Side): End {
      if side.Left? then left else right
    }
  }

  datatype Op =
    | PowerCycle
    | Initialise(init: InitEnv)
    | Ask(connect: ConnectEnv)
    | Transmit(packet: Packet, encode: EncodeEnv)
    | Receive(packet: Packet, decode: DecodeEnv)
    | Apply(next: Settings, boot: Nonce, changedKey: bool, importOk: bool)
    | Reject(error: Errno)

  datatype Event = Event(side: Side, op: Op)

  function Start(leftConfig: Config): World {
    var rightConfig := leftConfig.(local := leftConfig.peer, peer := leftConfig.local);
    World(End(PowerUp(leftConfig), [], [], [], []), End(PowerUp(rightConfig), [], [], [], []), {ZeroNonce()}, {})
  }

  function NoncesOf(draw: Draw): set<Nonce> {
    match draw
    case Drawn(nonce) => {nonce}
    case DrawFailed(left) => {left}
  }

  /** Every nonce an event may bring into the world. */
  function Draws(op: Op): set<Nonce> {
    match op
    case Initialise(env) => NoncesOf(env.draw)
    case Ask(env) => NoncesOf(env.draw)
    case Transmit(_, env) => NoncesOf(env.connect.draw)
    case Receive(_, env) => NoncesOf(env.hello.draw) + NoncesOf(env.hello.connect.draw)
    case Apply(_, boot, _, _) => {boot}
    case PowerCycle => {}
    case Reject(_) => {}
  }

  /** A drawn nonce never existed before; a failed draw leaves the buffer alone or fresh. */
  predicate FreshDraw(draw: Draw, buffer: Nonce, used: set<Nonce>) {
    match draw
    case Drawn(nonce) => nonce !in used
    case DrawFailed(left) => left == buffer || left !in used
  }

  predicate FreshDraws(n: Node, op: Op, used: set<Nonce>) {
    match op
    case Initialise(env) => FreshDraw(env.draw, n.bootNonce, used)
    case Ask(env) => FreshDraw(env.draw, n.requestNonce, used)
    case Transmit(_, env) => FreshDraw(env.connect.draw, n.requestNonce, used)
    case Receive(_, env) =>
      && FreshDraw(env.hello.draw, ZeroNonce(), used)
      && FreshDraw(env.hello.connect.draw, n.requestNonce, used)
      && (env.hello.draw.Drawn? && env.hello.connect.draw.Drawn? ==>
            env.hello.draw.nonce != env.hello.connect.draw.nonce)
    case Apply(_, boot, _, _) => boot !in used
    case PowerCycle => true
    case Reject(_) => true
  }

  /**
   * The link cannot forge: a control frame whose MAC the receiver would accept carries
   * bytes that one of the nodes signed under that master key, and a data frame the
   * receiver could decrypt is one of the nodes' own encryptions under that key.
   */
  ghost predicate Unforged(c: Crypto, w: World, n: Node, p: Packet) {
    && (IsControl(p.data) && ControlAdmitted(n, p) && Verifies(c, n, p.data) ==>
          exists s :: s in w.signed && s.master == n.master.value &&
                      MacInput(s.control) ==
                        Header(ControlId(n.config.peer, n.config.local)) + p.data[..|p.data| - MAC_BYTES])
    && (IsData(p.data) && n.rxKey.Some? && Opened(c, n, p).Some? ==>
          exists side, s :: s in w.At(side).attempts && s.ok && s.key == n.rxKey.value &&
                            s.payload == Opened(c, n, p).value &&
                            AeadNonce(w.At(side).node.config.local, s.sequence) ==
                              AeadNonce(n.config.peer, SequenceOf(p.data)) &&
                            Aad(s.id, DataPrefix(s.sequence)) == Aad(p.id, p.data[..DATA_HEADER]))
  }

  ghost predicate Enabled(c: Crypto, w: World, event: Event) {
    var n := w.At(event.side).node;
    && FreshDraws(n, event.op, w.used)
    && (event.op.Initialise? ==> !n.initialized)
    && (event.op.Apply? || event.op.Reject? ==> n.initialized)
    && (event.op.Receive? ==> Unforged(c, w, n, event.op.packet))
  }

  /** What an event does to the side it happens on. */
  function Advance(c: Crypto, e: End, op: Op): (End, seq<Signed>) {
    match op
    case PowerCycle => (e.(node := PowerUp(e.node.config)), [])
    case Initialise(env) => (e.(node := Init(e.node, env).0), [])
    case Ask(env) =>
      var h := Connect(e.node, env);
      (e.(node := h.node), h.signed)
    case Transmit(p, env) =>
      var r := Encode(c, e.node, p, env);
      (e.(node := r.node, attempts := e.attempts + r.attempts), r.signed)
    case Receive(p, env) =>
      var r := Decode(c, e.node, p, env);
      (e.(node := r.node, created := e.created + r.created, installed := e.installed + r.installed,
           accepted := e.accepted + r.accepted), r.signed)
    case Apply(next, boot, changedKey, importOk) =>
      (e.(node := Commit(e.node, next, boot, changedKey, importOk)), [])
    case Reject(error) => (e.(node := CommitFailed(e.node, error)), [])
  }

  function Step(c: Crypto, w: World, event: Event): World {
    var (e, signed) := Advance(c, w.At(event.side), event.op);
    var used := w.used + Draws(event.op);
    var all := w.signed + (set s | s in signed);
    if event.side.Left? then World(e, w.right, used, all) else World(w.left, e, used, all)
  }

  /** An enabled event leads from one world to the next. */
  ghost predicate Leads(c: Crypto, w: World, event: Event, next: World) {
    Enabled(c, w, event) && next == Step(c, w, event)
  }

  /** `worlds` lists the worlds around each event, from power-up. */
  ghost predicate IsRun(c: Crypto, config: Config, worlds: seq<World>, events: seq<Event>) {
    && |worlds| == |events| + 1
    && worlds[0] == Start(config)
    && forall i {:trigger events[i]} :: 0 <= i < |events| ==> Leads(c, worlds[i], events[i], worlds[i + 1])
  }
}
