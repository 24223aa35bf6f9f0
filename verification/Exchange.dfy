/**
 * The first exchange of two nodes that know nothing of each other, and the one after it:
 * when both directions of the link are up.
 */
module Exchange {
  import opened Prelude
  import opened Wire
  import opened Primitives
  import opened Session
  import opened Handshake

  /** The HELLO a node has asked with, and the REPLY for the receive key it holds. */
  function HelloOf(n: Node): Control {
    Hello(n.config.local, n.config.peer, n.bootNonce, n.requestNonce)
  }

  function ReplyOf(n: Node): Control {
    Reply(n.config.local, n.config.peer, n.peerBoot, n.peerRequest, n.serverNonce)
  }

  /** The node after its decode was handed this message, signed under its own master key. */
  function Handed(c: Crypto, n: Node, m: Control, env: DecodeEnv): Node {
    if n.master.None? then n else Decode(c, n, FramePacket(c, n.master.value, m), env).node
  }

  /** The status of a node plays no part in the protocol. */
  predicate SameButStatus(n: Node, m: Node) {
    n == m.(status := n.status)
  }

  /** A HELLO in its frame is handled as hello_received handles its fields. */
  lemma HelloHanded(c: Crypto, n: Node, m: Control, env: DecodeEnv)
    requires n.master.Some? && n.settings.enabled && env.verifies
    requires m.Hello? && m.src == n.config.peer && m.dst == n.config.local
    ensures
      var r := Decode(c, n, FramePacket(c, n.master.value, m), env);
      var h := HelloReceived(n, m.boot, m.request, env.hello);
      && r.node == Settle(h.node, if h.outcome == Done then Consumed else h.outcome)
      && r.signed == h.signed && r.created == h.created && r.installed == [] && r.accepted == []
  {
    SignedIsVerified(c, n, m);
    HelloInstallsNothing(n, m.boot, m.request, env.hello);
  }

  lemma HelloInstallsNothing(n: Node, client: Nonce, request: Nonce, env: HelloEnv)
    requires n.master.Some?
    ensures HelloReceived(n, client, request, env).installed == []
  {
  }

  /** A REPLY in its frame is handled as its fields say. */
  lemma ReplyHanded(c: Crypto, n: Node, m: Control, env: DecodeEnv)
    requires n.master.Some? && n.settings.enabled && env.verifies
    requires m.Reply? && m.src == n.config.peer && m.dst == n.config.local
    ensures
      var r := Decode(c, n, FramePacket(c, n.master.value, m), env);
      var h := ReplyReceived(n, m.boot, m.request, m.server, env.derives);
      && r.node == Settle(h.node, if h.outcome == Done then Consumed else h.outcome)
      && r.signed == [] && r.created == [] && r.installed == h.installed && r.accepted == []
  {
    SignedIsVerified(c, n, m);
  }

  /** The key of the request of `asker` under the nonce of `answerer`. */
  function KeyFor(asker: Node, answerer: Node): SessionKey
    requires asker.master.Some?
  {
    DirectionalKey(asker, asker.bootNonce, asker.requestNonce, answerer.serverNonce, true)
  }

  /** Two nodes on the same link, with the same key and protection on. */
  predicate Paired(x: Node, y: Node) {
    && x.config.local == y.config.peer && x.config.peer == y.config.local
    && x.master.Some? && x.master == y.master
    && x.settings.enabled && y.settings.enabled
  }

  /** The send keys of both nodes are the receive keys of the other. */
  predicate BothUp(x: Node, y: Node) {
    && x.txKey.Some? && x.txKey == y.rxKey
    && y.txKey.Some? && y.txKey == x.rxKey
  }

  /** The direction from `y` is up, and `y` knows the present boot of `x`. */
  predicate HalfUp(x: Node, y: Node) {
    && y.txKey.Some? && y.txKey == x.rxKey
    && y.rxKey.Some? && y.peerBoot == x.bootNonce
  }

  // ---------------------------------------------------------------- the first exchange

  /** What the outside answers in a first exchange, and which of the two frames of `y` comes first to `x`. */
  datatype Course = Course(
    ask: ConnectEnv,         // x asks
    answer: DecodeEnv,       // y takes the HELLO of x, answers it and asks in turn
    complete: DecodeEnv,     // x takes the REPLY of y
    greet: DecodeEnv,        // x takes the HELLO of y and answers it
    settle: DecodeEnv,       // y takes the REPLY of x
    helloFirst: bool)

  predicate GoesWell(env: HelloEnv) {
    env.now >= 0 && env.draw.Drawn? && env.derives && env.signs
  }

  predicate AsksWell(env: ConnectEnv) {
    env.now >= 0 && env.draw.Drawn? && env.signs
  }

  /** Nothing fails; whether `x` gets to ask again when it is greeted is left open. */
  predicate Smooth(e: Course) {
    && AsksWell(e.ask)
    && e.answer.verifies && GoesWell(e.answer.hello) && AsksWell(e.answer.hello.connect)
    && e.complete.verifies && e.complete.derives
    && e.greet.verifies && GoesWell(e.greet.hello)
    && e.settle.verifies && e.settle.derives
  }

  function Asked(x: Node, e: Course): Node {
    ConnectLocked(x, e.ask).node
  }

  function Answered(c: Crypto, x: Node, y: Node, e: Course): Node {
    Handed(c, y, HelloOf(Asked(x, e)), e.answer)
  }

  /** The asker when both frames of `y` have come. */
  function Greeted(c: Crypto, x: Node, y: Node, e: Course): Node {
    var asked, answered := Asked(x, e), Answered(c, x, y, e);
    if e.helloFirst
    then Handed(c, Handed(c, asked, HelloOf(answered), e.greet), ReplyOf(answered), e.complete)
    else Handed(c, Handed(c, asked, ReplyOf(answered), e.complete), HelloOf(answered), e.greet)
  }

  /** The answerer when the REPLY of `x` has come as well. */
  function Settled(c: Crypto, x: Node, y: Node, e: Course): Node {
    Handed(c, Answered(c, x, y, e), ReplyOf(Greeted(c, x, y, e)), e.settle)
  }

  /** The answerer makes a key for the request, and asks in turn. */
  lemma FirstAnswer(c: Crypto, x: Node, y: Node, e: Course)
    requires Paired(x, y) && x == ClearSessions(x) && y == ClearSessions(y) && Smooth(e)
    ensures
      var a, b := Asked(x, e), Answered(c, x, y, e);
      && a == x.(lastRequest := e.ask.now, requestNonce := e.ask.draw.nonce, pending := true)
      && SameButStatus(b, y.(rxKey := Some(KeyFor(a, b)), peerBoot := a.bootNonce, peerRequest := a.requestNonce,
                             serverNonce := e.answer.hello.draw.nonce, lastHello := e.answer.hello.now,
                             lastRequest := e.answer.hello.connect.now,
                             requestNonce := e.answer.hello.connect.draw.nonce, pending := true))
      && Signed(x.master.value, HelloOf(a)) in ConnectLocked(x, e.ask).signed
      && Signed(y.master.value, ReplyOf(b)) in Decode(c, y, FramePacket(c, y.master.value, HelloOf(a)), e.answer).signed
      && Signed(y.master.value, HelloOf(b)) in Decode(c, y, FramePacket(c, y.master.value, HelloOf(a)), e.answer).signed
  {
    HelloHanded(c, y, HelloOf(Asked(x, e)), e.answer);
  }

  /** `b` has made a key for the request that `a` waits for. */
  predicate HasAnswered(b: Node, a: Node) {
    && a.master.Some? && b.rxKey == Some(KeyFor(a, b))
    && b.peerBoot == a.bootNonce && b.peerRequest == a.requestNonce
  }

  /** The REPLY that a node waits for brings its direction up, and changes nothing else. */
  lemma ReplyCompletes(c: Crypto, a: Node, b: Node, env: DecodeEnv)
    requires Paired(a, b) && a.pending && HasAnswered(b, a) && env.verifies && env.derives
    ensures Handed(c, a, ReplyOf(b), env) == a.(txKey := b.rxKey, txSequence := 0, pending := false)
  {
    ReplyHanded(c, a, ReplyOf(b), env);
  }

  lemma NewHelloAnswered(n: Node, client: Nonce, request: Nonce, env: HelloEnv)
    requires n.master.Some? && IsNewBoot(n, client) && GoesWell(env) && env.now - n.lastHello >= RETRY_MS
    ensures
      var h := HelloReceived(n, client, request, env);
      var d := h.node;
      && d.config == n.config && d.master == n.master && d.settings == n.settings && d.bootNonce == n.bootNonce
      && d.rxKey == Some(DirectionalKey(n, client, request, d.serverNonce, false))
      && d.peerBoot == client && d.peerRequest == request
      && (if n.pending then d.pending && d.txKey == n.txKey && d.requestNonce == n.requestNonce else d.txKey.None?)
      && Signed(n.master.value, ReplyOf(d)) in h.signed
  {
  }

  /**
   * A HELLO from a boot not seen before makes a key and is answered; it leaves the send key
   * alone if a request is pending, and drops it if not.
   */
  lemma NewHelloGreets(c: Crypto, a: Node, b: Node, env: DecodeEnv)
    requires Paired(a, b) && IsNewBoot(a, b.bootNonce) && env.verifies && GoesWell(env.hello)
    requires env.hello.now - a.lastHello >= RETRY_MS
    ensures
      var d := Handed(c, a, HelloOf(b), env);
      && Paired(d, b) && HasAnswered(d, b) && d.bootNonce == a.bootNonce
      && (if a.pending then d.pending && d.txKey == a.txKey && d.requestNonce == a.requestNonce else d.txKey.None?)
      && Signed(a.master.value, ReplyOf(d)) in Decode(c, a, FramePacket(c, a.master.value, HelloOf(b)), env).signed
  {
    HelloHanded(c, a, HelloOf(b), env);
    NewHelloAnswered(a, b.bootNonce, b.requestNonce, env.hello);
  }

  /**
   * When the first exchange brings both directions up. Two nodes whose sessions were cleared,
   * with nothing lost and nothing failing: the direction from the answerer always comes up; the
   * asker's own comes up with the REPLY, but the answerer's HELLO takes it down again, so both are up
   * if and only if that HELLO overtakes the REPLY it was sent after.
   */
  lemma FirstExchange(c: Crypto, x: Node, y: Node, e: Course)
    requires Paired(x, y) && x == ClearSessions(x) && y == ClearSessions(y) && Smooth(e)
    ensures
      var x', y' := Greeted(c, x, y, e), Settled(c, x, y, e);
      && Paired(x', y') && HalfUp(x', y')
      && (BothUp(x', y') <==> e.helloFirst)
    ensures !e.helloFirst ==>
      var completed := Handed(c, Asked(x, e), ReplyOf(Answered(c, x, y, e)), e.complete);
      && completed.txKey.Some? && completed.txKey == Answered(c, x, y, e).rxKey
      && Greeted(c, x, y, e).txKey.None?
  {
    FirstAnswer(c, x, y, e);
    var asked, answered := Asked(x, e), Answered(c, x, y, e);
    if e.helloFirst {
      NewHelloGreets(c, asked, answered, e.greet);
      ReplyCompletes(c, Handed(c, asked, HelloOf(answered), e.greet), answered, e.complete);
    } else {
      ReplyCompletes(c, asked, answered, e.complete);
      NewHelloGreets(c, Handed(c, asked, ReplyOf(answered), e.complete), answered, e.greet);
    }
    ReplyCompletes(c, answered, Greeted(c, x, y, e), e.settle);
  }

  // ---------------------------------------------------------------- one more

  /** What the outside answers in a further exchange. */
  datatype Sequel = Sequel(ask: ConnectEnv, answer: DecodeEnv, complete: DecodeEnv)

  /** The asker waits for a reply already, having asked again when it was greeted, or asks now. */
  function AskedAgain(x: Node, f: Sequel): Node {
    if x.pending then x else ConnectLocked(x, f.ask).node
  }

  function AnsweredAgain(c: Crypto, x: Node, y: Node, f: Sequel): Node {
    Handed(c, y, HelloOf(AskedAgain(x, f)), f.answer)
  }

  function CompletedAgain(c: Crypto, x: Node, y: Node, f: Sequel): Node {
    Handed(c, AskedAgain(x, f), ReplyOf(AnsweredAgain(c, x, y, f)), f.complete)
  }

  /** Nothing fails, both gates are open, and the request is not the one before. */
  predicate SmoothAgain(x: Node, y: Node, f: Sequel) {
    && (!x.pending ==> f.ask.now - x.lastRequest >= RETRY_MS && f.ask.draw.Drawn? && f.ask.signs)
    && AskedAgain(x, f).requestNonce != y.peerRequest
    && f.answer.verifies && GoesWell(f.answer.hello) && f.answer.hello.now - y.lastHello >= RETRY_MS
    && f.complete.verifies && f.complete.derives
  }

  lemma KnownHelloAnswered(n: Node, request: Nonce, env: HelloEnv)
    requires n.master.Some? && n.rxKey.Some? && n.peerRequest != request && GoesWell(env)
    requires env.now - n.lastHello >= RETRY_MS
    ensures
      var d := HelloReceived(n, n.peerBoot, request, env).node;
      && d.config == n.config && d.txKey == n.txKey
      && d.rxKey == Some(DirectionalKey(n, n.peerBoot, request, d.serverNonce, false))
      && d.peerBoot == n.peerBoot && d.peerRequest == request && d.master == n.master && d.settings == n.settings
      && Signed(n.master.value, ReplyOf(d)) in HelloReceived(n, n.peerBoot, request, env).signed
  {
  }

  /**
   * From any state in which the other direction is up and the answerer knows the asker's boot,
   * one exchange brings both up, and makes a new key for the asker's direction.
   */
  lemma FurtherExchange(c: Crypto, x: Node, y: Node, f: Sequel)
    requires Paired(x, y) && HalfUp(x, y) && SmoothAgain(x, y, f)
    ensures BothUp(CompletedAgain(c, x, y, f), AnsweredAgain(c, x, y, f))
    ensures CompletedAgain(c, x, y, f).txKey == Some(KeyFor(AskedAgain(x, f), AnsweredAgain(c, x, y, f)))
    ensures Signed(y.master.value, ReplyOf(AnsweredAgain(c, x, y, f))) in
              Decode(c, y, FramePacket(c, y.master.value, HelloOf(AskedAgain(x, f))), f.answer).signed
  {
    var asked := AskedAgain(x, f);
    HelloHanded(c, y, HelloOf(asked), f.answer);
    KnownHelloAnswered(y, asked.requestNonce, f.answer.hello);
    ReplyCompletes(c, asked, AnsweredAgain(c, x, y, f), f.complete);
  }

  /** Two exchanges always suffice: whatever order the frames of the first came in, after the second both are up. */
  lemma TwoExchangesSuffice(c: Crypto, x: Node, y: Node, e: Course, f: Sequel)
    requires Paired(x, y) && x == ClearSessions(x) && y == ClearSessions(y) && Smooth(e)
    requires SmoothAgain(Greeted(c, x, y, e), Settled(c, x, y, e), f)
    ensures
      var x', y' := Greeted(c, x, y, e), Settled(c, x, y, e);
      BothUp(CompletedAgain(c, x', y', f), AnsweredAgain(c, x', y', f))
  {
    FirstExchange(c, x, y, e);
    FurtherExchange(c, Greeted(c, x, y, e), Settled(c, x, y, e), f);
  }
}
