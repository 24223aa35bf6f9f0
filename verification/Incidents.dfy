/**
 * Two runs from power-up that show what the protocol does not promise: a first exchange in
 * which the answerer's HELLO takes down the send key its REPLY has just brought up, and a
 * replayed HELLO after which the two ends of a direction hold different keys.
 */
module Incidents {
  import opened Prelude
  import opened ByteStrings
  import opened Wire
  import opened Primitives
  import opened Session
  import opened Link
  import opened LinkInvariant
  import opened Handshake
  import opened Exchange
  import opened Gates
  import opened Segments

  /** The nonces the random source gives out, one after the other; the buffers start with the first. */
  type Supply = ns: seq<Nonce> | |ns| == 9
    witness [ZeroNonce(), ZeroNonce(), ZeroNonce(), ZeroNonce(), ZeroNonce(), ZeroNonce(), ZeroNonce(), ZeroNonce(),
             ZeroNonce()]

  predicate Fresh(ns: Supply) {
    ns[0] == ZeroNonce() && Distinct(ns)
  }

  lemma LastByte(n: nat, x: nat)
    requires n > 0
    ensures BigEndian(n, x)[n - 1] == x % 256
  {
  }

  /** Numbers that count up from zero, in this width. */
  lemma CountingUp(width: nat) returns (ns: seq<Bytes>)
    requires width > 0
    ensures |ns| == 9 && (forall i :: 0 <= i < 9 ==> ns[i] == BigEndian(width, i)) && Distinct(ns)
  {
    ns := seq(9, i requires 0 <= i < 9 => BigEndian(width, i));
    forall i, j | 0 <= i < j < 9
      ensures ns[i] != ns[j]
    {
      LastByte(width, i);
      LastByte(width, j);
    }
  }

  /** There is such a supply. */
  lemma SupplyExists() returns (ns: Supply)
    ensures Fresh(ns)
  {
    var numbers := CountingUp(NONCE_BYTES);
    ns := numbers;
  }

  /** The nonces from `k` on are still unused. */
  predicate UnusedFrom(ns: Supply, used: set<Nonce>, k: nat) {
    forall j :: k <= j < 9 ==> ns[j] !in used
  }

  lemma UseNext(ns: Supply, used: set<Nonce>, k: nat)
    requires Fresh(ns) && UnusedFrom(ns, used, k) && k < 9
    ensures UnusedFrom(ns, used + {ns[k]}, k + 1)
  {
  }

  /** Buffers that were drawn into before use up nothing. */
  lemma UseOld(ns: Supply, used: set<Nonce>, k: nat, i: nat, j: nat)
    requires Fresh(ns) && UnusedFrom(ns, used, k) && i < k && j < k && k <= 9
    ensures UnusedFrom(ns, used + ({ns[i]} + {ns[j]}), k)
  {
  }

  lemma UseTwo(ns: Supply, used: set<Nonce>, k: nat)
    requires Fresh(ns) && UnusedFrom(ns, used, k) && k + 1 < 9
    ensures UnusedFrom(ns, used + ({ns[k]} + {ns[k + 1]}), k + 2)
  {
  }

  lemma UseNextAndOld(ns: Supply, used: set<Nonce>, k: nat, i: nat)
    requires Fresh(ns) && UnusedFrom(ns, used, k) && i < k < 9
    ensures UnusedFrom(ns, used + ({ns[k]} + {ns[i]}), k + 1)
  {
  }

  function Keyed(): Settings {
    Settings(ZeroKey(), true, true, true, true)
  }

  /** A node after initialisation found a key. */
  function Ready(config: Config, boot: Nonce): Node {
    PowerUp(config).(settings := Keyed(), master := Some(ZeroKey()), bootNonce := boot, initialized := true)
  }

  function Mirrored(config: Config): Config {
    config.(local := config.peer, peer := config.local)
  }

  function Boots(nonce: Nonce): Op {
    Initialise(InitEnv(true, Drawn(nonce), Found(Keyed()), true))
  }

  function Asks(now: int, nonce: Nonce): Op {
    Ask(ConnectEnv(now, Drawn(nonce), true, None))
  }

  /** A node is handed a message; nothing fails, and the draws are these. */
  function Takes(c: Crypto, m: Control, now: int, server: Draw, next: Draw): Op {
    Receive(FramePacket(c, ZeroKey(), m),
            DecodeEnv(true, HelloEnv(now, server, true, true, None, ConnectEnv(now, next, true, None)), true, true))
  }

  /** A draw that does not happen in a call leaves the buffer alone. */
  function Undrawn(buffer: Nonce): Draw {
    DrawFailed(buffer)
  }

  // ---------------------------------------------------------------- the common beginning

  /** The left node has asked under its first request. */
  function LeftAsked(config: Config, ns: Supply): Node {
    Ready(config, ns[1]).(requestNonce := ns[3], lastRequest := 0, pending := true)
  }

  /** The key the right node makes for it, with this server nonce. */
  function LeftKey(config: Config, ns: Supply, server: nat): SessionKey
    requires server < 9
  {
    SessionKey(ZeroKey(), config.local, config.peer, ns[1], ns[3], ns[server])
  }

  /** The right node has answered and asked in turn. */
  function RightAnswered(config: Config, ns: Supply): Node {
    Ready(Mirrored(config), ns[2]).(
      rxKey := Some(LeftKey(config, ns, 4)), peerBoot := ns[1], peerRequest := ns[3], serverNonce := ns[4],
      lastHello := 0,
      requestNonce := ns[5], lastRequest := 0, pending := true)
  }

  /** The left node has its send key. */
  function LeftUp(config: Config, ns: Supply): Node {
    LeftAsked(config, ns).(txKey := Some(LeftKey(config, ns, 4)), txSequence := 0, pending := false)
  }

  /** Both nodes are initialised. */
  predicate BothReady(w: World, config: Config, ns: Supply) {
    && w.left == End(Ready(config, ns[1]), [], [], [], [])
    && w.right == End(Ready(Mirrored(config), ns[2]), [], [], [], [])
    && UnusedFrom(ns, w.used, 3)
  }

  lemma ReadyRun(c: Crypto, config: Config, ns: Supply) returns (worlds: seq<World>, events: seq<Event>)
    requires config.Valid() && Fresh(ns)
    ensures IsRun(c, config, worlds, events) && |events| == 2 && BothReady(worlds[2], config, ns)
  {
    var start := Start(config);
    assert UnusedFrom(ns, start.used, 1);
    var boot, other := Event(Left, Boots(ns[1])), Event(Right, Boots(ns[2]));
    worlds, events := [start], [];
    assert IsRun(c, config, worlds, events);
    UseNext(ns, start.used, 1);
    RunExtends(c, config, worlds, events, boot, Step(c, start, boot));
    worlds, events := worlds + [Step(c, start, boot)], events + [boot];
    UseNext(ns, worlds[1].used, 2);
    RunExtends(c, config, worlds, events, other, Step(c, worlds[1], other));
    worlds, events := worlds + [Step(c, worlds[1], other)], events + [other];
  }

  /** A run goes on, undisturbed since both nodes were ready, from this world. */
  ghost predicate Goes(c: Crypto, config: Config, ns: Supply, worlds: seq<World>, events: seq<Event>) {
    && IsRun(c, config, worlds, events) && |events| >= 2
    && BothReady(worlds[2], config, ns) && BothUndisturbed(events, 2, |events|)
  }

  lemma GoesOn(c: Crypto, config: Config, ns: Supply, worlds: seq<World>, events: seq<Event>, event: Event)
    requires Goes(c, config, ns, worlds, events) && KeepsSessions(event.op) && Enabled(c, worlds[|events|], event)
    ensures Goes(c, config, ns, worlds + [Step(c, worlds[|events|], event)], events + [event])
  {
    RunExtends(c, config, worlds, events, event, Step(c, worlds[|events|], event));
  }

  /** The left node has asked. */
  predicate LeftWaits(w: World, config: Config, ns: Supply) {
    && w.left == End(LeftAsked(config, ns), [], [], [], [])
    && w.right == End(Ready(Mirrored(config), ns[2]), [], [], [], [])
    && UnusedFrom(ns, w.used, 4)
    && Signed(ZeroKey(), HelloOf(LeftAsked(config, ns))) in w.signed
  }

  lemma LeftAsks(c: Crypto, w: World, config: Config, ns: Supply)
    requires config.Valid() && Fresh(ns) && BothReady(w, config, ns)
    ensures Enabled(c, w, Event(Left, Asks(0, ns[3]))) && LeftWaits(Step(c, w, Event(Left, Asks(0, ns[3]))), config, ns)
  {
    UseNext(ns, w.used, 3);
  }

  /** The right node has answered, and asked in turn. */
  predicate RightWaits(w: World, config: Config, ns: Supply) {
    && w.left == End(LeftAsked(config, ns), [], [], [], [])
    && w.right == End(RightAnswered(config, ns), [LeftKey(config, ns, 4)], [], [], [])
    && Signs(w, config, ns)
  }

  /** What was drawn and signed by then. */
  predicate Signs(w: World, config: Config, ns: Supply) {
    && UnusedFrom(ns, w.used, 6)
    && Signed(ZeroKey(), HelloOf(LeftAsked(config, ns))) in w.signed
    && Signed(ZeroKey(), ReplyOf(RightAnswered(config, ns))) in w.signed
    && Signed(ZeroKey(), HelloOf(RightAnswered(config, ns))) in w.signed
  }

  /** Delivering a signed message is no forgery. */
  lemma MayTake(c: Crypto, w: World, side: Side, m: Control, now: int, server: Draw, next: Draw)
    requires Signed(ZeroKey(), m) in w.signed && w.At(side).node.master == Some(ZeroKey())
    requires m.src == w.At(side).node.config.peer && m.dst == w.At(side).node.config.local
    requires FreshDraws(w.At(side).node, Takes(c, m, now, server, next), w.used)
    ensures Enabled(c, w, Event(side, Takes(c, m, now, server, next)))
  {
    SignedFramesDeliverable(c, w, side, Signed(ZeroKey(), m));
  }

  /** How a HELLO goes when nothing fails. */
  function HelloWell(now: int, server: Draw, next: Draw): HelloEnv {
    HelloEnv(now, server, true, true, None, ConnectEnv(now, next, true, None))
  }

  /** What a delivered HELLO makes of the world. */
  lemma TakeHello(c: Crypto, w: World, side: Side, m: Control, now: int, server: Draw, next: Draw)
    requires m.Hello? && w.At(side).node.master == Some(ZeroKey()) && w.At(side).node.settings.enabled
    requires m.src == w.At(side).node.config.peer && m.dst == w.At(side).node.config.local
    requires HelloReceived(w.At(side).node, m.boot, m.request, HelloWell(now, server, next)).outcome == Done
    ensures
      var h := HelloReceived(w.At(side).node, m.boot, m.request, HelloWell(now, server, next));
      var after := Step(c, w, Event(side, Takes(c, m, now, server, next)));
      && after.At(side) == w.At(side).(node := h.node, created := w.At(side).created + h.created)
      && after.At(side.Other()) == w.At(side.Other())
      && after.used == w.used + (NoncesOf(server) + NoncesOf(next))
      && after.signed == w.signed + (set s | s in h.signed)
  {
    HelloHanded(c, w.At(side).node, m, Takes(c, m, now, server, next).decode);
  }

  /** What a delivered REPLY makes of the world. */
  lemma TakeReply(c: Crypto, w: World, side: Side, m: Control, now: int, server: Draw, next: Draw)
    requires m.Reply? && w.At(side).node.master == Some(ZeroKey()) && w.At(side).node.settings.enabled
    requires m.src == w.At(side).node.config.peer && m.dst == w.At(side).node.config.local
    requires ReplyReceived(w.At(side).node, m.boot, m.request, m.server, true).outcome == Done
    ensures
      var h := ReplyReceived(w.At(side).node, m.boot, m.request, m.server, true);
      var after := Step(c, w, Event(side, Takes(c, m, now, server, next)));
      && after.At(side) == w.At(side).(node := h.node, installed := w.At(side).installed + h.installed)
      && after.At(side.Other()) == w.At(side.Other())
      && after.used == w.used + (NoncesOf(server) + NoncesOf(next))
      && after.signed == w.signed
  {
    ReplyHanded(c, w.At(side).node, m, Takes(c, m, now, server, next).decode);
  }

  function RightTakesFirst(c: Crypto, config: Config, ns: Supply): Event {
    Event(Right, Takes(c, HelloOf(LeftAsked(config, ns)), 0, Drawn(ns[4]), Drawn(ns[5])))
  }

  lemma RightAnswersAs(config: Config, ns: Supply)
    requires Fresh(ns)
    ensures
      var h := HelloReceived(Ready(Mirrored(config), ns[2]), ns[1], ns[3], HelloWell(0, Drawn(ns[4]), Drawn(ns[5])));
      && h.node == RightAnswered(config, ns) && h.outcome == Done && h.created == [LeftKey(config, ns, 4)]
      && h.signed == [Signed(ZeroKey(), ReplyOf(RightAnswered(config, ns))),
                      Signed(ZeroKey(), HelloOf(RightAnswered(config, ns)))]
  {
  }

  lemma RightMayTakeFirst(c: Crypto, w: World, config: Config, ns: Supply)
    requires config.Valid() && Fresh(ns) && LeftWaits(w, config, ns)
    ensures Enabled(c, w, RightTakesFirst(c, config, ns))
  {
    MayTake(c, w, Right, HelloOf(LeftAsked(config, ns)), 0, Drawn(ns[4]), Drawn(ns[5]));
  }

  lemma RightAnswers(c: Crypto, w: World, config: Config, ns: Supply)
    requires config.Valid() && Fresh(ns) && LeftWaits(w, config, ns)
    ensures RightWaits(Step(c, w, RightTakesFirst(c, config, ns)), config, ns)
  {
    RightAnswersAs(config, ns);
    TakeHello(c, w, Right, HelloOf(LeftAsked(config, ns)), 0, Drawn(ns[4]), Drawn(ns[5]));
    UseTwo(ns, w.used, 4);
  }

  /** The REPLY has brought the direction of the left node up. */
  predicate LeftIsUp(w: World, config: Config, ns: Supply) {
    && w.left == End(LeftUp(config, ns), [], [LeftKey(config, ns, 4)], [], [])
    && w.right == End(RightAnswered(config, ns), [LeftKey(config, ns, 4)], [], [], [])
    && Signs(w, config, ns)
  }

  function LeftTakesReply(c: Crypto, config: Config, ns: Supply): Event {
    Event(Left, Takes(c, ReplyOf(RightAnswered(config, ns)), 0, Undrawn(ZeroNonce()), Undrawn(ns[3])))
  }

  lemma LeftCompletesAs(config: Config, ns: Supply)
    requires Fresh(ns)
    ensures
      var h := ReplyReceived(LeftAsked(config, ns), ns[1], ns[3], ns[4], true);
      h.node == LeftUp(config, ns) && h.outcome == Done && h.installed == [LeftKey(config, ns, 4)]
  {
  }

  lemma LeftCompletes(c: Crypto, w: World, config: Config, ns: Supply)
    requires config.Valid() && Fresh(ns) && RightWaits(w, config, ns)
    ensures Enabled(c, w, LeftTakesReply(c, config, ns))
    ensures LeftIsUp(Step(c, w, LeftTakesReply(c, config, ns)), config, ns)
  {
    UseOld(ns, w.used, 6, 0, 3);
    MayTake(c, w, Left, ReplyOf(RightAnswered(config, ns)), 0, Undrawn(ZeroNonce()), Undrawn(ns[3]));
    LeftCompletesAs(config, ns);
    TakeReply(c, w, Left, ReplyOf(RightAnswered(config, ns)), 0, Undrawn(ZeroNonce()), Undrawn(ns[3]));
  }

  lemma AskedRun(c: Crypto, config: Config, ns: Supply) returns (worlds: seq<World>, events: seq<Event>)
    requires config.Valid() && Fresh(ns)
    ensures Goes(c, config, ns, worlds, events) && |events| == 3 && LeftWaits(worlds[3], config, ns)
  {
    worlds, events := ReadyRun(c, config, ns);
    var ask := Event(Left, Asks(0, ns[3]));
    LeftAsks(c, worlds[2], config, ns);
    GoesOn(c, config, ns, worlds, events, ask);
    worlds, events := worlds + [Step(c, worlds[2], ask)], events + [ask];
  }

  lemma AnsweredRun(c: Crypto, config: Config, ns: Supply) returns (worlds: seq<World>, events: seq<Event>)
    requires config.Valid() && Fresh(ns)
    ensures Goes(c, config, ns, worlds, events) && |events| == 4 && RightWaits(worlds[4], config, ns)
  {
    worlds, events := AskedRun(c, config, ns);
    var answer := RightTakesFirst(c, config, ns);
    RightMayTakeFirst(c, worlds[3], config, ns);
    RightAnswers(c, worlds[3], config, ns);
    GoesOn(c, config, ns, worlds, events, answer);
    worlds, events := worlds + [Step(c, worlds[3], answer)], events + [answer];
  }

  /** The common beginning of both runs. */
  lemma Beginning(c: Crypto, config: Config, ns: Supply) returns (worlds: seq<World>, events: seq<Event>)
    requires config.Valid() && Fresh(ns)
    ensures Goes(c, config, ns, worlds, events) && |events| == 5 && LeftIsUp(worlds[5], config, ns)
  {
    worlds, events := AnsweredRun(c, config, ns);
    var complete := LeftTakesReply(c, config, ns);
    LeftCompletes(c, worlds[4], config, ns);
    GoesOn(c, config, ns, worlds, events, complete);
    worlds, events := worlds + [Step(c, worlds[4], complete)], events + [complete];
  }

  // ---------------------------------------------------------------- the send key that goes again

  function LeftTakesHello(c: Crypto, config: Config, ns: Supply): Event {
    Event(Left, Takes(c, HelloOf(RightAnswered(config, ns)), 0, Drawn(ns[6]), Undrawn(ns[3])))
  }

  lemma LeftGreets(c: Crypto, w: World, config: Config, ns: Supply)
    requires config.Valid() && Fresh(ns) && LeftIsUp(w, config, ns)
    ensures Enabled(c, w, LeftTakesHello(c, config, ns))
    ensures
      var next := Step(c, w, LeftTakesHello(c, config, ns));
      next.left.node.txKey.None? && !next.left.node.pending && next.left.node.rxKey.Some? && next.right == w.right
  {
    MayTake(c, w, Left, HelloOf(RightAnswered(config, ns)), 0, Drawn(ns[6]), Undrawn(ns[3]));
    TakeHello(c, w, Left, HelloOf(RightAnswered(config, ns)), 0, Drawn(ns[6]), Undrawn(ns[3]));
  }

  /**
   * One completed exchange does not mean that both directions are up. There is a run from
   * power-up, with no loss, no reordering and no replay, in which the left node's REPLY installs the key that
   * the right node made, and the right node's own first HELLO takes it down.
   */
  lemma FirstHelloTakesKeyDown(c: Crypto, config: Config, ns: Supply) returns (worlds: seq<World>, events: seq<Event>)
    requires config.Valid() && Fresh(ns)
    ensures IsRun(c, config, worlds, events) && |events| == 6
    ensures worlds[5].left.node.txKey.Some? && worlds[5].left.node.txKey == worlds[5].right.node.rxKey
    ensures worlds[6].left.node.txKey.None? && !worlds[6].left.node.pending
    ensures worlds[6].left.node.rxKey.Some? && worlds[6].right == worlds[5].right
  {
    worlds, events := Beginning(c, config, ns);
    var hello := LeftTakesHello(c, config, ns);
    LeftGreets(c, worlds[5], config, ns);
    GoesOn(c, config, ns, worlds, events, hello);
    worlds, events := worlds + [Step(c, worlds[5], hello)], events + [hello];
  }

  // ---------------------------------------------------------------- the HELLO that comes back

  /** The left node has asked again, a second later. */
  function LeftAskedAgain(config: Config, ns: Supply): Node {
    LeftUp(config, ns).(requestNonce := ns[6], lastRequest := 1000, pending := true)
  }

  predicate LeftWaitsAgain(w: World, config: Config, ns: Supply) {
    && w.left.node == LeftAskedAgain(config, ns)
    && w.right == End(RightAnswered(config, ns), [LeftKey(config, ns, 4)], [], [], [])
    && UnusedFrom(ns, w.used, 7)
    && Signed(ZeroKey(), HelloOf(LeftAsked(config, ns))) in w.signed
    && Signed(ZeroKey(), HelloOf(LeftAskedAgain(config, ns))) in w.signed
  }

  lemma LeftAsksAgain(c: Crypto, w: World, config: Config, ns: Supply)
    requires config.Valid() && Fresh(ns) && LeftIsUp(w, config, ns)
    ensures Enabled(c, w, Event(Left, Asks(1000, ns[6])))
    ensures LeftWaitsAgain(Step(c, w, Event(Left, Asks(1000, ns[6]))), config, ns)
  {
    UseNext(ns, w.used, 6);
  }

  /** The key the right node makes for the second request. */
  function SecondKey(config: Config, ns: Supply): SessionKey {
    SessionKey(ZeroKey(), config.local, config.peer, ns[1], ns[6], ns[7])
  }

  /** The right node once it answered that one too. */
  function RightAnsweredAgain(config: Config, ns: Supply): Node {
    RightAnswered(config, ns).(rxKey := Some(SecondKey(config, ns)), peerRequest := ns[6], serverNonce := ns[7],
                               lastHello := 1000)
  }

  predicate RightMovedOn(w: World, config: Config, ns: Supply) {
    && w.left.node == LeftAskedAgain(config, ns)
    && w.right == End(RightAnsweredAgain(config, ns), [LeftKey(config, ns, 4), SecondKey(config, ns)], [], [], [])
    && UnusedFrom(ns, w.used, 8)
    && Signed(ZeroKey(), HelloOf(LeftAsked(config, ns))) in w.signed
  }

  function RightTakesSecond(c: Crypto, config: Config, ns: Supply): Event {
    Event(Right, Takes(c, HelloOf(LeftAskedAgain(config, ns)), 1000, Drawn(ns[7]), Undrawn(ns[5])))
  }

  lemma RightMovesOnAs(config: Config, ns: Supply)
    requires Fresh(ns)
    ensures
      var h := HelloReceived(RightAnswered(config, ns), ns[1], ns[6], HelloWell(1000, Drawn(ns[7]), Undrawn(ns[5])));
      h.node == RightAnsweredAgain(config, ns) && h.outcome == Done && h.created == [SecondKey(config, ns)]
  {
  }

  lemma RightMovesOn(c: Crypto, w: World, config: Config, ns: Supply)
    requires config.Valid() && Fresh(ns) && LeftWaitsAgain(w, config, ns)
    ensures Enabled(c, w, RightTakesSecond(c, config, ns))
    ensures RightMovedOn(Step(c, w, RightTakesSecond(c, config, ns)), config, ns)
  {
    MayTake(c, w, Right, HelloOf(LeftAskedAgain(config, ns)), 1000, Drawn(ns[7]), Undrawn(ns[5]));
    RightMovesOnAs(config, ns);
    TakeHello(c, w, Right, HelloOf(LeftAskedAgain(config, ns)), 1000, Drawn(ns[7]), Undrawn(ns[5]));
    UseNextAndOld(ns, w.used, 7, 5);
  }

  function RightTakesFirstAgain(c: Crypto, config: Config, ns: Supply): Event {
    Event(Right, Takes(c, HelloOf(LeftAsked(config, ns)), 2000, Drawn(ns[8]), Undrawn(ns[5])))
  }

  lemma RightMayGoBack(c: Crypto, w: World, config: Config, ns: Supply)
    requires config.Valid() && Fresh(ns) && RightMovedOn(w, config, ns)
    ensures Enabled(c, w, RightTakesFirstAgain(c, config, ns))
  {
    MayTake(c, w, Right, HelloOf(LeftAsked(config, ns)), 2000, Drawn(ns[8]), Undrawn(ns[5]));
  }

  lemma RightGoesBack(c: Crypto, w: World, config: Config, ns: Supply)
    requires config.Valid() && Fresh(ns) && RightMovedOn(w, config, ns)
    ensures
      var next := Step(c, w, RightTakesFirstAgain(c, config, ns));
      && next.left.node == LeftAskedAgain(config, ns)
      && next.right.created == [LeftKey(config, ns, 4), SecondKey(config, ns), LeftKey(config, ns, 8)]
      && next.right.node.rxKey == Some(LeftKey(config, ns, 8)) && next.right.node.peerRequest == ns[3]
  {
    RightGoesBackAs(config, ns);
    TakeHello(c, w, Right, HelloOf(LeftAsked(config, ns)), 2000, Drawn(ns[8]), Undrawn(ns[5]));
  }

  lemma RightGoesBackAs(config: Config, ns: Supply)
    requires Fresh(ns)
    ensures
      var h := HelloReceived(RightAnsweredAgain(config, ns), ns[1], ns[3],
                             HelloWell(2000, Drawn(ns[8]), Undrawn(ns[5])));
      && h.node.rxKey == Some(LeftKey(config, ns, 8)) && h.node.peerRequest == ns[3] && h.outcome == Done
      && h.created == [LeftKey(config, ns, 8)]
  {
  }

  /**
   * A HELLO that comes back splits the keys. There is a run from power-up, undisturbed since
   * both nodes were ready, in which the left node completed the very request that the right node
   * last made a key for, and yet the two hold different keys.
   */
  lemma ReplayedHelloSplitsKeys(c: Crypto, config: Config, ns: Supply) returns (worlds: seq<World>, events: seq<Event>)
    requires config.Valid() && Fresh(ns)
    ensures IsRun(c, config, worlds, events) && |events| == 8 && BothUndisturbed(events, 2, 8)
    ensures worlds[2].right.node == ClearSessions(worlds[2].right.node)
    ensures
      var x, y := worlds[8].left.node, worlds[8].right;
      && x.txKey.Some? && x.txKey.value.request == y.node.peerRequest
      && x.txKey.value in MadeSince(worlds[2].right, y)
      && x.txKey != y.node.rxKey && ComesBack(MadeSince(worlds[2].right, y))
  {
    worlds, events := MovedOnRun(c, config, ns);
    var again := RightTakesFirstAgain(c, config, ns);
    RightMayGoBack(c, worlds[7], config, ns);
    RightGoesBack(c, worlds[7], config, ns);
    GoesOn(c, config, ns, worlds, events, again);
    worlds, events := worlds + [Step(c, worlds[7], again)], events + [again];
    KeysSplit(config, ns, worlds[2].right, worlds[8].right);
  }

  lemma AskedAgainRun(c: Crypto, config: Config, ns: Supply) returns (worlds: seq<World>, events: seq<Event>)
    requires config.Valid() && Fresh(ns)
    ensures Goes(c, config, ns, worlds, events) && |events| == 6 && LeftWaitsAgain(worlds[6], config, ns)
  {
    worlds, events := Beginning(c, config, ns);
    var ask := Event(Left, Asks(1000, ns[6]));
    LeftAsksAgain(c, worlds[5], config, ns);
    GoesOn(c, config, ns, worlds, events, ask);
    worlds, events := worlds + [Step(c, worlds[5], ask)], events + [ask];
  }

  lemma MovedOnRun(c: Crypto, config: Config, ns: Supply) returns (worlds: seq<World>, events: seq<Event>)
    requires config.Valid() && Fresh(ns)
    ensures Goes(c, config, ns, worlds, events) && |events| == 7 && RightMovedOn(worlds[7], config, ns)
  {
    worlds, events := AskedAgainRun(c, config, ns);
    var second := RightTakesSecond(c, config, ns);
    RightMovesOn(c, worlds[6], config, ns);
    GoesOn(c, config, ns, worlds, events, second);
    worlds, events := worlds + [Step(c, worlds[6], second)], events + [second];
  }

  lemma KeysSplit(config: Config, ns: Supply, first: End, last: End)
    requires Fresh(ns) && first.created == []
    requires last.created == [LeftKey(config, ns, 4), SecondKey(config, ns), LeftKey(config, ns, 8)]
    ensures LeftKey(config, ns, 4) in MadeSince(first, last) && ComesBack(MadeSince(first, last))
    ensures LeftKey(config, ns, 4) != LeftKey(config, ns, 8)
  {
    var since := MadeSince(first, last);
    assert since == last.created;
    assert since[0] == LeftKey(config, ns, 4) && SameRequest(since[0], since[2]) && !SameRequest(since[1], since[2]);
  }
}
