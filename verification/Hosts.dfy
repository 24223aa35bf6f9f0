/**
 * Both nodes with their disks and their settings writers, over the same hostile link: the
 * guarantees of the protocol with setters that are not atomic, that write files while
 * packets flow, and that power may cut short.
 */
module Hosts {
  import opened Prelude
  import opened Wire
  import opened Primitives
  import opened Session
  import opened Link
  import opened LinkInvariant
  import opened Delivery
  import opened Store
  import opened Setters

  datatype Pair = Pair(left: Host, right: Host, used: set<Nonce>, signed: set<Signed>) {
    function At(side: Side): Host {
      if side.Left? then left else right
    }

    /** What module Link sees of the pair. */
    function View(): World {
      World(left.side, right.side, used, signed)
    }
  }

  datatype PairMove = PairMove(side: Side, move: Move)

  /** The event of the link that a move amounts to, if any. */
  function EventOf(crc: Crc, p: Pair, m: PairMove): Option<Event>
    requires MayMove(crc, p.At(m.side), m.move)
  {
    match OpOf(crc, p.At(m.side), m.move)
    case None => None
    case Some(op) => Some(Event(m.side, op))
  }

  /** A host may move; what reaches its node obeys the link and the random source. */
  ghost predicate MayHappen(c: Crypto, crc: Crc, p: Pair, m: PairMove) {
    && MayMove(crc, p.At(m.side), m.move)
    && (EventOf(crc, p, m).Some? ==> Enabled(c, p.View(), EventOf(crc, p, m).value))
  }

  function Happened(c: Crypto, crc: Crc, p: Pair, m: PairMove): Pair
    requires MayMove(crc, p.At(m.side), m.move)
  {
    var h := p.At(m.side);
    var after := Moved(c, crc, h, m.move);
    var op := OpOf(crc, h, m.move);
    var used := if op.None? then p.used else p.used + Draws(op.value);
    var signed := if op.None? then p.signed else p.signed + (set s | s in Advance(c, h.side, op.value).1);
    if m.side.Left? then Pair(after, p.right, used, signed) else Pair(p.left, after, used, signed)
  }

  ghost predicate PairLeads(c: Crypto, crc: Crc, p: Pair, m: PairMove, next: Pair) {
    MayHappen(c, crc, p, m) && next == Happened(c, crc, p, m)
  }

  /** `pairs` lists the states around each move, from power-up with settled disks. */
  ghost predicate IsPairRun(c: Crypto, crc: Crc, config: Config, pairs: seq<Pair>, moves: seq<PairMove>) {
    && |pairs| == |moves| + 1
    && pairs[0].View() == Start(config)
    && FreshHost(pairs[0].left) && FreshHost(pairs[0].right)
    && forall i {:trigger moves[i]} :: 0 <= i < |moves| ==> PairLeads(c, crc, pairs[i], moves[i], pairs[i + 1])
  }

  predicate FreshHost(h: Host) {
    Settled(h.disk) && h == PoweredUp(h.side.node.config, h.disk)
  }

  /** One move is one event of the link, or none. */
  lemma MoveIsEvent(c: Crypto, crc: Crc, p: Pair, m: PairMove)
    requires MayHappen(c, crc, p, m)
    ensures
      var event := EventOf(crc, p, m);
      var next := Happened(c, crc, p, m).View();
      if event.None? then next == p.View() else Leads(c, p.View(), event.value, next)
  {
    MoveIsOneCall(c, crc, p.At(m.side), m.move);
  }

  /** Two hosts over the link go through a run of the link, whatever their setters, files and crashes do. */
  lemma {:induction false} HostsRefineLink(c: Crypto, crc: Crc, config: Config, pairs: seq<Pair>, moves: seq<PairMove>,
                                           i: nat)
      returns (worlds: seq<World>, events: seq<Event>)
    requires IsPairRun(c, crc, config, pairs, moves) && i < |pairs|
    ensures IsRun(c, config, worlds, events) && |events| <= i && worlds[|events|] == pairs[i].View()
  {
    if i == 0 {
      worlds, events := [pairs[0].View()], [];
    } else {
      worlds, events := HostsRefineLink(c, crc, config, pairs, moves, i - 1);
      assert PairLeads(c, crc, pairs[i - 1], moves[i - 1], pairs[i]);
      MoveIsEvent(c, crc, pairs[i - 1], moves[i - 1]);
      var event := EventOf(crc, pairs[i - 1], moves[i - 1]);
      if event.Some? {
        RunExtends(c, config, worlds, events, event.value, pairs[i].View());
        worlds, events := worlds + [pairs[i].View()], events + [event.value];
      }
    }
  }

  /** Each host keeps the invariant of its settings. */
  lemma {:induction false} HostsKeep(c: Crypto, crc: Crc, config: Config, pairs: seq<Pair>, moves: seq<PairMove>,
                                     i: nat, side: Side)
    requires IsPairRun(c, crc, config, pairs, moves) && i < |pairs|
    ensures HostInv(crc, pairs[i].At(side))
  {
    if i == 0 {
      FreshHostSound(crc, pairs[0].At(side));
    } else {
      HostsKeep(c, crc, config, pairs, moves, i - 1, side);
      assert PairLeads(c, crc, pairs[i - 1], moves[i - 1], pairs[i]);
      if moves[i - 1].side == side {
        MoveKeeps(c, crc, pairs[i - 1].At(side), moves[i - 1].move);
      }
    }
  }

  lemma FreshHostSound(crc: Crc, h: Host)
    requires FreshHost(h)
    ensures HostInv(crc, h)
  {
  }

  /**
   * Delivery with real setters. While both nodes' operators change keys and switches, file
   * writes run and fail, and power goes and returns, each side still authenticates, in order
   * and at most once, only what the other sealed; and every session is one of the key in
   * the settings in force, with protection switched on in them.
   */
  lemma DeliveryUnderSetters(c: Crypto, crc: Crc, config: Config, pairs: seq<Pair>, moves: seq<PairMove>, i: nat,
                             side: Side)
    requires config.Valid() && IsPairRun(c, crc, config, pairs, moves) && i < |pairs|
    ensures
      var x, y := pairs[i].At(side.Other()).side, pairs[i].At(side).side;
      && Subsequence(y.accepted, x.attempts) && Distinct(y.accepted)
      && (forall e :: e in y.accepted ==> e.ok)
    ensures
      var n := pairs[i].At(side).side.node;
      && (n.txKey.Some? || n.rxKey.Some? || n.pending ==> n.settings.enabled && n.settings.keySet)
      && (n.rxKey.Some? ==> n.rxKey.value.master == n.settings.key)
      && (n.txKey.Some? ==> n.txKey.value.master == n.settings.key)
  {
    var worlds, events := HostsRefineLink(c, crc, config, pairs, moves, i);
    InOrderDelivery(c, config, worlds, events, |events|, side);
    SessionStateNamed(c, config, worlds, events, |events|, side);
    HostsKeep(c, crc, config, pairs, moves, i, side);
    assert worlds[|events|].At(side) == pairs[i].At(side).side;
    assert worlds[|events|].At(side.Other()) == pairs[i].At(side.Other()).side;
    KeyedByHost(crc, pairs[i].At(side));
  }

  lemma KeyedByHost(crc: Crc, h: Host)
    requires HostInv(crc, h)
    ensures h.side.node.master.Some? ==>
              h.side.node.master.value == h.side.node.settings.key && h.side.node.settings.keySet
  {
  }
}
