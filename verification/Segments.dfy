/**
 * Stretches of a run in which a side is neither reset nor given new settings: when the two
 * ends of a direction hold the same key, and how often a side starts over.
 */
module Segments {
  import opened Prelude
  import opened Wire
  import opened Primitives
  import opened Session
  import opened Link
  import opened Channel
  import opened LinkInvariant
  import opened Gates

  /** In this stretch the side is not switched off, initialised or given new settings. */
  predicate Undisturbed(events: seq<Event>, from: nat, at: nat, side: Side) {
    from <= at <= |events| && forall i :: from <= i < at && events[i].side == side ==> KeepsSessions(events[i].op)
  }

  /** The same for both sides. */
  predicate BothUndisturbed(events: seq<Event>, from: nat, at: nat) {
    from <= at <= |events| && forall i :: from <= i < at ==> KeepsSessions(events[i].op)
  }

  // ---------------------------------------------------------------- a HELLO names its boot

  /** The HELLOs among these are the one the node has just asked with, under a nonce that is new. */
  predicate AsksAfresh(n: Node, signed: seq<Signed>, used: set<Nonce>) {
    forall s :: s in signed && s.control.Hello? ==>
      && n.master == Some(s.master)
      && s.control == Hello(n.config.local, n.config.peer, n.bootNonce, n.requestNonce)
      && n.requestNonce !in used
  }

  lemma ConnectAsks(n: Node, env: ConnectEnv, used: set<Nonce>)
    requires FreshDraw(env.draw, n.requestNonce, used)
    ensures AsksAfresh(ConnectLocked(n, env).node, ConnectLocked(n, env).signed, used)
  {
  }

  lemma HelloAsks(n: Node, client: Nonce, request: Nonce, env: HelloEnv, used: set<Nonce>)
    requires n.master.Some? && FreshDraw(env.connect.draw, n.requestNonce, used)
    ensures
      var h := HelloReceived(n, client, request, env);
      AsksAfresh(h.node, h.signed, used)
  {
    var seen := n.(lastHello := env.now);
    var m := if env.draw.Drawn? && !IsDuplicate(n, client, request)
             then InstallReceive(seen, client, request, env.draw.nonce) else seen;
    ConnectAsks(m.(txKey := None), env.connect, used);
  }

  lemma DecodeAsks(c: Crypto, n: Node, p: Packet, env: DecodeEnv, used: set<Nonce>)
    requires FreshDraw(env.hello.connect.draw, n.requestNonce, used)
    ensures AsksAfresh(Decode(c, n, p, env).node, Decode(c, n, p, env).signed, used)
  {
    if !IsControl(p.data) {
      DataDrifts(c, n, p, env);
    } else if ControlAdmitted(n, p) && env.verifies && Verifies(c, n, p.data) && p.data[3] == HELLO {
      HelloAsks(n, p.data[4..20], p.data[20..36], env.hello, used);
    }
  }

  lemma AdvanceAsks(c: Crypto, e: End, op: Op, used: set<Nonce>)
    requires FreshDraws(e.node, op, used)
    ensures AsksAfresh(Advance(c, e, op).0.node, Advance(c, e, op).1, used)
  {
    if op.Ask? {
      ConnectAsks(e.node, op.connect, used);
    } else if op.Transmit? {
      ConnectAsks(e.node, op.encode.connect, used);
    } else if op.Receive? {
      DecodeAsks(c, e.node, op.packet, op.decode, used);
    }
  }

  predicate IsHelloFrom(ax: u16, s: Signed) {
    s.control.Hello? && s.control.src == ax
  }

  /** No two HELLOs of one node name the same request. */
  predicate HellosDiffer(ax: u16, signed: set<Signed>) {
    forall s, t :: (s in signed && t in signed && IsHelloFrom(ax, s) && IsHelloFrom(ax, t)
                    && s.control.request == t.control.request) ==> s == t
  }

  /** Every key was made for a HELLO that was signed. */
  predicate KeysAskedFor(created: seq<SessionKey>, signed: set<Signed>) {
    forall k :: k in created ==> Signed(k.master, Hello(k.src, k.dst, k.boot, k.request)) in signed
  }

  lemma MoreHellos(n: Node, signed: set<Signed>, more: seq<Signed>, used: set<Nonce>)
    requires HellosDiffer(n.config.local, signed) && AsksAfresh(n, more, used)
    requires forall s :: s in signed && IsHelloFrom(n.config.local, s) ==> s.control.request in used
    ensures HellosDiffer(n.config.local, signed + (set s | s in more))
  {
  }

  lemma OthersHellos(ax: u16, n: Node, signed: set<Signed>, more: seq<Signed>, used: set<Nonce>)
    requires HellosDiffer(ax, signed) && AsksAfresh(n, more, used) && n.config.local != ax
    ensures HellosDiffer(ax, signed + (set s | s in more))
  {
  }

  /** An event keeps the HELLOs of a side apart. */
  lemma EventKeepsHellos(c: Crypto, w: World, event: Event, side: Side)
    requires WorldInv(w) && Enabled(c, w, event) && HellosDiffer(w.At(side).node.config.local, w.signed)
    ensures HellosDiffer(w.At(side).node.config.local, Step(c, w, event).signed)
  {
    var e := w.At(event.side);
    AdvanceAsks(c, e, event.op, w.used);
    AdvanceKeepsConfig(c, e, event.op);
    var (after, more) := Advance(c, e, event.op);
    if event.side == side {
      MoreHellos(after.node, w.signed, more, w.used);
    } else {
      OthersHellos(w.At(side).node.config.local, after.node, w.signed, more, w.used);
    }
  }

  /** A key a call makes is made for a HELLO that was signed. */
  lemma EventKeepsKeys(c: Crypto, w: World, event: Event, side: Side)
    requires WorldInv(w) && Enabled(c, w, event) && KeysAskedFor(w.At(side).created, w.signed)
    ensures KeysAskedFor(Step(c, w, event).At(side).created, Step(c, w, event).signed)
  {
    if event.side == side {
      if event.op.Receive? {
        CreatedAskedFor(c, w, side, event.op.packet, event.op.decode);
      } else {
        LocalOpReceivesNothing(c, w.At(side), event.op);
      }
    }
  }

  lemma CreatedAskedFor(c: Crypto, w: World, side: Side, p: Packet, env: DecodeEnv)
    requires Unforged(c, w, w.At(side).node, p)
    ensures KeysAskedFor(Decode(c, w.At(side).node, p, env).created, w.signed)
  {
    var n := w.At(side).node;
    if IsControl(p.data) {
      if ControlAdmitted(n, p) && env.verifies && Verifies(c, n, p.data) && p.data[3] == HELLO {
        ControlIsGenuine(c, w, n, p);
        HelloMoves(n, p.data[4..20], p.data[20..36], env.hello);
      }
    } else {
      DataMoves(c, n, p, env);
    }
  }

  lemma {:induction false} RequestsNameBoots(c: Crypto, config: Config, worlds: seq<World>, events: seq<Event>, i: nat,
                                             side: Side)
    requires config.Valid() && IsRun(c, config, worlds, events) && i < |worlds|
    ensures HellosDiffer(worlds[i].At(side.Other()).node.config.local, worlds[i].signed)
    ensures KeysAskedFor(worlds[i].At(side).created, worlds[i].signed)
  {
    if i == 0 {
    } else {
      RequestsNameBoots(c, config, worlds, events, i - 1, side);
      RunKeepsWorld(c, config, worlds, events, i - 1);
      var w, event := worlds[i - 1], events[i - 1];
      EventKeepsHellos(c, w, event, side.Other());
      EventKeepsKeys(c, w, event, side);
      AdvanceKeepsConfig(c, w.At(event.side), event.op);
    }
  }

  /** In every run, keys made for the same request were made for the same HELLO. */
  lemma SameRequestSameBoot(c: Crypto, config: Config, worlds: seq<World>, events: seq<Event>, at: nat, side: Side,
                            k: SessionKey, l: SessionKey)
    requires config.Valid() && IsRun(c, config, worlds, events) && at < |worlds|
    requires k in worlds[at].At(side).created && l in worlds[at].At(side).created && k.request == l.request
    ensures k.boot == l.boot && k.master == l.master
  {
    RequestsNameBoots(c, config, worlds, events, at, side);
    RunKeepsWorld(c, config, worlds, events, at);
    var s, t := Signed(k.master, Hello(k.src, k.dst, k.boot, k.request)),
                Signed(l.master, Hello(l.src, l.dst, l.boot, l.request));
    assert s in worlds[at].signed && t in worlds[at].signed;
  }

  // ---------------------------------------------------------------- the calls of one side

  lemma FollowsExtends(c: Crypto, history: seq<End>, ops: seq<Op>, op: Op, next: End)
    requires Follows(c, history, ops) && KeepsSessions(op) && next == Advance(c, history[|ops|], op).0
    ensures Follows(c, history + [next], ops + [op])
  {
    var longer, more := history + [next], ops + [op];
    forall i | 0 <= i < |more|
      ensures KeepsSessions(more[i]) && longer[i + 1] == Advance(c, longer[i], more[i]).0
    {
      if i < |ops| {
        assert more[i] == ops[i] && longer[i] == history[i] && longer[i + 1] == history[i + 1];
      }
    }
  }

  /** What a side goes through in an undisturbed stretch after a clear is one of its histories. */
  lemma {:induction false} SideHistory(c: Crypto, config: Config, worlds: seq<World>, events: seq<Event>,
                                       from: nat, at: nat, side: Side)
      returns (history: seq<End>, ops: seq<Op>)
    requires IsRun(c, config, worlds, events) && Undisturbed(events, from, at, side)
    requires worlds[from].At(side).node == ClearSessions(worlds[from].At(side).node)
    ensures Follows(c, history, ops)
    ensures history[0] == worlds[from].At(side) && history[|ops|] == worlds[at].At(side)
    decreases at
  {
    if at == from {
      history, ops := [worlds[from].At(side)], [];
    } else {
      history, ops := SideHistory(c, config, worlds, events, from, at - 1, side);
      var event := events[at - 1];
      assert Leads(c, worlds[at - 1], event, worlds[at]);
      if event.side == side {
        FollowsExtends(c, history, ops, event.op, worlds[at].At(side));
        history, ops := history + [worlds[at].At(side)], ops + [event.op];
      }
    }
  }

  // ---------------------------------------------------------------- agreement

  /**
   * When the keys of a direction agree. Take a side that was just cleared and is then left
   * undisturbed, and say its peer completed the request it last re-keyed on, with a key made
   * since. Unless an older HELLO came back after another one, the two ends hold the same key;
   * and only then: if one came back, there is an older key for this very request which the
   * peer may hold instead.
   */
  lemma KeysAgree(c: Crypto, config: Config, worlds: seq<World>, events: seq<Event>, from: nat, at: nat, side: Side)
    requires config.Valid() && IsRun(c, config, worlds, events) && Undisturbed(events, from, at, side.Other())
    requires
      var y := worlds[from].At(side.Other()).node;
      y == ClearSessions(y)
    requires
      var x, y := worlds[at].At(side).node, worlds[at].At(side.Other());
      && x.txKey.Some? && x.txKey.value.request == y.node.peerRequest
      && x.txKey.value in MadeSince(worlds[from].At(side.Other()), y)
    ensures
      var x, y := worlds[at].At(side).node, worlds[at].At(side.Other());
      var since := MadeSince(worlds[from].At(side.Other()), y);
      && (!ComesBack(since) ==> x.txKey == y.node.rxKey)
      && ((forall k :: k in since && k.request == y.node.peerRequest ==> y.node.rxKey == Some(k))
          <==> !ComesBack(since))
  {
    var first, last := worlds[from].At(side.Other()), worlds[at].At(side.Other());
    KeysSinceClear(c, config, worlds, events, from, at, side.Other());
    OnlyLastUnlessBack(first, last);
  }

  /** The keys a cleared side has made since: all different, the last one in use, and requests name boots. */
  lemma KeysSinceClear(c: Crypto, config: Config, worlds: seq<World>, events: seq<Event>, from: nat, at: nat,
                       side: Side)
    requires config.Valid() && IsRun(c, config, worlds, events) && Undisturbed(events, from, at, side)
    requires worlds[from].At(side).node == ClearSessions(worlds[from].At(side).node)
    ensures
      var first, last := worlds[from].At(side), worlds[at].At(side);
      var since := MadeSince(first, last);
      && RekeyInv(first, last) && Distinct(last.created)
      && (since != [] ==> forall k :: k in since && k.request == last.node.peerRequest ==>
            SameRequest(k, since[|since| - 1]))
  {
    var history, ops := SideHistory(c, config, worlds, events, from, at, side);
    RekeysAreNew(c, history, ops, |ops|);
    RunKeepsDistinct(c, config, worlds, events, at, side);
    var last := worlds[at].At(side);
    var since := MadeSince(worlds[from].At(side), last);
    forall k | k in since && k.request == last.node.peerRequest
      ensures SameRequest(k, since[|since| - 1])
    {
      SameRequestSameBoot(c, config, worlds, events, at, side, k, since[|since| - 1]);
    }
  }

  lemma RunKeepsDistinct(c: Crypto, config: Config, worlds: seq<World>, events: seq<Event>, at: nat, side: Side)
    requires config.Valid() && IsRun(c, config, worlds, events) && at < |worlds|
    ensures Distinct(worlds[at].At(side).created)
  {
    RunKeepsWorld(c, config, worlds, events, at);
  }

  lemma OnlyLastUnlessBack(first: End, last: End)
    requires RekeyInv(first, last) && Distinct(last.created) && MadeSince(first, last) != []
    requires
      var since := MadeSince(first, last);
      forall k :: k in since && k.request == last.node.peerRequest ==> SameRequest(k, since[|since| - 1])
    ensures
      var since := MadeSince(first, last);
      (forall k :: k in since && k.request == last.node.peerRequest ==> last.node.rxKey == Some(k))
      <==> !ComesBack(since)
  {
    SecondKeyIffComesBack(first, last);
    OnlyLastAgrees(last, MadeSince(first, last));
  }

  /** Among different keys, the last one is the only one for its request or it is not. */
  lemma OnlyLastAgrees(last: End, since: seq<SessionKey>)
    requires since != [] && last.node.rxKey == Some(since[|since| - 1])
    requires Distinct(last.created) && |since| <= |last.created| && since == last.created[|last.created| - |since|..]
    requires last.node.peerRequest == since[|since| - 1].request
    requires forall k :: k in since && k.request == last.node.peerRequest ==> SameRequest(k, since[|since| - 1])
    ensures (forall k :: k in since && k.request == last.node.peerRequest ==> last.node.rxKey == Some(k)) <==>
              !exists i :: 0 <= i < |since| - 1 && SameRequest(since[i], since[|since| - 1])
  {
    forall i | 0 <= i < |since| - 1
      ensures since[i] != since[|since| - 1] && since[i] in since
    {
    }
    var base := |last.created| - |since|;
    forall k | k in since && k != since[|since| - 1] && SameRequest(k, since[|since| - 1])
      ensures exists i :: 0 <= i < |since| - 1 && SameRequest(since[i], since[|since| - 1])
    {
      var i :| 0 <= i < |since| && since[i] == k;
    }
  }

  // ---------------------------------------------------------------- starting over

  /** In this stretch the HELLOs a side takes are from its peer's present boot. */
  predicate OnlyPresentHellos(c: Crypto, worlds: seq<World>, events: seq<Event>, from: nat, at: nat, side: Side)
    requires from <= at <= |events| < |worlds|
  {
    forall i {:trigger events[i]} :: from <= i < at && events[i].side == side && events[i].op.Receive? ==>
      TakesOnly(c, worlds[i].At(side).node, events[i].op.packet, worlds[i].At(side.Other()).node.bootNonce)
  }

  /** If the packet is a HELLO that passes every check, it names this boot. */
  predicate TakesOnly(c: Crypto, n: Node, p: Packet, boot: Nonce) {
    IsControl(p.data) && p.data[3] == HELLO && ControlAdmitted(n, p) && Verifies(c, n, p.data) ==>
      p.data[4..20] == boot
  }

  lemma BootKept(c: Crypto, e: End, op: Op)
    requires KeepsSessions(op)
    ensures Advance(c, e, op).0.node.bootNonce == e.node.bootNonce
  {
    if op.Receive? {
      DecodeKeepsBoot(c, e.node, op.packet, op.decode);
    }
  }

  lemma DecodeKeepsBoot(c: Crypto, n: Node, p: Packet, env: DecodeEnv)
    ensures Decode(c, n, p, env).node.bootNonce == n.bootNonce
  {
    if IsControl(p.data) {
      ControlKeepsBoot(c, n, p, env);
    } else {
      DataKeepsBoot(c, n, p, env);
    }
  }

  lemma ControlKeepsBoot(c: Crypto, n: Node, p: Packet, env: DecodeEnv)
    requires IsControl(p.data)
    ensures ControlReceived(c, n, p, env).node.bootNonce == n.bootNonce
  {
  }

  lemma DataKeepsBoot(c: Crypto, n: Node, p: Packet, env: DecodeEnv)
    ensures DecodeData(c, n, p, env).node.bootNonce == n.bootNonce
  {
  }

  /** A re-key in such a stretch is to the peer's present boot. */
  lemma RekeysToPresent(c: Crypto, e: End, op: Op, boot: Nonce)
    requires KeepsSessions(op) && (op.Receive? ==> TakesOnly(c, e.node, op.packet, boot))
    ensures
      var f := Advance(c, e, op).0;
      if f.created == e.created then f.node.rxKey == e.node.rxKey && f.node.peerBoot == e.node.peerBoot
      else f.node.rxKey.Some? && f.node.peerBoot == boot
  {
    CallRekeys(c, e, op);
    if op.Receive? {
      DecodeToPresent(c, e.node, op.packet, op.decode, boot);
    } else {
      LocalOpReceivesNothing(c, e, op);
    }
  }

  lemma DecodeToPresent(c: Crypto, n: Node, p: Packet, env: DecodeEnv, boot: Nonce)
    requires TakesOnly(c, n, p, boot)
    ensures Decode(c, n, p, env).created != [] ==> Decode(c, n, p, env).node.peerBoot == boot
  {
    if IsControl(p.data) {
      if ControlAdmitted(n, p) && env.verifies && Verifies(c, n, p.data) && p.data[3] == HELLO {
        HelloRekeys(n, p.data[4..20], p.data[20..36], env.hello);
      }
    } else {
      DataMoves(c, n, p, env);
    }
  }

  /** The side is keyed for its peer's present boot. */
  predicate KeyedForPresent(w: World, side: Side) {
    w.At(side).node.rxKey.Some? && w.At(side).node.peerBoot == w.At(side.Other()).node.bootNonce
  }

  lemma PresentStep(c: Crypto, w: World, event: Event, side: Side)
    requires KeepsSessions(event.op)
    requires event.side == side && event.op.Receive? ==>
               TakesOnly(c, w.At(side).node, event.op.packet, w.At(side.Other()).node.bootNonce)
    ensures
      var next := Step(c, w, event);
      KeyedForPresent(w, side) || next.At(side).created != w.At(side).created ==> KeyedForPresent(next, side)
  {
    BootKept(c, w.At(event.side), event.op);
    if event.side == side {
      RekeysToPresent(c, w.At(side), event.op, w.At(side.Other()).node.bootNonce);
    }
  }

  /** Once re-keyed in such a stretch, a side stays keyed for its peer's present boot. */
  lemma {:induction false} StaysPresent(c: Crypto, config: Config, worlds: seq<World>, events: seq<Event>,
                                        i: nat, j: nat, side: Side)
    requires IsRun(c, config, worlds, events) && i < j <= |events|
    requires BothUndisturbed(events, i, j)
    requires OnlyPresentHellos(c, worlds, events, i, j, side)
    requires worlds[i + 1].At(side).created != worlds[i].At(side).created
    ensures KeyedForPresent(worlds[j], side)
    decreases j
  {
    var event := events[j - 1];
    assert Leads(c, worlds[j - 1], event, worlds[j]);
    assert KeepsSessions(event.op);
    PresentStep(c, worlds[j - 1], event, side);
    if j == i + 1 {
    } else {
      StaysPresent(c, config, worlds, events, i, j - 1, side);
    }
  }

  /**
   * The reconnect cascade ends, over two nodes: in a stretch of any run in which neither side
   * is reset or given new settings, and HELLOs are from the peer's present boot, each side
   * drops its send key to start over at most once.
   */
  lemma StartsOverOnce(c: Crypto, config: Config, worlds: seq<World>, events: seq<Event>,
                       from: nat, at: nat, i: nat, j: nat, side: Side)
    requires IsRun(c, config, worlds, events) && from <= at <= |events|
    requires BothUndisturbed(events, from, at)
    requires OnlyPresentHellos(c, worlds, events, from, at, side)
    requires from <= i < at && from <= j < at
    requires StartsOver(worlds[i].At(side), worlds[i + 1].At(side))
    requires StartsOver(worlds[j].At(side), worlds[j + 1].At(side))
    ensures i == j
  {
    if i < j {
      CannotStartAgain(c, config, worlds, events, i, j, side);
    } else if j < i {
      CannotStartAgain(c, config, worlds, events, j, i, side);
    }
  }

  lemma CannotStartAgain(c: Crypto, config: Config, worlds: seq<World>, events: seq<Event>, i: nat, j: nat, side: Side)
    requires IsRun(c, config, worlds, events) && i < j < |events|
    requires BothUndisturbed(events, i, j + 1)
    requires OnlyPresentHellos(c, worlds, events, i, j + 1, side)
    requires StartsOver(worlds[i].At(side), worlds[i + 1].At(side))
    ensures !StartsOver(worlds[j].At(side), worlds[j + 1].At(side))
  {
    StaysPresent(c, config, worlds, events, i, j, side);
    assert Leads(c, worlds[j], events[j], worlds[j + 1]);
    DoesNotStart(c, worlds[j], events[j], side);
  }

  lemma DoesNotStart(c: Crypto, w: World, event: Event, side: Side)
    requires KeepsSessions(event.op) && KeyedForPresent(w, side)
    requires event.side == side && event.op.Receive? ==>
               TakesOnly(c, w.At(side).node, event.op.packet, w.At(side.Other()).node.bootNonce)
    ensures !StartsOver(w.At(side), Step(c, w, event).At(side))
  {
    if event.side == side {
      RekeysToPresent(c, w.At(side), event.op, w.At(side.Other()).node.bootNonce);
    }
  }
}
