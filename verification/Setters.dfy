/**
 * Changing the settings while packets flow. A setter holds settings_lock from its
 * snapshot to its commit but holds crypto_lock only at those two points, so packets run
 * between its draw of a boot nonce, every step of its file write, and its commit; and
 * power may fail anywhere.
 */
module Setters {
  import opened Prelude
  import opened Wire
  import opened Primitives
  import opened Session
  import opened Link
  import opened Store

  /** A setter call. The key setter is given text, which may fail to decode. */
  datatype Update =
    | SetKey(decoded: Option<Key>)
    | SetEnabled(value: bool)
    | SetTx(value: bool)
    | SetRx(value: bool)

  /** What an update makes of the settings. */
  function Updated(s: Settings, u: Update): Settings {
    match u
    case SetKey(Some(key)) => s.(key := key, keySet := true)
    case SetKey(None) => s
    case SetEnabled(value) => s.(enabled := value)
    case SetTx(value) => s.(tx := value)
    case SetRx(value) => s.(rx := value)
  }

  /** Where the holder of settings_lock is. */
  datatype Phase =
    | Holding                                     // the lock was just taken
    | Snapped(next: Settings)                     // the changed copy is made
    | Armed(next: Settings, boot: Nonce)          // the next boot nonce is drawn
    | Saving(next: Settings, boot: Nonce, start: Disk, env: SaveEnv, at: nat)
    | Saved(next: Settings, boot: Nonce)          // the file is replaced
    | Doomed(error: Errno)                        // the draw or the save failed
    | Leaving                                     // committed or refused; the lock is still held

  datatype Holder = Holder(update: Update, phase: Phase)

  /** A setter that is over, and whether it took effect. */
  datatype Finished = Finished(update: Update, ok: bool)

  /**
   * One node with its disk and its settings writers. `base` is what initialisation left in
   * the settings, `acquired` the updates in the order in which they got the lock since then,
   * `finished` those that are over.
   */
  datatype Host = Host(side: End, disk: Disk, holder: Option<Holder>, waiting: multiset<Update>,
                       base: Settings, loaded: bool, acquired: seq<Update>, finished: seq<Finished>)

  datatype Move =
    | Crash
    | Boot(cryptoOk: bool, draw: Draw, env: LoadEnv, importOk: bool)
    | Handle(op: Op)
    | Call(update: Update)
    | Acquire(update: Update)
    | Snapshot
    | DrawBoot(boot: Nonce)
    | DrawFails
    | StartSave(save: SaveEnv)
    | SaveStep
    | SaveEnds
    | CommitNow(commitImportOk: bool)
    | Release

  /** A node at power-up, with whatever settings file it has. */
  function PoweredUp(config: Config, disk: Disk): Host {
    Host(End(PowerUp(config), [], [], [], []), disk, None, multiset{}, DefaultSettings(), false, [], [])
  }

  /** The calls that handle packets and connection requests. */
  predicate IsPacketOp(op: Op) {
    op.Ask? || op.Transmit? || op.Receive?
  }

  /** Every state the disk goes through while the holder saves. */
  function TraceOf(crc: Crc, p: Phase): seq<Disk>
    requires p.Saving?
  {
    SaveTrace(p.start, Record(crc, p.next), p.env)
  }

  predicate MayMove(crc: Crc, h: Host, m: Move) {
    var phase := if h.holder.Some? then h.holder.value.phase else Leaving;
    match m
    case Crash => true
    case Boot(_, _, env, _) => !h.side.node.initialized && env.openError != Some(ENOENT)
    case Handle(op) => IsPacketOp(op)
    case Call(_) => h.side.node.initialized
    case Acquire(update) => h.holder.None? && update in h.waiting
    case Snapshot => phase.Holding?
    case DrawBoot(_) => phase.Snapped?
    case DrawFails => phase.Snapped?
    case StartSave(_) => phase.Armed?
    case SaveStep => phase.Saving? && phase.at < |TraceOf(crc, phase)|
    case SaveEnds => phase.Saving? && phase.at == |TraceOf(crc, phase)|
    case CommitNow(_) => phase.Saved? || phase.Doomed?
    case Release => h.holder.Some? && phase.Leaving?
  }

  function InPhase(h: Host, phase: Phase): Host
    requires h.holder.Some?
  {
    h.(holder := Some(h.holder.value.(phase := phase)))
  }

  function Over(h: Host, ok: bool): Host
    requires h.holder.Some?
  {
    InPhase(h, Leaving).(finished := h.finished + [Finished(h.holder.value.update, ok)])
  }

  /** kfsw_radio_uhf_crypto_init, with the settings file it finds. */
  function Booted(crc: Crc, h: Host, cryptoOk: bool, draw: Draw, env: LoadEnv, importOk: bool): Host {
    var found := LoadFile(crc, Contents(h.disk.settings), env);
    var n := Init(h.side.node, InitEnv(cryptoOk, draw, found, importOk)).0;
    h.(side := h.side.(node := n), base := n.settings, loaded := cryptoOk && draw.Drawn? && !found.LoadFailed?)
  }

  function Moved(c: Crypto, crc: Crc, h: Host, m: Move): Host
    requires MayMove(crc, h, m)
  {
    match m
    case Crash => PoweredUp(h.side.node.config, h.disk.Crashed()).(side := h.side.(node := PowerUp(h.side.node.config)))
    case Boot(cryptoOk, draw, env, importOk) => Booted(crc, h, cryptoOk, draw, env, importOk)
    case Handle(op) => h.(side := Advance(c, h.side, op).0)
    case Call(update) => h.(waiting := h.waiting + multiset{update})
    case Acquire(update) =>
      h.(holder := Some(Holder(update, Holding)), waiting := h.waiting - multiset{update},
         acquired := h.acquired + [update])
    case Snapshot =>
      if h.holder.value.update == SetKey(None) then Over(h, false)
      else InPhase(h, Snapped(Updated(h.side.node.settings, h.holder.value.update)))
    case DrawBoot(boot) => InPhase(h, Armed(h.holder.value.phase.next, boot))
    case DrawFails => InPhase(h, Doomed(EIO))
    case StartSave(save) =>
      InPhase(h, Saving(h.holder.value.phase.next, h.holder.value.phase.boot, h.disk, save, 0))
    case SaveStep =>
      var p := h.holder.value.phase;
      InPhase(h, p.(at := p.at + 1)).(disk := TraceOf(crc, p)[p.at])
    case SaveEnds =>
      var p := h.holder.value.phase;
      var outcome := SaveOutcome(Record(crc, p.next), p.env);
      InPhase(h, if outcome.Failed? then Doomed(outcome.error) else Saved(p.next, p.boot))
    case CommitNow(importOk) =>
      var p, n := h.holder.value.phase, h.side.node;
      if p.Saved? then
        Over(h, true).(side := h.side.(node := Commit(n, p.next, p.boot, h.holder.value.update.SetKey?, importOk)))
      else
        Over(h, false).(side := h.side.(node := CommitFailed(n, p.error)))
    case Release => h.(holder := None)
  }

  /** A possible move leads from one state of the host to the next. */
  predicate MoveLeads(c: Crypto, crc: Crc, h: Host, m: Move, next: Host) {
    MayMove(crc, h, m) && next == Moved(c, crc, h, m)
  }

  /** `hosts` lists the states around each move, from power-up with a settled disk. */
  predicate IsHostRun(c: Crypto, crc: Crc, hosts: seq<Host>, moves: seq<Move>) {
    && |hosts| == |moves| + 1
    && Settled(hosts[0].disk) && hosts[0] == PoweredUp(hosts[0].side.node.config, hosts[0].disk)
    && forall i {:trigger moves[i]} :: 0 <= i < |moves| ==> MoveLeads(c, crc, hosts[i], moves[i], hosts[i + 1])
  }

  // ---------------------------------------------------------------- the invariant

  /** The settings after the updates that took effect, one after the other. */
  function Effective(base: Settings, finished: seq<Finished>): Settings {
    if finished == [] then base
    else
      var last := finished[|finished| - 1];
      var before := Effective(base, finished[..|finished| - 1]);
      if last.ok then Updated(before, last.update) else before
  }

  function UpdatesOf(finished: seq<Finished>): seq<Update> {
    if finished == [] then []
    else UpdatesOf(finished[..|finished| - 1]) + [finished[|finished| - 1].update]
  }

  /** The file holds these settings; a missing file stands for the defaults. */
  predicate Agrees(crc: Crc, d: Disk, s: Settings) {
    var found := LoadFile(crc, Contents(d.settings), HEALTHY);
    found == Found(s) || (found == NotFound && s == DefaultSettings())
  }

  /** Initialisation read the file, or an update has replaced it since. */
  predicate Tracked(h: Host) {
    h.loaded || exists f :: f in h.finished && f.ok
  }

  /** The lock holder works on the settings as they are. */
  predicate PhaseInv(s: Settings, holder: Holder) {
    var p := holder.phase;
    (p.Snapped? || p.Armed? || p.Saving? || p.Saved? ==>
       p.next == Updated(s, holder.update) && holder.update != SetKey(None))
  }

  /** The disk is where the holder's phase says, and otherwise agrees with memory. */
  predicate DiskInv(crc: Crc, h: Host) {
    var s := h.side.node.settings;
    if h.holder.Some? && h.holder.value.phase.Saving? then
      var p := h.holder.value.phase;
      && Settled(p.start) && (Tracked(h) ==> Agrees(crc, p.start, s))
      && p.at <= |TraceOf(crc, p)|
      && h.disk == DiskAfter(p.start, TraceOf(crc, p)[..p.at])
    else if h.holder.Some? && h.holder.value.phase.Saved? then
      && Settled(h.disk)
      && Contents(h.disk.settings) == Some(Record(crc, h.holder.value.phase.next))
    else
      Settled(h.disk) && (Tracked(h) ==> Agrees(crc, h.disk, s))
  }

  /** The holder is replacing the file, or has replaced it and not committed. */
  predicate Replacing(h: Host) {
    h.holder.Some? && (h.holder.value.phase.Saving? || h.holder.value.phase.Saved?)
  }

  /** Outside a replacement only disk, settings and standing matter. */
  lemma StandingKept(crc: Crc, h: Host, after: Host)
    requires DiskInv(crc, h) && !Replacing(h) && !Replacing(after)
    requires after.disk == h.disk && after.side.node.settings == h.side.node.settings && (Tracked(after) ==> Tracked(h))
    ensures DiskInv(crc, after)
  {
  }

  /** A loaded master key is the key in the settings. */
  predicate Keyed(n: Node) {
    && (n.master.Some? ==> n.master.value == n.settings.key && n.settings.keySet)
    && (!n.initialized ==> n.master.None? && n.settings == DefaultSettings())
  }

  predicate HostInv(crc: Crc, h: Host) {
    && Keyed(h.side.node)
    && h.side.node.settings == Effective(h.base, h.finished)
    && h.acquired == UpdatesOf(h.finished) +
         (if h.holder.Some? && !h.holder.value.phase.Leaving? then [h.holder.value.update] else [])
    && (h.holder.Some? ==> PhaseInv(h.side.node.settings, h.holder.value))
    && DiskInv(crc, h)
    && (!h.side.node.initialized ==> h.holder.None? && h.waiting == multiset{} && h.finished == [] && !h.loaded)
  }

  lemma PacketKeepsSettings(c: Crypto, e: End, op: Op)
    requires IsPacketOp(op)
    ensures
      var n := Advance(c, e, op).0.node;
      n.settings == e.node.settings && n.master == e.node.master && n.initialized == e.node.initialized
  {
    if op.Transmit? {
      EncodeKeepsSettings(c, e.node, op.packet, op.encode);
    } else if op.Receive? {
      DecodeKeepsSettings(c, e.node, op.packet, op.decode);
    }
  }

  lemma EncodeKeepsSettings(c: Crypto, n: Node, p: Packet, env: EncodeEnv)
    ensures
      var m := Encode(c, n, p, env).node;
      m.settings == n.settings && m.master == n.master && m.initialized == n.initialized
  {
  }

  lemma DecodeKeepsSettings(c: Crypto, n: Node, p: Packet, env: DecodeEnv)
    ensures
      var m := Decode(c, n, p, env).node;
      m.settings == n.settings && m.master == n.master && m.initialized == n.initialized
  {
    if IsControl(p.data) {
      ControlKeepsSettings(c, n, p, env);
    } else {
      DataKeepsSettings(c, n, p, env);
    }
  }

  lemma DataKeepsSettings(c: Crypto, n: Node, p: Packet, env: DecodeEnv)
    ensures
      var m := DecodeData(c, n, p, env).node;
      m.settings == n.settings && m.master == n.master && m.initialized == n.initialized
  {
  }

  lemma ControlKeepsSettings(c: Crypto, n: Node, p: Packet, env: DecodeEnv)
    requires IsControl(p.data)
    ensures
      var m := ControlReceived(c, n, p, env).node;
      m.settings == n.settings && m.master == n.master && m.initialized == n.initialized
  {
  }

  lemma BootKeeps(crc: Crc, h: Host, cryptoOk: bool, draw: Draw, env: LoadEnv, importOk: bool)
    requires HostInv(crc, h) && !h.side.node.initialized && env.openError != Some(ENOENT)
    ensures HostInv(crc, Booted(crc, h, cryptoOk, draw, env, importOk))
  {
  }

  lemma StartKeeps(c: Crypto, crc: Crc, h: Host, m: Move)
    requires HostInv(crc, h) && MayMove(crc, h, m) && m.StartSave?
    ensures HostInv(crc, Moved(c, crc, h, m))
  {
  }

  /** One more operation of a save. */
  lemma OperationKeeps(crc: Crc, h: Host)
    requires DiskInv(crc, h) && h.holder.Some? && h.holder.value.phase.Saving?
    requires h.holder.value.phase.at < |TraceOf(crc, h.holder.value.phase)|
    ensures
      var p := h.holder.value.phase;
      DiskInv(crc, InPhase(h, p.(at := p.at + 1)).(disk := TraceOf(crc, p)[p.at]))
  {
    var p := h.holder.value.phase;
    var trace := TraceOf(crc, p);
    assert trace[..p.at + 1][p.at] == trace[p.at];
  }

  lemma StepKeeps(c: Crypto, crc: Crc, h: Host)
    requires HostInv(crc, h) && MayMove(crc, h, SaveStep)
    ensures HostInv(crc, Moved(c, crc, h, SaveStep))
  {
    OperationKeeps(crc, h);
  }

  lemma EndKeeps(c: Crypto, crc: Crc, h: Host)
    requires HostInv(crc, h) && MayMove(crc, h, SaveEnds)
    ensures HostInv(crc, Moved(c, crc, h, SaveEnds))
  {
    var p := h.holder.value.phase;
    var trace := TraceOf(crc, p);
    assert trace[..p.at] == trace;
    SaveReplaces(crc, p.start, p.next, p.env);
  }

  /** An update that took no effect changes neither the settings owed nor the file's standing. */
  lemma NothingOwed(base: Settings, finished: seq<Finished>, update: Update)
    ensures
      var longer := finished + [Finished(update, false)];
      && Effective(base, longer) == Effective(base, finished)
      && UpdatesOf(longer) == UpdatesOf(finished) + [update]
      && ((exists f :: f in longer && f.ok) <==> (exists f :: f in finished && f.ok))
  {
    var longer := finished + [Finished(update, false)];
    assert longer[..|finished|] == finished;
    forall f | f in finished
      ensures f in longer
    {
    }
  }

  /** What a commit installs; only a changed key touches the master key. */
  lemma CommitInstalls(n: Node, next: Settings, boot: Nonce, changedKey: bool, importOk: bool)
    requires Keyed(n) && n.initialized
    requires changedKey ==> next.keySet
    requires !changedKey ==> next.key == n.settings.key && next.keySet == n.settings.keySet
    ensures
      var m := Commit(n, next, boot, changedKey, importOk);
      m.settings == next && m.initialized && Keyed(m)
  {
  }

  /** An update that took effect is applied to the settings owed. */
  lemma OneMoreOwed(base: Settings, finished: seq<Finished>, update: Update)
    ensures
      var longer := finished + [Finished(update, true)];
      && Effective(base, longer) == Updated(Effective(base, finished), update)
      && UpdatesOf(longer) == UpdatesOf(finished) + [update]
  {
    assert (finished + [Finished(update, true)])[..|finished|] == finished;
  }

  /** A file that holds the settings in force is in good standing, whoever tracks it. */
  lemma FileStands(crc: Crc, h: Host)
    requires !Replacing(h) && Settled(h.disk)
    requires Contents(h.disk.settings) == Some(Record(crc, h.side.node.settings))
    ensures DiskInv(crc, h)
  {
    RecordRoundTrip(crc, h.side.node.settings);
  }

  /** An update that succeeded is over; the node has what the file already holds. */
  lemma SuccessKeeps(crc: Crc, h: Host, node: Node)
    requires HostInv(crc, h) && h.holder.Some? && h.holder.value.phase.Saved?
    requires node.settings == h.holder.value.phase.next && node.initialized && Keyed(node)
    ensures HostInv(crc, Over(h, true).(side := h.side.(node := node)))
  {
    OneMoreOwed(h.base, h.finished, h.holder.value.update);
    FileStands(crc, Over(h, true).(side := h.side.(node := node)));
  }

  /** An update that is refused, or fails, is over; nothing else changes but the last error. */
  lemma RefusalKeeps(crc: Crc, h: Host, node: Node)
    requires HostInv(crc, h) && h.holder.Some? && !h.holder.value.phase.Leaving? && !Replacing(h)
    requires node == h.side.node.(status := node.status)
    ensures HostInv(crc, Over(h, false).(side := h.side.(node := node)))
  {
    NothingOwed(h.base, h.finished, h.holder.value.update);
    StandingKept(crc, h, Over(h, false).(side := h.side.(node := node)));
  }

  lemma CommitKeeps(c: Crypto, crc: Crc, h: Host, m: Move)
    requires HostInv(crc, h) && MayMove(crc, h, m) && m.CommitNow?
    ensures HostInv(crc, Moved(c, crc, h, m))
  {
    if h.holder.value.phase.Saved? {
      var p, isKey := h.holder.value.phase, h.holder.value.update.SetKey?;
      CommitInstalls(h.side.node, p.next, p.boot, isKey, m.commitImportOk);
      SuccessKeeps(crc, h, Commit(h.side.node, p.next, p.boot, isKey, m.commitImportOk));
    } else {
      RefusalKeeps(crc, h, CommitFailed(h.side.node, h.holder.value.phase.error));
    }
  }

  lemma SnapshotKeeps(c: Crypto, crc: Crc, h: Host)
    requires HostInv(crc, h) && MayMove(crc, h, Snapshot)
    ensures HostInv(crc, Moved(c, crc, h, Snapshot))
  {
    if h.holder.value.update == SetKey(None) {
      RefusalKeeps(crc, h, h.side.node);
      assert h.side == h.side.(node := h.side.node);
    }
  }

  lemma LockMoveKeeps(c: Crypto, crc: Crc, h: Host, m: Move)
    requires HostInv(crc, h) && MayMove(crc, h, m)
    requires m.Call? || m.Acquire? || m.DrawBoot? || m.DrawFails? || m.Release?
    ensures HostInv(crc, Moved(c, crc, h, m))
  {
  }

  lemma MoveKeeps(c: Crypto, crc: Crc, h: Host, m: Move)
    requires HostInv(crc, h) && MayMove(crc, h, m)
    ensures HostInv(crc, Moved(c, crc, h, m))
  {
    match m
    case Crash =>
    case Boot(cryptoOk, draw, env, importOk) => BootKeeps(crc, h, cryptoOk, draw, env, importOk);
    case Handle(op) => PacketKeepsSettings(c, h.side, op);
    case StartSave(_) => StartKeeps(c, crc, h, m);
    case SaveStep => StepKeeps(c, crc, h);
    case SaveEnds => EndKeeps(c, crc, h);
    case CommitNow(_) => CommitKeeps(c, crc, h, m);
    case Snapshot => SnapshotKeeps(c, crc, h);
    case _ => LockMoveKeeps(c, crc, h, m);
  }

  /** The invariant holds in every state of every run of the host. */
  lemma {:induction false} HostRunKeeps(c: Crypto, crc: Crc, hosts: seq<Host>, moves: seq<Move>, i: nat)
    requires IsHostRun(c, crc, hosts, moves) && i < |hosts|
    ensures HostInv(crc, hosts[i])
  {
    if i == 0 {
    } else {
      HostRunKeeps(c, crc, hosts, moves, i - 1);
      MoveKeeps(c, crc, hosts[i - 1], moves[i - 1]);
    }
  }

  // ---------------------------------------------------------------- what it means

  /**
   * No lost update: under any interleaving of setters, packets, failures and crashes, the
   * settings are those of initialisation with the successful updates applied one by one, in
   * the order in which the setters got settings_lock; every update that is over is accounted
   * for, and at most the present holder's is not.
   */
  lemma SettersAreSerial(c: Crypto, crc: Crc, hosts: seq<Host>, moves: seq<Move>, i: nat)
    requires IsHostRun(c, crc, hosts, moves) && i < |hosts|
    ensures
      var h := hosts[i];
      && h.side.node.settings == Effective(h.base, h.finished)
      && UpdatesOf(h.finished) <= h.acquired
      && |h.acquired| <= |h.finished| + 1
      && (h.holder.None? ==> h.acquired == UpdatesOf(h.finished))
  {
    HostRunKeeps(c, crc, hosts, moves, i);
    var h := hosts[i];
    UpdatesLength(h.finished);
  }

  lemma UpdatesLength(finished: seq<Finished>)
    ensures |UpdatesOf(finished)| == |finished|
  {
  }

  /**
   * Memory and file agree: once the file was read, or an update went through, and no setter
   * holds the lock, a load finds exactly the settings in force; and a loaded master key is
   * the key among them.
   */
  lemma FileAgrees(c: Crypto, crc: Crc, hosts: seq<Host>, moves: seq<Move>, i: nat)
    requires IsHostRun(c, crc, hosts, moves) && i < |hosts|
    ensures
      var h := hosts[i];
      && (h.holder.None? && Tracked(h) ==> Agrees(crc, h.disk, h.side.node.settings))
      && (h.side.node.master.Some? ==> h.side.node.master.value == h.side.node.settings.key)
  {
    HostRunKeeps(c, crc, hosts, moves, i);
  }

  /**
   * A crash at any point, inside a save as well, leaves a file that loads as it did before the
   * save under way, or as what the update being saved makes of the settings in force; and once
   * the file was read or replaced, what it did before are the settings in force.
   */
  lemma CrashFindsOldOrNew(c: Crypto, crc: Crc, hosts: seq<Host>, moves: seq<Move>, i: nat)
    requires IsHostRun(c, crc, hosts, moves) && i < |hosts|
    ensures
      var h := hosts[i];
      var found := LoadFile(crc, Contents(h.disk.Crashed().settings), HEALTHY);
      if !Replacing(h) then found == LoadFile(crc, Contents(h.disk.settings), HEALTHY)
      else
        || found == Found(Updated(h.side.node.settings, h.holder.value.update))
        || (h.holder.value.phase.Saving? &&
            found == LoadFile(crc, Contents(h.holder.value.phase.start.settings), HEALTHY))
    ensures
      var h := hosts[i];
      Tracked(h) ==>
        || Agrees(crc, h.disk.Crashed(), h.side.node.settings)
        || (Replacing(h) && Agrees(crc, h.disk.Crashed(), Updated(h.side.node.settings, h.holder.value.update)))
  {
    HostRunKeeps(c, crc, hosts, moves, i);
    var h := hosts[i];
    if h.holder.Some? && h.holder.value.phase.Saving? {
      var p := h.holder.value.phase;
      CrashMidSave(crc, p.start, p.next, p.env, p.at);
    } else if h.holder.Some? && h.holder.value.phase.Saved? {
      RecordRoundTrip(crc, h.holder.value.phase.next);
    }
  }

  // ---------------------------------------------------------------- the settings, field by field

  /** What the updates that took effect gave last, field by field. */
  datatype Given = Given(key: Option<Key>, enabled: Option<bool>, tx: Option<bool>, rx: Option<bool>)

  function Gives(before: Given, f: Finished): Given {
    if !f.ok then before
    else
      match f.update
      case SetKey(decoded) => if decoded.Some? then before.(key := decoded) else before
      case SetEnabled(value) => before.(enabled := Some(value))
      case SetTx(value) => before.(tx := Some(value))
      case SetRx(value) => before.(rx := Some(value))
  }

  function GivenBy(finished: seq<Finished>): Given {
    if finished == [] then Given(None, None, None, None)
    else Gives(GivenBy(finished[..|finished| - 1]), finished[|finished| - 1])
  }

  function OrKey(given: Option<Key>, base: Key): Key {
    if given.Some? then given.value else base
  }

  function OrSwitch(given: Option<bool>, base: bool): bool {
    if given.Some? then given.value else base
  }

  /** Each field is what was last given for it, or what it was. */
  predicate LastGiven(s: Settings, base: Settings, given: Given) {
    KeyLastGiven(s, base, given) && SwitchesLastGiven(s, base, given)
  }

  predicate KeyLastGiven(s: Settings, base: Settings, given: Given) {
    s.key == OrKey(given.key, base.key) && s.keySet == (given.key.Some? || base.keySet)
  }

  predicate SwitchesLastGiven(s: Settings, base: Settings, given: Given) {
    && s.enabled == OrSwitch(given.enabled, base.enabled)
    && s.tx == OrSwitch(given.tx, base.tx)
    && s.rx == OrSwitch(given.rx, base.rx)
  }

  lemma UpdateGivesKey(s: Settings, base: Settings, given: Given, f: Finished)
    requires KeyLastGiven(s, base, given)
    ensures KeyLastGiven(if f.ok then Updated(s, f.update) else s, base, Gives(given, f))
  {
  }

  lemma UpdateGivesSwitches(s: Settings, base: Settings, given: Given, f: Finished)
    requires SwitchesLastGiven(s, base, given)
    ensures SwitchesLastGiven(if f.ok then Updated(s, f.update) else s, base, Gives(given, f))
  {
  }

  lemma {:induction false} EffectiveIsLastGiven(base: Settings, finished: seq<Finished>)
    ensures LastGiven(Effective(base, finished), base, GivenBy(finished))
  {
    if finished == [] {
    } else {
      var before := finished[..|finished| - 1];
      EffectiveIsLastGiven(base, before);
      UpdateGivesKey(Effective(base, before), base, GivenBy(before), finished[|finished| - 1]);
      UpdateGivesSwitches(Effective(base, before), base, GivenBy(before), finished[|finished| - 1]);
    }
  }

  /**
   * Every setter sets its own field and no other: in every run of a host the key is the last
   * one given by an update that took effect, and so is each of the three switches, or else
   * what initialisation left; and when no setter is under way, the file holds the same.
   */
  lemma SettingsAreLastGiven(c: Crypto, crc: Crc, hosts: seq<Host>, moves: seq<Move>, i: nat)
    requires IsHostRun(c, crc, hosts, moves) && i < |hosts|
    ensures LastGiven(hosts[i].side.node.settings, hosts[i].base, GivenBy(hosts[i].finished))
    ensures
      var h := hosts[i];
      var found := LoadFile(crc, Contents(h.disk.settings), HEALTHY);
      h.holder.None? && Tracked(h) ==>
        || (found.Found? && LastGiven(found.settings, h.base, GivenBy(h.finished)))
        || (found.NotFound? && LastGiven(DefaultSettings(), h.base, GivenBy(h.finished)))
    ensures
      var n := hosts[i].side.node;
      n.master.Some? ==> n.master.value == OrKey(GivenBy(hosts[i].finished).key, hosts[i].base.key)
  {
    HostRunKeeps(c, crc, hosts, moves, i);
    EffectiveIsLastGiven(hosts[i].base, hosts[i].finished);
    FileAgrees(c, crc, hosts, moves, i);
  }

  /** The call of module Link a move is for the node, if it is one. */
  function OpOf(crc: Crc, h: Host, m: Move): Option<Op>
    requires MayMove(crc, h, m)
  {
    match m
    case Crash => Some(PowerCycle)
    case Boot(cryptoOk, draw, env, importOk) =>
      Some(Initialise(InitEnv(cryptoOk, draw, LoadFile(crc, Contents(h.disk.settings), env), importOk)))
    case Handle(op) => Some(op)
    case CommitNow(importOk) =>
      var p := h.holder.value.phase;
      if p.Saved? then Some(Apply(p.next, p.boot, h.holder.value.update.SetKey?, importOk))
      else Some(Reject(p.error))
    case _ => None
  }

  /** Every move is, for the node, exactly one call of module Link or nothing at all. */
  lemma MoveIsOneCall(c: Crypto, crc: Crc, h: Host, m: Move)
    requires MayMove(crc, h, m)
    ensures
      var op := OpOf(crc, h, m);
      Moved(c, crc, h, m).side == if op.None? then h.side else Advance(c, h.side, op.value).0
  {
    if m.CommitNow? {
      CommitIsOneCall(c, crc, h, m);
    } else if m.Boot? {
      BootIsOneCall(c, crc, h, m);
    }
  }

  lemma BootIsOneCall(c: Crypto, crc: Crc, h: Host, m: Move)
    requires MayMove(crc, h, m) && m.Boot?
    ensures Moved(c, crc, h, m).side == Advance(c, h.side, OpOf(crc, h, m).value).0
  {
  }

  lemma CommitIsOneCall(c: Crypto, crc: Crc, h: Host, m: Move)
    requires MayMove(crc, h, m) && m.CommitNow?
    ensures Moved(c, crc, h, m).side == Advance(c, h.side, OpOf(crc, h, m).value).0
  {
  }

  /**
   * The node sees of a setter one atomic call, at the commit: every other step of it leaves
   * settings and sessions exactly as they are; the call applies the update to the settings
   * then in force, and a failed one only sets the last error.
   */
  lemma OnlyCommitsTouchTheNode(c: Crypto, crc: Crc, h: Host, m: Move)
    requires HostInv(crc, h) && MayMove(crc, h, m)
    ensures
      var after := Moved(c, crc, h, m).side;
      match OpOf(crc, h, m)
      case None => after == h.side
      case Some(op) =>
        && after == Advance(c, h.side, op).0
        && (op.Apply? ==>
              && op.next == Updated(h.side.node.settings, h.holder.value.update)
              && op.changedKey == h.holder.value.update.SetKey?)
        && (op.Reject? ==> after.node == h.side.node.(status := after.node.status))
        && (op.Ask? || op.Transmit? || op.Receive? ==> after.node.settings == h.side.node.settings)
  {
    MoveIsOneCall(c, crc, h, m);
    if m.Handle? {
      PacketKeepsSettings(c, h.side, m.op);
    }
  }
}
