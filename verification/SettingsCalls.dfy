/**
 * The settings calls as they are written: one setter from its snapshot to its commit, with
 * no packet in between. What packets and other setters may do in between is module Setters.
 */
module SettingsCalls {
  import opened Prelude
  import opened Session
  import opened Store
  import opened Setters
  import Radio

  /** What the outside answers to a setter. */
  datatype SetterEnv = SetterEnv(draw: Draw, save: SaveEnv, importOk: bool)

  /** The state after save_settings: all of the new settings or none of them. */
  function SavedState(crc: Crc, n: Node, next: Settings, changedKey: bool, env: SetterEnv): Node {
    if env.draw.DrawFailed? then CommitFailed(n, EIO)
    else
      var outcome := SaveOutcome(Record(crc, next), env.save);
      if outcome.Failed? then CommitFailed(n, outcome.error)
      else Commit(n, next, env.draw.nonce, changedKey, env.importOk)
  }

  /** The disk after save_settings: without a boot nonce nothing is written. */
  function SavedDisk(crc: Crc, d: Disk, next: Settings, env: SetterEnv): Disk {
    if env.draw.DrawFailed? then d else DiskAfter(d, SaveTrace(d, Record(crc, next), env.save))
  }

  /** save_settings */
  method SaveSettings(radio: Radio.Radio, fs: FileSystem, crc: Crc, next: Settings, changedKey: bool, env: SetterEnv)
    requires radio.Valid()
    modifies radio, fs
    ensures radio.State() == SavedState(crc, old(radio.State()), next, changedKey, env)
    ensures fs.disk == SavedDisk(crc, old(fs.disk), next, env)
    ensures radio.Valid()
  {
    var outcome := if env.draw.DrawFailed? then Failed(EIO) else Done;
    if outcome == Done {
      outcome := Save(fs, crc, next, env.save);
    }
    if outcome == Done {
      radio.CommitSettings(next, env.draw.nonce, changedKey, env.importOk);
    } else {
      radio.Remember(outcome.error);
    }
  }

  /** radio_crypto_set_key and set_switch, from the lock to its release. */
  method Set(radio: Radio.Radio, fs: FileSystem, crc: Crc, update: Update, env: SetterEnv)
    requires radio.Valid()
    modifies radio, fs
    ensures radio.Valid()
    ensures radio.State() ==
            if !old(radio.initialized) || update == SetKey(None) then old(radio.State())
            else SetState(crc, old(radio.State()), update, env)
    ensures fs.disk ==
            if !old(radio.initialized) || update == SetKey(None) then old(fs.disk)
            else SetDisk(crc, old(radio.State()), old(fs.disk), update, env)
  {
    if !radio.initialized {
      return;
    }
    var next := radio.settings;
    match update {
      case SetKey(decoded) =>
        if decoded == None {
          return;
        }
        next := next.(key := decoded.value);
        next := next.(keySet := true);
      case SetEnabled(value) => next := next.(enabled := value);
      case SetTx(value) => next := next.(tx := value);
      case SetRx(value) => next := next.(rx := value);
    }
    SaveSettings(radio, fs, crc, next, update.SetKey?, env);
  }

  /** The state after a setter with something to set, on a node that is initialised. */
  function SetState(crc: Crc, n: Node, update: Update, env: SetterEnv): Node {
    SavedState(crc, n, Updated(n.settings, update), update.SetKey?, env)
  }

  function SetDisk(crc: Crc, n: Node, d: Disk, update: Update, env: SetterEnv): Disk {
    SavedDisk(crc, d, Updated(n.settings, update), env)
  }

  /** What a setter that succeeded leaves, field by field, in the node and in the file. */
  predicate Holds(s: Settings, was: Settings, update: Update) {
    match update
    case SetKey(decoded) =>
      && (decoded.Some? ==> s.key == decoded.value && s.keySet)
      && s.enabled == was.enabled && s.tx == was.tx && s.rx == was.rx
    case SetEnabled(value) =>
      s.enabled == value && s.tx == was.tx && s.rx == was.rx && s.key == was.key && s.keySet == was.keySet
    case SetTx(value) =>
      s.tx == value && s.enabled == was.enabled && s.rx == was.rx && s.key == was.key && s.keySet == was.keySet
    case SetRx(value) =>
      s.rx == value && s.enabled == was.enabled && s.tx == was.tx && s.key == was.key && s.keySet == was.keySet
  }

  /**
   * What each setter does when draw and save succeed: its own field takes the value, in the
   * node and in the file, and no other; a new key is the master key if the import
   * succeeds, and any other setter leaves the master key alone; no session is left, the boot
   * nonce is new, both gates are open, and the last error is that of the import.
   */
  lemma SetterSetsItsField(crc: Crc, n: Node, d: Disk, update: Update, env: SetterEnv)
    requires update != SetKey(None) && env.draw.Drawn? && env.save.openError.None? && env.save.written == SETTINGS_BYTES
    requires env.save.syncError.None? && env.save.closeError.None? && env.save.renameError.None?
    ensures
      var n', d' := SetState(crc, n, update, env), SetDisk(crc, n, d, update, env);
      var found := LoadFile(crc, Contents(d'.settings), HEALTHY);
      && Holds(n'.settings, n.settings, update)
      && found.Found? && Holds(found.settings, n.settings, update)
      && n'.master == (match update
                       case SetKey(decoded) => if env.importOk then decoded else None
                       case _ => n.master)
      && n'.txKey.None? && n'.rxKey.None? && !n'.pending && n'.txSequence == 0 && n'.rxSequence == 0
      && n'.lastRequest == -1000 && n'.lastHello == -1000 && n'.bootNonce == env.draw.nonce
      && n'.status == n.status.(lastError := if update.SetKey? && !env.importOk then Some(EIO) else None)
  {
    RecordRoundTrip(crc, Updated(n.settings, update));
  }

  /** A setter that fails changes nothing but the last error, which is the first thing that went wrong. */
  lemma FailedSetterReports(crc: Crc, n: Node, d: Disk, update: Update, env: SetterEnv)
    requires env.draw.DrawFailed? || env.save.openError.Some? || env.save.written != SETTINGS_BYTES
             || env.save.syncError.Some? || env.save.closeError.Some? || env.save.renameError.Some?
    ensures
      var error :=
        if env.draw.DrawFailed? then EIO
        else if env.save.openError.Some? then env.save.openError.value
        else if env.save.written != SETTINGS_BYTES then EIO
        else if env.save.syncError.Some? then env.save.syncError.value
        else if env.save.closeError.Some? then env.save.closeError.value
        else env.save.renameError.value;
      && SetState(crc, n, update, env) == n.(status := n.status.(lastError := Some(error)))
      && SetDisk(crc, n, d, update, env).settings == d.settings
      && (env.draw.DrawFailed? ==> SetDisk(crc, n, d, update, env) == d)
  {
  }

  /**
   * A setter is all or nothing: afterwards either the settings, the settings file and the
   * sessions are the old ones, or the settings are the new ones, the file holds them and no
   * session of the old settings is left; it is the second exactly when both the draw and the
   * replacement of the file succeeded.
   */
  lemma SetterIsAllOrNothing(crc: Crc, n: Node, d: Disk, update: Update, env: SetterEnv)
    ensures
      var next := Updated(n.settings, update);
      var n' := SavedState(crc, n, next, update.SetKey?, env);
      var d' := SavedDisk(crc, d, next, env);
      if env.draw.Drawn? && SaveOutcome(Record(crc, next), env.save) == Done then
        && n'.settings == next && LoadFile(crc, Contents(d'.settings), HEALTHY) == Found(next)
        && n'.txKey.None? && n'.rxKey.None? && !n'.pending && n'.bootNonce == env.draw.nonce
        && n'.master == (if !update.SetKey? then n.master else if env.importOk then Some(next.key) else None)
      else
        n' == n.(status := n'.status) && d'.settings == d.settings
  {
    var next := Updated(n.settings, update);
    RecordRoundTrip(crc, next);
  }
}
