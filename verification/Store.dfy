/**
 * The settings file: its 44-byte record, and the write-then-rename sequence that replaces
 * it. A file has contents that readers see and contents that a crash would leave; only a
 * successful sync makes the two equal.
 */
module Store {
  import opened Prelude
  import opened ByteStrings
  import opened Buffers
  import opened Session

  const SETTINGS_BYTES := 44

  type Crc = Bytes -> u32

  // ---------------------------------------------------------------- the record

  function Bit(b: bool, weight: u8): u8 {
    if b then weight else 0
  }

  function FlagsOf(s: Settings): (f: u8)
    ensures f < 16
  {
    Bit(s.enabled, 1) + Bit(s.tx, 2) + Bit(s.rx, 4) + Bit(s.keySet, 8)
  }

  /** The 40 bytes the checksum covers: "KRU1", the flags, three zeros and the key. */
  function RecordBody(s: Settings): (b: Bytes)
    ensures |b| == 40
  {
    [0x4B, 0x52, 0x55, 0x31, FlagsOf(s), 0, 0, 0] + s.key
  }

  function Record(crc: Crc, s: Settings): (b: Bytes)
    ensures |b| == SETTINGS_BYTES
  {
    RecordBody(s) + BigEndian(4, crc(RecordBody(s)))
  }

  /** Everything radio_crypto_store_load checks about the bytes it read. */
  predicate WellFormed(crc: Crc, data: Bytes) {
    && |data| == SETTINGS_BYTES
    && data[..4] == [0x4B, 0x52, 0x55, 0x31]
    && crc(data[..40]) == FromBigEndian(data[40..])
    && data[4] < 16
  }

  /** The settings a well-formed record holds. */
  function SettingsIn(data: Bytes): Settings
    requires |data| == SETTINGS_BYTES
  {
    Settings(data[8..40], data[4] / 8 % 2 == 1, data[4] % 2 == 1, data[4] / 2 % 2 == 1, data[4] / 4 % 2 == 1)
  }

  /** How the file system answers a load. */
  datatype LoadEnv = LoadEnv(openError: Option<Errno>, readOk: bool, closeOk: bool)

  /** radio_crypto_store_load on a file with these contents, or on none. */
  function LoadFile(crc: Crc, file: Option<Bytes>, env: LoadEnv): Loaded {
    if file.None? || env.openError == Some(ENOENT) then NotFound
    else if env.openError.Some? then LoadFailed(env.openError.value)
    else if !env.readOk || !env.closeOk || !WellFormed(crc, file.value) then LoadFailed(EBADMSG)
    else Found(SettingsIn(file.value))
  }

  const HEALTHY := LoadEnv(None, true, true)

  /** Load inverts save: every settings value comes back from its record. */
  lemma RecordRoundTrip(crc: Crc, s: Settings)
    ensures LoadFile(crc, Some(Record(crc, s)), HEALTHY) == Found(s)
  {
    var data := Record(crc, s);
    Widths();
    ReadsBack(4, crc(RecordBody(s)));
    assert data[..40] == RecordBody(s) && data[40..] == BigEndian(4, crc(RecordBody(s)));
    assert data[8..40] == s.key;
  }

  /** A record with these three bytes where a save writes zeros. */
  function RecordWith(crc: Crc, s: Settings, reserved: Bytes): Bytes {
    var body := [0x4B, 0x52, 0x55, 0x31, FlagsOf(s)] + reserved + s.key;
    body + BigEndian(4, crc(body))
  }

  /**
   * A file loads as given settings exactly when it is their record, whatever the three
   * reserved bytes are, which only the checksum covers; every other file is refused.
   */
  lemma LoadsExactlyRecords(crc: Crc, data: Bytes, s: Settings)
    ensures LoadFile(crc, Some(data), HEALTHY) == Found(s) <==>
              |data| == SETTINGS_BYTES && data == RecordWith(crc, s, data[5..8])
    ensures LoadFile(crc, Some(data), HEALTHY).Found? || LoadFile(crc, Some(data), HEALTHY) == LoadFailed(EBADMSG)
    ensures data == RecordWith(crc, s, [0, 0, 0]) ==> data == Record(crc, s)
  {
    if WellFormed(crc, data) && SettingsIn(data) == s {
      WritesBack(data[40..]);
      FlagsReadBack(data[4], s);
      assert data[..40] == [0x4B, 0x52, 0x55, 0x31] + [data[4]] + data[5..8] + data[8..40];
      assert data[..40] == [0x4B, 0x52, 0x55, 0x31, FlagsOf(s)] + data[5..8] + s.key;
      assert data == data[..40] + data[40..];
    } else if |data| == SETTINGS_BYTES && data == RecordWith(crc, s, data[5..8]) {
      RecordLoads(crc, data, s);
    }
    assert [0x4B, 0x52, 0x55, 0x31, FlagsOf(s)] + [0, 0, 0] + s.key == RecordBody(s);
  }

  lemma RecordLoads(crc: Crc, data: Bytes, s: Settings)
    requires |data| == SETTINGS_BYTES && data == RecordWith(crc, s, data[5..8])
    ensures WellFormed(crc, data) && SettingsIn(data) == s
  {
    var body := [0x4B, 0x52, 0x55, 0x31, FlagsOf(s)] + data[5..8] + s.key;
    Widths();
    ReadsBack(4, crc(body));
    LastField(body, BigEndian(4, crc(body)));
    assert body[8..40] == s.key && body[..4] == [0x4B, 0x52, 0x55, 0x31];
    FieldOfPrefix(body, BigEndian(4, crc(body)), 8, 40);
    FieldOfPrefix(body, BigEndian(4, crc(body)), 0, 4);
  }

  lemma FlagsReadBack(f: u8, s: Settings)
    requires f < 16 && s.enabled == (f % 2 == 1) && s.tx == (f / 2 % 2 == 1)
    requires s.rx == (f / 4 % 2 == 1) && s.keySet == (f / 8 % 2 == 1)
    ensures FlagsOf(s) == f
  {
  }

  // ---------------------------------------------------------------- the file system

  /** What readers see, and what a crash would leave. */
  datatype File = File(contents: Bytes, durable: Bytes)

  datatype Disk = Disk(settings: Option<File>, temp: Option<File>) {
    /** After a crash the durable contents are all there is. */
    function Crashed(): Disk {
      Disk(Survivor(settings), Survivor(temp))
    }
  }

  function Survivor(file: Option<File>): Option<File> {
    match file
    case None => None
    case Some(f) => Some(File(f.durable, f.durable))
  }

  function Contents(file: Option<File>): Option<Bytes> {
    match file
    case None => None
    case Some(f) => Some(f.contents)
  }

  /** The settings file holds nothing that a crash would change. */
  predicate Settled(d: Disk) {
    d.settings.Some? ==> d.settings.value.contents == d.settings.value.durable
  }

  /**
   * How the file system answers a save: errors, the count fs_write returned, what a short
   * write left behind, and what a crash would leave of data that was never synced.
   */
  datatype SaveEnv = SaveEnv(openError: Option<Errno>, written: int, partial: Bytes, torn: Bytes,
                             syncError: Option<Errno>, closeError: Option<Errno>, renameError: Option<Errno>)

  function Truncate(d: Disk, env: SaveEnv): Disk {
    d.(temp := Some(File([], env.torn)))
  }

  function Write(d: Disk, record: Bytes, env: SaveEnv): Disk {
    d.(temp := Some(File(if env.written == |record| then record else env.partial, env.torn)))
  }

  function Sync(d: Disk): Disk
    requires d.temp.Some?
  {
    d.(temp := Some(File(d.temp.value.contents, d.temp.value.contents)))
  }

  function Rename(d: Disk): Disk {
    d.(settings := d.temp, temp := None)
  }

  /** The disk after each operation of radio_crypto_store_save that changes it. */
  function SaveTrace(d: Disk, record: Bytes, env: SaveEnv): seq<Disk> {
    if env.openError.Some? then []
    else
      var emptied := Truncate(d, env);
      var written := Write(emptied, record, env);
      if env.written != |record| || env.syncError.Some? then [emptied, written]
      else
        var synced := Sync(written);
        if env.closeError.Some? || env.renameError.Some? then [emptied, written, synced]
        else [emptied, written, synced, Rename(synced)]
  }

  function SaveOutcome(record: Bytes, env: SaveEnv): Outcome {
    if env.openError.Some? then Failed(env.openError.value)
    else if env.written != |record| then Failed(EIO)
    else if env.syncError.Some? then Failed(env.syncError.value)
    else if env.closeError.Some? then Failed(env.closeError.value)
    else if env.renameError.Some? then Failed(env.renameError.value)
    else Done
  }

  function DiskAfter(d: Disk, trace: seq<Disk>): Disk {
    if trace == [] then d else trace[|trace| - 1]
  }

  /**
   * Crash-atomic storage: wherever a save is cut short, and whichever operation fails, a
   * later load finds what it would have found before, or exactly the new settings; it finds
   * the new ones at the end if and only if the save reported success or they were there before.
   */
  lemma SaveIsAtomic(crc: Crc, d: Disk, s: Settings, env: SaveEnv)
    requires Settled(d)
    ensures
      var trace := SaveTrace(d, Record(crc, s), env);
      && (forall i :: 0 <= i < |trace| ==>
            var found := LoadFile(crc, Contents(trace[i].Crashed().settings), HEALTHY);
            found == LoadFile(crc, Contents(d.settings), HEALTHY) || found == Found(s))
      && Settled(DiskAfter(d, trace))
      && (if SaveOutcome(Record(crc, s), env) == Done
          then Contents(DiskAfter(d, trace).settings) == Some(Record(crc, s))
          else DiskAfter(d, trace).settings == d.settings)
  {
    RecordRoundTrip(crc, s);
    var trace := SaveTrace(d, Record(crc, s), env);
    forall i | 0 <= i < |trace|
      ensures Contents(trace[i].Crashed().settings) == Contents(d.settings) ||
              Contents(trace[i].Crashed().settings) == Some(Record(crc, s))
    {
    }
  }

  /** A crash after the first `at` operations of a save: the file loads as before, or as the new settings. */
  lemma CrashMidSave(crc: Crc, d: Disk, s: Settings, env: SaveEnv, at: nat)
    requires Settled(d) && at <= |SaveTrace(d, Record(crc, s), env)|
    ensures
      var now := DiskAfter(d, SaveTrace(d, Record(crc, s), env)[..at]);
      var found := LoadFile(crc, Contents(now.Crashed().settings), HEALTHY);
      found == LoadFile(crc, Contents(d.settings), HEALTHY) || found == Found(s)
  {
    SaveIsAtomic(crc, d, s, env);
    var trace := SaveTrace(d, Record(crc, s), env);
    if at > 0 {
      assert DiskAfter(d, trace[..at]) == trace[at - 1];
    }
  }

  /** What a whole save leaves: the new record in the settings file, or the old file. */
  lemma SaveReplaces(crc: Crc, d: Disk, s: Settings, env: SaveEnv)
    requires Settled(d)
    ensures
      var after := DiskAfter(d, SaveTrace(d, Record(crc, s), env));
      && Settled(after)
      && (if SaveOutcome(Record(crc, s), env) == Done then Contents(after.settings) == Some(Record(crc, s))
          else after.settings == d.settings)
  {
  }

  // ---------------------------------------------------------------- the code

  /** The two files, and every state the disk went through. */
  class FileSystem {
    var disk: Disk
    ghost var trail: seq<Disk>

    constructor (disk: Disk)
      ensures this.disk == disk && trail == []
    {
      this.disk := disk;
      trail := [];
    }

    method OpenTemp(env: SaveEnv) returns (error: Option<Errno>)
      modifies this
      ensures error == env.openError
      ensures disk == if error.None? then Truncate(old(disk), env) else old(disk)
      ensures trail == old(trail) + if error.None? then [disk] else []
    {
      error := env.openError;
      if error.None? {
        disk := Truncate(disk, env);
        trail := trail + [disk];
      }
    }

    method WriteTemp(data: Bytes, env: SaveEnv) returns (written: int)
      modifies this
      ensures written == env.written && disk == Write(old(disk), data, env) && trail == old(trail) + [disk]
    {
      disk := Write(disk, data, env);
      trail := trail + [disk];
      written := env.written;
    }

    method SyncTemp(env: SaveEnv) returns (error: Option<Errno>)
      requires disk.temp.Some?
      modifies this
      ensures error == env.syncError
      ensures disk == if error.None? then Sync(old(disk)) else old(disk)
      ensures trail == old(trail) + if error.None? then [disk] else []
    {
      error := env.syncError;
      if error.None? {
        disk := Sync(disk);
        trail := trail + [disk];
      }
    }

    method CloseTemp(env: SaveEnv) returns (error: Option<Errno>)
      ensures error == env.closeError
    {
      error := env.closeError;
    }

    method RenameTemp(env: SaveEnv) returns (error: Option<Errno>)
      modifies this
      ensures error == env.renameError
      ensures disk == if error.None? then Rename(old(disk)) else old(disk)
      ensures trail == old(trail) + if error.None? then [disk] else []
    {
      error := env.renameError;
      if error.None? {
        disk := Rename(disk);
        trail := trail + [disk];
      }
    }
  }

  /** The four writes that fill a zeroed buffer make a record of it. */
  lemma FilledIsRecord(crc: Crc, s: Settings, zero: Bytes, filled: Bytes)
    requires |zero| == SETTINGS_BYTES && (forall i :: 0 <= i < |zero| ==> zero[i] == 0)
    requires
      var keyed := ([0x4B, 0x52, 0x55, 0x31] + zero[4..])[4 := FlagsOf(s)][..8] + s.key + zero[40..];
      filled == keyed[..40] + BigEndian(4, crc(keyed[..40]))
    ensures filled == Record(crc, s)
  {
    var flagged := ([0x4B, 0x52, 0x55, 0x31] + zero[4..])[4 := FlagsOf(s)];
    assert flagged[..8] == [0x4B, 0x52, 0x55, 0x31, FlagsOf(s), 0, 0, 0] by {
      assert flagged[..8] == [0x4B, 0x52, 0x55, 0x31] + [FlagsOf(s)] + zero[5..8];
      assert zero[5..8] == [0, 0, 0];
    }
    assert (flagged[..8] + s.key + zero[40..])[..40] == flagged[..8] + s.key;
  }

  /** The record, filled into a zeroed buffer. */
  method FillRecord(crc: Crc, s: Settings, data: array<u8>)
    requires data.Length == SETTINGS_BYTES && forall i :: 0 <= i < data.Length ==> data[i] == 0
    modifies data
    ensures data[..] == Record(crc, s)
  {
    ghost var zero := data[..];
    Put(data, 0, [0x4B, 0x52, 0x55, 0x31]);
    assert data[..] == [0x4B, 0x52, 0x55, 0x31] + zero[4..];
    data[4] := FlagsOf(s);
    ghost var flagged := data[..];
    Put(data, 8, s.key);
    ghost var keyed := data[..];
    assert keyed == flagged[..8] + s.key + zero[40..];
    Put(data, 40, BigEndian(4, crc(data[..40])));
    assert data[..] == keyed[..40] + BigEndian(4, crc(keyed[..40]));
    FilledIsRecord(crc, s, zero, data[..]);
  }

  /** radio_crypto_store_save */
  method Save(fs: FileSystem, crc: Crc, s: Settings, env: SaveEnv) returns (outcome: Outcome)
    modifies fs
    ensures outcome == SaveOutcome(Record(crc, s), env)
    ensures fs.trail == old(fs.trail) + SaveTrace(old(fs.disk), Record(crc, s), env)
    ensures fs.disk == DiskAfter(old(fs.disk), SaveTrace(old(fs.disk), Record(crc, s), env))
  {
    var data := new u8[SETTINGS_BYTES](_ => 0);
    FillRecord(crc, s, data);
    var error := fs.OpenTemp(env);
    if error.None? {
      var written := fs.WriteTemp(data[..], env);
      if written == data.Length {
        error := fs.SyncTemp(env);
      } else {
        error := Some(EIO);
      }
      var closed := fs.CloseTemp(env);
      if error.None? {
        error := closed;
      }
      if error.None? {
        error := fs.RenameTemp(env);
      }
    }
    Wipe(data);
    outcome := SendOutcome(error);
  }

  /** radio_crypto_store_load, which leaves the settings alone unless it succeeds. */
  method LoadSettings(fs: FileSystem, crc: Crc, env: LoadEnv) returns (found: Loaded)
    ensures found == LoadFile(crc, Contents(fs.disk.settings), env)
  {
    if fs.disk.settings.None? || env.openError == Some(ENOENT) {
      return NotFound;
    }
    if env.openError.Some? {
      return LoadFailed(env.openError.value);
    }
    var contents := fs.disk.settings.value.contents;
    // fs_read fills a buffer one byte longer than a record, so a longer file shows
    var data := if |contents| <= SETTINGS_BYTES + 1 then contents else contents[..SETTINGS_BYTES + 1];
    if !env.readOk || |data| != SETTINGS_BYTES || !env.closeOk {
      return LoadFailed(EBADMSG);
    }
    Widths();
    if data[..4] != [0x4B, 0x52, 0x55, 0x31] || crc(data[..40]) != FromBigEndian(data[40..]) || data[4] >= 16 {
      return LoadFailed(EBADMSG);
    }
    found := Found(SettingsIn(data));
  }
}
