/**
 * One append-only log file with its long-lived handle (run-log-store.ts 124-243):
 * throttled fsync, rollback of a failed append, and what is on disk for sure.
 */
module LogFile {
  import opened Common

  // The content a reader sees, and the content that survives a crash.
  datatype File = File(content: Bytes, durable: Bytes)

  // History: when a write was made and how many bytes it added.
  datatype Write = Write(at: int, length: nat)

  // An open handle; `unsynced` records the writes since the last fsync.
  datatype Handle = Handle(size: nat, dirty: bool, lastFsyncAt: int, unsynced: seq<Write>)

  function Total(writes: seq<Write>): nat {
    if writes == [] then 0 else Total(writes[..|writes| - 1]) + writes[|writes| - 1].length
  }

  datatype Log = Log(file: File, handle: Option<Handle>)

  datatype Rollback = RolledBack | TruncateFailed | FsyncFailed

  // What the operating system and the clock answer during one append: how many
  // bytes landed when the write failed, whether the throttled fsync succeeded,
  // and how the rollback ended.
  datatype Outcome = Outcome(openedAt: int, landed: Option<nat>, writtenAt: int, fsyncOk: bool, rollback: Rollback, syncedAt: int)

  function Obtain(log: Log, now: int): Log {
    if log.handle.Some? then log else log.(handle := Some(Handle(|log.file.content|, false, now, [])))
  }

  // fsync: everything written so far is durable.
  function Synced(log: Log, h: Handle, now: int): Log {
    Log(File(log.file.content, log.file.content), Some(h.(dirty := false, lastFsyncAt := now, unsynced := [])))
  }

  function Zeros(n: nat): Bytes { seq(n, _ => 0) }

  // ftruncate: cuts the file, or fills it up when it is shorter.
  function Truncated(content: Bytes, size: nat): Bytes {
    if size <= |content| then content[..size] else content + Zeros(size - |content|)
  }

  function Undo(log: Log, h: Handle, initialSize: nat, o: Outcome): Log {
    match o.rollback
    case TruncateFailed => log
    case FsyncFailed => log.(file := log.file.(content := Truncated(log.file.content, initialSize)))
    case RolledBack =>
      var content := Truncated(log.file.content, initialSize);
      Log(File(content, content), Some(h.(size := initialSize, dirty := false, lastFsyncAt := o.syncedAt, unsynced := [])))
  }

  // append: the new log, and whether it returned normally.
  function Append(log: Log, interval: int, bytes: Bytes, o: Outcome): (Log, bool) {
    var log1 := Obtain(log, o.openedAt);
    var h := log1.handle.value;
    var content := log1.file.content;
    if o.landed.Some? then
      var landed := if o.landed.value <= |bytes| then bytes[..o.landed.value] else bytes;
      (Undo(log1.(file := log1.file.(content := content + landed)), h, h.size, o), false)
    else
      var h1 := h.(size := h.size + |bytes|);
      var log2 := Log(log1.file.(content := content + bytes), Some(h1));
      if o.writtenAt - h.lastFsyncAt < interval then
        (log2.(handle := Some(h1.(dirty := true, unsynced := h1.unsynced + [Write(o.writtenAt, |bytes|)]))), true)
      else if o.fsyncOk then (Synced(log2, h1, o.syncedAt), true)
      else (Undo(log2, h1, h.size, o), false)
  }

  // syncRun on one path: the new log, and whether the loop may go on.
  function SyncPath(log: Log, close: bool, fsyncOk: bool, now: int): (Log, bool) {
    if log.handle.None? then (log, true)
    else
      var h := log.handle.value;
      if h.dirty && !fsyncOk then (log, false)
      else
        var log1 := if h.dirty then Synced(log, h, now) else log;
        (if close then log1.(handle := None) else log1, true)
  }

  /**
   * The durability policy: without a handle or with a clean one everything is on
   * disk, and the bytes that are not are those of writes made within the interval
   * after the handle's last fsync.
   */
  ghost predicate Durable(log: Log, interval: int) {
    match log.handle
    case None => log.file.durable == log.file.content
    case Some(h) =>
      && h.size == |log.file.content|
      && log.file.durable <= log.file.content
      && |log.file.content| == |log.file.durable| + Total(h.unsynced)
      && (!h.dirty ==> h.unsynced == [])
      && (forall w | w in h.unsynced :: w.at - h.lastFsyncAt < interval)
  }

  lemma Uncut(content: Bytes, more: Bytes)
    ensures Truncated(content + more, |content|) == content
  {
  }

  /**
   * A failed append leaves nothing behind: its rollback went through, or had
   * nothing to undo.  A truncation that fails must find no bytes landed, and a
   * failing last fsync is harmless only when the write itself had failed.
   */
  predicate Undone(bytes: Bytes, o: Outcome) {
    match o.rollback
    case RolledBack => true
    case FsyncFailed => o.landed.Some? || bytes == []
    case TruncateFailed => o.landed == Some(0) || bytes == []
  }

  // The append goes through, or what it did is undone.
  predicate GoesWell(log: Log, interval: int, bytes: Bytes, o: Outcome) {
    Append(log, interval, bytes, o).1 || Undone(bytes, o)
  }

  // What the file and the handle are after an append.
  ghost predicate Appended(log: Log, interval: int, bytes: Bytes, log': Log, ok: bool) {
    && Durable(log', interval)
    && log'.handle.Some? && log'.handle.value.size == |log'.file.content|
    && log'.file.content == (if ok then log.file.content + bytes else log.file.content)
    && log.file.durable <= log'.file.durable
  }

  lemma FailedWriteIsUndone(log: Log, interval: int, bytes: Bytes, o: Outcome)
    requires Durable(log, interval) && o.landed.Some? && Undone(bytes, o)
    ensures Appended(log, interval, bytes, Append(log, interval, bytes, o).0, false)
  {
    var landed := if o.landed.value <= |bytes| then bytes[..o.landed.value] else bytes;
    NoWrites();
    Uncut(log.file.content, landed);
    hide Truncated, Total;
    assert o.landed == Some(0) || bytes == [] ==> log.file.content + landed == log.file.content;
  }

  lemma WriteIsAppended(log: Log, interval: int, bytes: Bytes, o: Outcome)
    requires Durable(log, interval) && o.landed.None? && Append(log, interval, bytes, o).1
    ensures Appended(log, interval, bytes, Append(log, interval, bytes, o).0, true)
  {
    NoWrites();
    OneMoreWrite(Obtain(log, o.openedAt).handle.value.unsynced, Write(o.writtenAt, |bytes|));
    hide Total, Undo;
  }

  lemma FailedFsyncIsUndone(log: Log, interval: int, bytes: Bytes, o: Outcome)
    requires Durable(log, interval) && o.landed.None? && Undone(bytes, o) && !Append(log, interval, bytes, o).1
    ensures Appended(log, interval, bytes, Append(log, interval, bytes, o).0, false)
  {
    NoWrites();
    Uncut(log.file.content, bytes);
    hide Truncated, Total;
    assert bytes == [] ==> log.file.content + bytes == log.file.content;
  }

  /** An append adds its bytes or, undone, changes nothing. */
  lemma AppendIsAtomic(log: Log, interval: int, bytes: Bytes, o: Outcome)
    requires Durable(log, interval) && GoesWell(log, interval, bytes, o)
    ensures var (log', ok) := Append(log, interval, bytes, o); Appended(log, interval, bytes, log', ok)
  {
    if o.landed.Some? {
      FailedWriteIsUndone(log, interval, bytes, o);
    } else if Append(log, interval, bytes, o).1 {
      WriteIsAppended(log, interval, bytes, o);
    } else {
      FailedFsyncIsUndone(log, interval, bytes, o);
    }
    hide Durable, Undo, Synced, Obtain, Undone;
  }

  lemma NoWrites()
    ensures Total([]) == 0
  {
  }

  lemma OneMoreWrite(writes: seq<Write>, w: Write)
    ensures Total(writes + [w]) == Total(writes) + w.length
  {
    assert (writes + [w])[..|writes|] == writes;
  }

  /** A failed append leaves the file and the handle's size in agreement and unchanged exactly when it is undone. */
  lemma FailedAppendUnchangedIff(log: Log, interval: int, bytes: Bytes, o: Outcome)
    requires Durable(log, interval) && !Append(log, interval, bytes, o).1
    ensures var log' := Append(log, interval, bytes, o).0;
      log'.file.content == log.file.content && log'.handle.value.size == |log.file.content|
      <==> Undone(bytes, o)
  {
    var content := log.file.content;
    Uncut(content, bytes);
    assert bytes == [] ==> content + bytes == content;
    if o.landed.Some? && o.landed.value <= |bytes| { Uncut(content, bytes[..o.landed.value]); }
  }

  /**
   * The stale size bites later: when the last fsync of a rollback fails, the next
   * append that fails is rolled back to the stale size and fills the file up with
   * zero bytes.
   */
  lemma StaleSizePadsTheFile(log: Log, interval: int, bytes: Bytes, o: Outcome, o2: Outcome)
    requires Durable(log, interval) && bytes != []
    requires o.landed.None? && !o.fsyncOk && o.rollback.FsyncFailed?
    requires o.writtenAt - Obtain(log, o.openedAt).handle.value.lastFsyncAt >= interval
    requires o2.landed == Some(0) && o2.rollback.RolledBack?
    ensures var log1 := Append(log, interval, bytes, o).0; var log2 := Append(log1, interval, bytes, o2).0;
      && log1.file.content == log.file.content
      && log2.file.content == log.file.content + Zeros(|bytes|)
  {
    Uncut(log.file.content, bytes);
    assert bytes[..0] == [] && log.file.content + [] == log.file.content;
  }

  /** Flushing or closing keeps the policy; when it goes through nothing is unsynced. */
  lemma SyncMakesDurable(log: Log, interval: int, close: bool, fsyncOk: bool, now: int)
    requires Durable(log, interval)
    ensures var (log', ok) := SyncPath(log, close, fsyncOk, now);
      && Durable(log', interval)
      && log'.file.content == log.file.content
      && (ok ==> log'.file.durable == log'.file.content && (close ==> log'.handle.None?))
      && (!ok ==> log' == log && log.handle.Some? && log.handle.value.dirty && !fsyncOk)
  {
  }

  /**
   * What a crash can take: a tail as long as the writes since the last fsync of a
   * dirty handle, each made within the interval after it.
   */
  ghost predicate LosesLittle(log: Log, interval: int) {
    && log.file.durable <= log.file.content
    && (log.file.durable != log.file.content ==>
          && log.handle.Some? && log.handle.value.dirty
          && |log.file.content| - |log.file.durable| == Total(log.handle.value.unsynced)
          && log.handle.value.unsynced != []
          && (forall w | w in log.handle.value.unsynced :: w.at - log.handle.value.lastFsyncAt < interval))
  }

  lemma CrashLosesOnlyRecentWrites(log: Log, interval: int)
    requires Durable(log, interval)
    ensures LosesLittle(log, interval)
  {
    NoWrites();
  }
}
