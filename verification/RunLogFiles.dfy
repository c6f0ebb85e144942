/**
 * createRunLogStore in its own form (run-log-store.ts 155-367): maps of handles
 * and counters that the operations update in place, proved to act on each run as
 * the functions of RunLogStore say.
 */
module RunLogFiles {
  import opened Common
  import opened TextLines
  import opened LogFile
  import opened RunLogStore

  datatype Path = EventsOf(run: RunId) | TerminalOf(run: RunId)

  class Store {
    const codec: Codec
    const fsyncInterval: int
    // The disk.
    var files: map<Path, File>
    var handles: map<Path, Handle>
    var nextSequences: map<RunId, nat>
    var eventLogStates: map<RunId, LogState>

    constructor (codec: Codec, fsyncInterval: int, files: map<Path, File>)
      requires forall p | p in files :: files[p].durable == files[p].content
      ensures this.codec == codec && this.fsyncInterval == fsyncInterval && this.files == files
      ensures forall r :: Fresh(View(r))
    {
      this.codec, this.fsyncInterval, this.files := codec, fsyncInterval, files;
      handles, nextSequences, eventLogStates := map[], map[], map[];
    }

    function FileAt(p: Path): File
      reads this
    {
      if p in files then files[p] else File([], [])
    }

    function LogAt(p: Path): Log
      reads this
    {
      Log(FileAt(p), if p in handles then Some(handles[p]) else None)
    }

    function View(r: RunId): RunLogs
      reads this
    {
      RunLogs(LogAt(EventsOf(r)), LogAt(TerminalOf(r)),
              if r in nextSequences then Some(nextSequences[r]) else None,
              if r in eventLogStates then Some(eventLogStates[r]) else None)
    }

    // ---- files ----

    method Obtain(p: Path, now: int)
      modifies this`handles
      ensures LogAt(p) == LogFile.Obtain(old(LogAt(p)), now)
      ensures forall q | q != p :: LogAt(q) == old(LogAt(q))
    {
      if p in handles {
        return;
      }
      handles := handles[p := Handle(|FileAt(p).content|, false, now, [])];
    }

    method Fsync(p: Path, now: int)
      requires p in handles
      modifies this`handles, this`files
      ensures LogAt(p) == Synced(old(LogAt(p)), old(handles[p]), now)
      ensures forall q | q != p :: LogAt(q) == old(LogAt(q))
    {
      var content := FileAt(p).content;
      files := files[p := File(content, content)];
      handles := handles[p := handles[p].(dirty := false, lastFsyncAt := now, unsynced := [])];
    }

    // The catch of append.
    method RollBack(p: Path, initialSize: nat, o: Outcome)
      requires p in handles
      modifies this`handles, this`files
      ensures LogAt(p) == Undo(old(LogAt(p)), old(handles[p]), initialSize, o)
      ensures forall q | q != p :: LogAt(q) == old(LogAt(q))
    {
      if o.rollback.TruncateFailed? {
        return;
      }
      files := files[p := FileAt(p).(content := Truncated(FileAt(p).content, initialSize))];
      assert forall q | q != p :: LogAt(q) == old(LogAt(q));
      if o.rollback.FsyncFailed? {
        return;
      }
      Fsync(p, o.syncedAt);
      assert forall q | q != p :: LogAt(q) == old(LogAt(q));
      handles := handles[p := handles[p].(size := initialSize)];
    }

    method Append(p: Path, bytes: Bytes, o: Outcome) returns (ok: bool)
      modifies this`handles, this`files
      ensures (LogAt(p), ok) == LogFile.Append(old(LogAt(p)), fsyncInterval, bytes, o)
      ensures forall q | q != p :: LogAt(q) == old(LogAt(q))
    {
      Obtain(p, o.openedAt);
      var initialSize := handles[p].size;
      var written := bytes;
      if o.landed.Some? && o.landed.value <= |bytes| {
        written := bytes[..o.landed.value];
      }
      files := files[p := FileAt(p).(content := FileAt(p).content + written)];
      if o.landed.Some? {
        RollBack(p, initialSize, o);
        return false;
      }
      handles := handles[p := handles[p].(size := handles[p].size + |bytes|)];
      if o.writtenAt - handles[p].lastFsyncAt < fsyncInterval {
        var h := handles[p];
        handles := handles[p := h.(dirty := true, unsynced := h.unsynced + [Write(o.writtenAt, |bytes|)])];
        return true;
      }
      if !o.fsyncOk {
        RollBack(p, initialSize, o);
        return false;
      }
      Fsync(p, o.syncedAt);
      return true;
    }

    // ---- validation ----

    method Validate(r: RunId) returns (counted: Option<nat>)
      modifies this`handles, this`eventLogStates
      ensures (View(r), counted) == CountAndValidate(codec, old(View(r)))
      ensures forall q | q != r :: View(q) == old(View(q))
    {
      hide ValidateFrom;
      var p := EventsOf(r);
      var content := FileAt(p).content;
      var size := |content|;
      if p in handles {
        handles := handles[p := handles[p].(size := size)];
      }
      var offset, base := 0, 0;
      if r in eventLogStates && size >= eventLogStates[r].bytes {
        offset, base := eventLogStates[r].bytes, eventLogStates[r].lines;
      }
      counted := ValidateTail(content, offset, base);
      if counted.Some? {
        eventLogStates := eventLogStates[r := LogState(size, counted.value)];
      }
    }

    method ValidateTail(content: Bytes, offset: nat, base: nat) returns (counted: Option<nat>)
      requires offset <= |content|
      ensures counted == ValidateFrom(codec, content, offset, base)
    {
      if |content| == offset {
        return Some(base);
      }
      var tail := content[offset..];
      if tail[|tail| - 1] != NEWLINE_BYTE {
        return None;
      }
      var lines := Split(tail[..|tail| - 1], NEWLINE_BYTE);
      for i := 0 to |lines|
        invariant NumberedFrom(codec, lines[..i], base)
      {
        if codec.seqOf(lines[i]) != Some(base + i + 1) {
          return None;
        }
      }
      assert lines[..|lines|] == lines;
      return Some(base + |lines|);
    }

    // ---- operations ----

    method AppendEvent(r: RunId, e: Event, o: Outcome) returns (answer: Answer)
      modifies this
      ensures (View(r), answer) == RunLogStore.AppendEvent(codec, fsyncInterval, old(View(r)), e, o)
      ensures forall q | q != r :: View(q) == old(View(q))
    {
      hide ValidateFrom;
      var next;
      if r in nextSequences {
        next := nextSequences[r];
      } else {
        var counted := Validate(r);
        if counted.None? {
          return Failed;
        }
        next := counted.value + 1;
      }
      var ok := Append(EventsOf(r), codec.Line(next, e), o);
      if !ok {
        return Failed;
      }
      nextSequences := nextSequences[r := next + 1];
      eventLogStates := eventLogStates[r := LogState(handles[EventsOf(r)].size, next)];
      return Appended(next);
    }

    method AppendTerminal(r: RunId, bytes: Bytes, o: Outcome) returns (ok: bool)
      modifies this`handles, this`files
      ensures (View(r), ok) == RunLogStore.AppendTerminal(fsyncInterval, old(View(r)), bytes, o)
      ensures forall q | q != r :: View(q) == old(View(q))
    {
      ok := Append(TerminalOf(r), bytes, o);
    }

    method Initialize(r: RunId) returns (ok: bool)
      modifies this`handles, this`eventLogStates, this`nextSequences
      ensures (View(r), ok) == RunLogStore.Initialize(codec, old(View(r)))
      ensures forall q | q != r :: View(q) == old(View(q))
    {
      var counted := Validate(r);
      if counted.None? {
        return false;
      }
      nextSequences := nextSequences[r := counted.value + 1];
      return true;
    }

    // The body of the loop in syncRun; false when the fsync throws.
    method Sync(p: Path, close: bool, fsyncOk: bool, now: int) returns (ok: bool)
      modifies this`handles, this`files
      ensures (LogAt(p), ok) == SyncPath(old(LogAt(p)), close, fsyncOk, now)
      ensures forall q | q != p :: LogAt(q) == old(LogAt(q))
    {
      if p !in handles {
        return true;
      }
      if handles[p].dirty {
        if !fsyncOk {
          return false;
        }
        Fsync(p, now);
      }
      if close {
        handles := handles - {p};
      }
      return true;
    }

    method SyncRun(r: RunId, close: bool, f: Fsyncs) returns (ok: bool)
      modifies this`handles, this`files
      ensures (View(r), ok) == RunLogStore.SyncRun(old(View(r)), close, f)
      ensures forall q | q != r :: View(q) == old(View(q))
    {
      ok := Sync(EventsOf(r), close, f.events, f.at);
      if ok {
        ok := Sync(TerminalOf(r), close, f.terminal, f.at);
      }
    }

    method Dispose(r: RunId, f: Fsyncs) returns (ok: bool)
      modifies this
      ensures (View(r), ok) == RunLogStore.Dispose(old(View(r)), f)
      ensures forall q | q != r :: View(q) == old(View(q))
    {
      nextSequences := nextSequences - {r};
      eventLogStates := eventLogStates - {r};
      assert forall q | q != r :: View(q) == old(View(q));
      assert View(r) == old(View(r)).(next := None, known := None);
      ok := SyncRun(r, true, f);
    }
  }
}
