/** What one save guarantees, for every disk, session, mode and point of failure. */
module SaveTheorems {
  import opened Transcripts
  import opened EventLogs
  import opened SessionStore

  // ---------------------------------------------------------------- loads after writes

  /** A log this layer owns that replays to its last byte. */
  predicate Clean(log: LogFile) {
    ProbeLog(log).Owned? && log.torn == 0 && Play(log.records).Playing?
  }

  lemma {:induction false} UndamagedOwnedLogIsClean(d: Disk)
    requires ProbeLog(d.log).Owned? && LoadRaw(d).Loaded? && !LoadRaw(d).damaged
    ensures Clean(d.log)
  {
  }

  lemma {:induction false} LoadAfterReplace(c: Codec, d: Disk, t: Transcript)
    requires Clean(d.log)
    ensures var d' := d.(log := Appended(c, d.log, Replace(t))); Clean(d'.log) && LoadRaw(d') == Loaded(t, false)
  {
    PlaySnoc(d.log.records, Replace(t));
  }

  lemma {:induction false} LoadAfterAppend(c: Codec, d: Disk, raw: Transcript, t: Transcript)
    requires Clean(d.log) && d.log != EMPTY_LOG && LoadRaw(d) == Loaded(raw, false)
    requires raw <= t
    ensures var d' := d.(log := Appended(c, d.log, Append(|raw|, t[|raw|..])));
            Clean(d'.log) && LoadRaw(d') == Loaded(t, false)
  {
    PlaySnoc(d.log.records, Append(|raw|, t[|raw|..]));
    assert raw + t[|raw|..] == t;
  }

  lemma {:induction false} LoadAfterCompact(d: Disk, t: Transcript)
    ensures var d' := d.(log := LogFile([Replace(t)], 0)); Clean(d'.log) && LoadRaw(d') == Loaded(t, false)
  {
    PlaySnoc([], Replace(t));
    assert [] + [Replace(t)] == [Replace(t)];
  }

  /** Undecodable bytes behind a clean log never change what it holds. */
  lemma {:induction false} LoadAfterTorn(d: Disk, torn: nat)
    requires ProbeLog(d.log).Owned?
    ensures StoredIn(d.(log := LogFile(d.log.records, d.log.torn + torn))) == StoredIn(d)
  {
  }

  /** An owned log from which nothing replays, with no checkpoint: whatever is appended
      stays behind the broken first record. */
  lemma {:induction false} LoadBehindBrokenHead(c: Codec, d: Disk, r: Record)
    requires ProbeLog(d.log).Owned?
    requires d.log != EMPTY_LOG
    requires Play(d.log.records).Stopped?
    requires Play(d.log.records).applied == 0
    ensures LoadRaw(d.(log := Appended(c, d.log, r))) == FromAnchor(d, true)
  {
    PlaySnoc(d.log.records, r);
  }

  /** Dropping a damaged tail keeps the transcript. */
  lemma {:induction false} RepairKeepsTranscript(c: Codec, d: Disk)
    requires ProbeLog(d.log).Owned? && RepairedLog(c, d.log, d.index).Some?
    ensures var d' := d.(log := RepairedLog(c, d.log, d.index).value);
            ProbeLog(d'.log).Owned? && StoredIn(d') == StoredIn(d)
  {
    match Play(d.log.records)
    case Stopped(_, n) => TruncationKeepsTranscript(d.log.records);
    case Playing(_, n) => assert d.log.records[..n] == d.log.records;
    case Refused =>
  }

  lemma {:induction false} JudgeFacts(c: Codec, base: Option<Baseline>, ledger: Meta, raw: Transcript, damaged: bool,
          next: Transcript, version: nat, allow: bool)
    requires Judge(c, base, ledger, raw, damaged, next, version, allow).Accept?
    ensures var v := Judge(c, base, ledger, raw, damaged, next, version, allow);
            && (v.upToDate ==> raw == next && !damaged)
            && (v.appendFrom.Some? ==> !damaged && v.appendFrom.value == |raw| && raw <= next)
            && v.repairLog == damaged
  {
  }

  /** What an accepted verdict tells of the disk it was made on. */
  lemma {:induction false} AcceptFacts(c: Codec, d: Disk, base: Option<Baseline>, next: Transcript, version: nat,
          allow: bool)
    requires Decide(c, d, base, next, version, allow).Accept?
    ensures var v := Decide(c, d, base, next, version, allow);
            && (v.upToDate ==> LoadRaw(d) == Loaded(next, false))
            && (v.appendFrom.Some? ==>
               LoadRaw(d).Loaded? && !LoadRaw(d).damaged && v.appendFrom.value == |LoadRaw(d).raw|
                   && LoadRaw(d).raw <= next)
            && (LoadRaw(d).Loaded? ==> v.repairLog == LoadRaw(d).damaged)
            && !LoadRaw(d).LoadFailed?
  {
    if LoadRaw(d).Loaded? {
      JudgeFacts(c, base, ReadLedger(d.sidecar).value, LoadRaw(d).raw, LoadRaw(d).damaged, next, version, allow);
    }
  }

  // ---------------------------------------------------------------- one save

  predicate OldOrNew(before: Disk, after: Disk, next: Transcript) {
    StoredIn(after) == StoredIn(before) || StoredIn(after) == Holds(next)
  }

  lemma {:induction false} AppendWritesStore(c: Codec, io: Io, next: Transcript, from: nat, torn: nat)
    requires io.ok && ProbeLog(io.disk.log).Owned? && LoadRaw(io.disk).Loaded? && !LoadRaw(io.disk).damaged
    requires from == |LoadRaw(io.disk).raw| && LoadRaw(io.disk).raw <= next
    ensures var o := AppendWrites(c, io, next, from, torn);
            OldOrNew(io.disk, o.disk, next) && (o.ok ==> StoredIn(o.disk) == Holds(next))
  {
    var size := LogBytes(c, io.disk.log);
    UndamagedOwnedLogIsClean(io.disk);
    LogBytesZero(c, io.disk.log);
    if io.left == 0 {
      LoadAfterTorn(io.disk, torn);
    } else if size == 0 {
      LoadAfterReplace(c, io.disk, next);
    } else if Oversized(c, size, next) {
      LoadAfterCompact(io.disk, next);
    } else {
      LoadAfterAppend(c, io.disk, LoadRaw(io.disk).raw, next);
    }
  }

  /** The anchor written behind the log: right whether or not the log decides. */
  lemma {:induction false} RewriteWritesStore(c: Codec, io: Io, next: Transcript, native: bool, force: bool,
          repairLog: bool, torn: nat)
    requires io.ok && native == ProbeLog(io.disk.log).Owned? && !ProbeLog(io.disk.log).Future?
    requires force || !LoadRaw(io.disk).LoadFailed?
    requires !force && LoadRaw(io.disk).Loaded? ==> repairLog == LoadRaw(io.disk).damaged
    ensures var o := RewriteWrites(c, io, next, native, force, repairLog, torn);
            OldOrNew(io.disk, o.disk, next) && (o.ok ==> StoredIn(o.disk.(anchor := Some(next))) == Holds(next))
  {
    LogBytesZero(c, io.disk.log);
    var anchored := io.disk.(anchor := Some(next));
    if native {
      if io.left == 0 {
        LoadAfterTorn(io.disk, torn);
      } else if force || repairLog || Oversized(c, LogBytes(c, io.disk.log), next) {
        LoadAfterCompact(io.disk, next);
        LoadAfterCompact(anchored, next);
      } else if LoadRaw(io.disk).Loaded? || io.disk.log == EMPTY_LOG {
        LoadAfterReplace(c, io.disk, next);
        LoadAfterReplace(c, anchored, next);
      } else {
        LoadBehindBrokenHead(c, io.disk, Replace(next));
        LoadBehindBrokenHead(c, anchored, Replace(next));
      }
    }
  }

  lemma {:induction false} SameFilesSameStored(a: Disk, b: Disk)
    requires a.log == b.log && a.anchor == b.anchor
    ensures StoredIn(a) == StoredIn(b)
  {
  }

  lemma {:induction false} RewritePathStores(c: Codec, io: Io, s: SessionState, path: string, native: bool,
          force: bool, repairLog: bool, base: nat, f: Faults)
    requires io.ok && native == ProbeLog(io.disk.log).Owned? && !ProbeLog(io.disk.log).Future?
    requires force || !LoadRaw(io.disk).LoadFailed?
    requires !force && LoadRaw(io.disk).Loaded? ==> repairLog == LoadRaw(io.disk).damaged
    ensures var o := RewritePath(c, io, s, path, native, force, repairLog, base, f);
            OldOrNew(io.disk, o.disk, s.messages) && (o.status.Saved? ==> StoredIn(o.disk) == Holds(s.messages))
  {
    RewriteWritesStore(c, io, s.messages, native, force, repairLog, f.torn);
    var logged := RewriteWrites(c, io, s.messages, native, force, repairLog, f.torn);
    SameFilesSameStored(AnchorStep(logged, s.messages).disk,
        RewritePath(c, io, s, path, native, force, repairLog, base, f).disk);
  }

  lemma {:induction false} AppendPathStores(c: Codec, io: Io, s: SessionState, path: string, from: nat, base: nat,
          f: Faults)
    requires io.ok && ProbeLog(io.disk.log).Owned? && LoadRaw(io.disk).Loaded? && !LoadRaw(io.disk).damaged
    requires from == |LoadRaw(io.disk).raw| && LoadRaw(io.disk).raw <= s.messages
    ensures var o := AppendPath(c, io, s, path, from, base, f);
            OldOrNew(io.disk, o.disk, s.messages) && (o.status.Saved? ==> StoredIn(o.disk) == Holds(s.messages))
  {
    AppendWritesStore(c, io, s.messages, from, f.torn);
    SameFilesSameStored(AppendWrites(c, io, s.messages, from, f.torn).disk,
        AppendPath(c, io, s, path, from, base, f).disk);
  }

  lemma {:induction false} PreparedKeepsStored(c: Codec, d: Disk, f: Faults)
    ensures var io := Prepared(c, d, f);
            StoredIn(io.disk) == StoredIn(d) && ProbeLog(io.disk.log) == ProbeLog(d.log)
            && io.disk.sidecar == d.sidecar && io.disk.anchor == d.anchor
  {
    if ProbeLog(d.log).Owned? && RepairedLog(c, d.log, d.index).Some? {
      RepairKeepsTranscript(c, d);
    }
  }

  lemma {:induction false} CarryIsAtomic(c: Codec, io: Io, s: SessionState, path: string, allow: bool, f: Faults)
    requires io.ok && !ProbeLog(io.disk.log).Future?
    ensures var v := Decide(c, io.disk, BaselineAt(s, path), s.messages, s.version, allow);
            var o := Carry(c, io, s, path, ProbeLog(io.disk.log).Owned?, v, f);
            && OldOrNew(io.disk, o.disk, s.messages)
            && (o.status.Saved? ==> StoredIn(o.disk) == Holds(s.messages))
            && (o.status.Conflict? ==> StoredIn(o.disk) == StoredIn(io.disk))
  {
    var v := Decide(c, io.disk, BaselineAt(s, path), s.messages, s.version, allow);
    if v.Accept? {
      AcceptFacts(c, io.disk, BaselineAt(s, path), s.messages, s.version, allow);
      if v.upToDate {
        SameFilesSameStored(io.disk, Carry(c, io, s, path, ProbeLog(io.disk.log).Owned?, v, f).disk);
      } else if v.appendFrom.Some? && ProbeLog(io.disk.log).Owned? {
        AppendPathStores(c, io, s, path, v.appendFrom.value, v.revision, f);
      } else {
        RewritePathStores(c, io, s, path, ProbeLog(io.disk.log).Owned?, false, v.repairLog, v.revision, f);
      }
    }
  }

  /** Save/load agreement and crash atomicity: wherever the save is cut, a load yields
      the old or the new transcript; a save reported done yields exactly the snapshot;
      one refused changes nothing a reader can see. */
  lemma {:induction false} SaveIsAtomic(c: Codec, d: Disk, s: SessionState, path: string, mode: Mode, f: Faults)
    ensures var o := Save(c, d, s, path, mode, f);
            && OldOrNew(d, o.disk, s.messages)
            && (o.status.Saved? ==> StoredIn(o.disk) == Holds(s.messages))
            && (o.status.Conflict? ==> StoredIn(o.disk) == StoredIn(d))
  {
    PreparedKeepsStored(c, d, f);
    var io := Prepared(c, d, f);
    if io.ok && !ProbeLog(d.log).Future? {
      if !mode.Force? {
        CarryIsAtomic(c, io, s, path, mode.Rewrite?, f);
      } else if ReadLedger(io.disk.sidecar).Some? {
        RewritePathStores(c, io, s, path, ProbeLog(io.disk.log).Owned?, true, false,
            ReadLedger(io.disk.sidecar).value.revision, f);
      }
    }
  }

  // ---------------------------------------------------------------- log health and size

  /** Every log this layer starts begins with a full transcript. */
  predicate HeadIsReplace(log: LogFile) {
    ProbeLog(log).Owned? && log.records != [] ==> log.records[0].Replace?
  }

  lemma {:induction false} ReplaceHeadReplays(rs: seq<Record>)
    requires rs != [] && rs[0].Replace?
    ensures !Play(rs).Refused? ==> Play(rs).applied > 0
  {
    if |rs| == 1 {
      assert rs[..0] == [];
      assert Play(rs) == PlayOne(Play([]), rs[0]);
    } else {
      ReplaceHeadReplays(rs[..|rs| - 1]);
    }
  }

  lemma {:induction false} RepairKeepsHead(c: Codec, d: Disk)
    requires ProbeLog(d.log).Owned? && HeadIsReplace(d.log) && RepairedLog(c, d.log, d.index).Some?
    ensures HeadIsReplace(RepairedLog(c, d.log, d.index).value)
  {
  }

  /** How a save may leave a log it owns, given the repaired log it started from. */
  datatype LogChange = Kept | Tore | Compacted | Grew(record: Record)

  predicate Changed(c: Codec, repaired: Disk, after: LogFile, next: Transcript, change: LogChange, torn: nat) {
    match change
    case Kept => after == repaired.log
    case Tore => after == LogFile(repaired.log.records, repaired.log.torn + torn)
    case Compacted => after == LogFile([Replace(next)], 0)
    case Grew(r) =>
      after == Appended(c, repaired.log, r) && !Oversized(c, LogBytes(c, repaired.log), next)
      && match r
         case Replace(ms) =>
           ms == next && !LoadRaw(repaired).LoadFailed? && (LoadRaw(repaired).Loaded? ==> !LoadRaw(repaired).damaged)
         case Append(index, ms) =>
           LoadRaw(repaired).Loaded? && !LoadRaw(repaired).damaged && repaired.log != EMPTY_LOG
           && LoadRaw(repaired).raw <= next && index == |LoadRaw(repaired).raw| && ms == next[index..]
         case Unsupported(_) => false
  }

  lemma {:induction false} AppendWritesChange(c: Codec, io: Io, next: Transcript, from: nat, torn: nat)
    returns (change: LogChange)
    requires io.ok && ProbeLog(io.disk.log).Owned? && LoadRaw(io.disk).Loaded? && !LoadRaw(io.disk).damaged
    requires from == |LoadRaw(io.disk).raw| && LoadRaw(io.disk).raw <= next
    ensures var o := AppendWrites(c, io, next, from, torn);
            Changed(c, io.disk, o.disk.log, next, change, torn) && (o.ok ==> change.Compacted? || change.Grew?)
  {
    LogBytesZero(c, io.disk.log);
    var size := LogBytes(c, io.disk.log);
    if size > 0 && Oversized(c, size, next) {
      change := if io.left == 0 then Kept else Compacted;
    } else if io.left == 0 {
      change := Tore;
    } else {
      change := Grew(if size == 0 then Replace(next) else Append(from, next[from..]));
    }
  }

  lemma {:induction false} RewriteWritesChange(c: Codec, io: Io, next: Transcript, force: bool, repairLog: bool,
          torn: nat)
    returns (change: LogChange)
    requires io.ok && ProbeLog(io.disk.log).Owned? && (force || !LoadRaw(io.disk).LoadFailed?)
    requires !force && LoadRaw(io.disk).Loaded? ==> repairLog == LoadRaw(io.disk).damaged
    ensures var o := RewriteWrites(c, io, next, true, force, repairLog, torn);
            Changed(c, io.disk, o.disk.log, next, change, torn)
            && (o.ok ==> change.Compacted? || change.Grew? || (change.Kept? && force && io.disk.log == EMPTY_LOG))
  {
    LogBytesZero(c, io.disk.log);
    var size := LogBytes(c, io.disk.log);
    if force {
      change := if io.left == 0 || size == 0 then Kept else Compacted;
    } else if repairLog || Oversized(c, size, next) {
      change := if io.left == 0 then Kept else Compacted;
    } else {
      change := if io.left == 0 then Tore else Grew(Replace(next));
    }
  }

  /** Every save leaves an owned log in one of those shapes, and one reported done never
      leaves it torn; it keeps the log only when that already holds the snapshot, or as a
      forced copy that has no log. */
  lemma {:induction false} SaveChangesLog(c: Codec, d: Disk, s: SessionState, path: string, mode: Mode, f: Faults)
    returns (change: LogChange)
    requires ProbeLog(d.log).Owned?
    ensures var o := Save(c, d, s, path, mode, f);
            var repaired := Prepared(c, d, f).disk;
            && Changed(c, repaired, o.disk.log, s.messages, change, f.torn)
            && (o.status.Saved? ==> !change.Tore?)
            && (o.status.Saved? && change.Kept? ==>
               repaired.log == EMPTY_LOG || LoadRaw(repaired) == Loaded(s.messages, false))
  {
    PreparedKeepsStored(c, d, f);
    var io := Prepared(c, d, f);
    var base := BaselineAt(s, path);
    change := Kept;
    if io.ok && mode.Force? {
      if ReadLedger(io.disk.sidecar).Some? {
        change := RewriteWritesChange(c, io, s.messages, true, false, f.torn);
      }
    } else if io.ok && Decide(c, io.disk, base, s.messages, s.version, mode.Rewrite?).Accept? {
      var v := Decide(c, io.disk, base, s.messages, s.version, mode.Rewrite?);
      AcceptFacts(c, io.disk, base, s.messages, s.version, mode.Rewrite?);
      if v.upToDate {
      } else if v.appendFrom.Some? {
        change := AppendWritesChange(c, io, s.messages, v.appendFrom.value, f.torn);
      } else {
        change := RewriteWritesChange(c, io, s.messages, false, v.repairLog, f.torn);
      }
    }
  }

  lemma {:induction false} UnownedLogUntouched(c: Codec, d: Disk, s: SessionState, path: string, mode: Mode, f: Faults)
    requires !ProbeLog(d.log).Owned?
    ensures Save(c, d, s, path, mode, f).disk.log == d.log
  {
  }

  lemma {:induction false} ChangeKeepsHead(c: Codec, d: Disk, after: LogFile, next: Transcript, change: LogChange,
          torn: nat)
    requires ProbeLog(d.log).Owned? && HeadIsReplace(d.log) && Changed(c, d, after, next, change, torn)
    ensures HeadIsReplace(after)
    ensures change.Compacted? || change.Grew? ==> Clean(after)
  {
    if d.log.records != [] {
      ReplaceHeadReplays(d.log.records);
    }
    match change
    case Compacted => LoadAfterCompact(d, next);
    case Grew(r) =>
      UndamagedOwnedLogIsCleanOrEmpty(d);
      if r.Replace? { LoadAfterReplace(c, d, next); } else { LoadAfterAppend(c, d, LoadRaw(d).raw, next); }
    case _ =>
  }

  lemma {:induction false} UndamagedOwnedLogIsCleanOrEmpty(d: Disk)
    requires ProbeLog(d.log).Owned? && HeadIsReplace(d.log)
    requires !LoadRaw(d).LoadFailed? && (LoadRaw(d).Loaded? ==> !LoadRaw(d).damaged)
    ensures Clean(d.log)
  {
    if d.log.records != [] {
      ReplaceHeadReplays(d.log.records);
    }
  }

  /** Self-healing: on a log that begins with a full transcript, a save reported done
      leaves one that replays to its last byte, however torn it was; and no save, cut or
      not, ever puts anything but a full transcript first. */
  lemma {:induction false} SaveHeals(c: Codec, d: Disk, s: SessionState, path: string, mode: Mode, f: Faults)
    requires HeadIsReplace(d.log)
    ensures var o := Save(c, d, s, path, mode, f);
            HeadIsReplace(o.disk.log) && (o.status.Saved? && ProbeLog(d.log).Owned? ==> Clean(o.disk.log))
  {
    if ProbeLog(d.log).Owned? {
      PreparedKeepsStored(c, d, f);
      if RepairedLog(c, d.log, d.index).Some? {
        RepairKeepsHead(c, d);
      }
      var repaired := Prepared(c, d, f).disk;
      var change := SaveChangesLog(c, d, s, path, mode, f);
      ChangeKeepsHead(c, repaired, Save(c, d, s, path, mode, f).disk.log, s.messages, change, f.torn);
      if LoadRaw(repaired) == Loaded(s.messages, false) {
        UndamagedOwnedLogIsClean(repaired);
      }
    } else {
      UnownedLogUntouched(c, d, s, path, mode, f);
    }
  }

  /** The decodable part of an owned log is within the limit of the transcript it
      replays to, give or take its last applied record. */
  predicate WithinBound(c: Codec, log: LogFile) {
    var p := Play(log.records);
    ProbeLog(log).Owned? && !p.Refused? && p.applied > 0 ==>
      RecordsBytes(c, log.records[..p.applied]) <= SizeLimit(c, p.messages) + RecordBytes(c, log.records[p.applied - 1])
  }

  lemma {:induction false} AppendedWithinBound(c: Codec, log: LogFile, r: Record)
    requires Clean(log) && !r.Unsupported? && (r.Append? ==> r.index == |Play(log.records).messages|)
    requires !Oversized(c, LogBytes(c, log), PlayOne(Play(log.records), r).messages)
    ensures WithinBound(c, Appended(c, log, r))
  {
    PlaySnoc(log.records, r);
    RecordsBytesSnoc(c, log.records, r);
    assert (log.records + [r])[..|log.records| + 1] == log.records + [r];
  }

  lemma {:induction false} CompactedWithinBound(c: Codec, t: Transcript)
    ensures WithinBound(c, LogFile([Replace(t)], 0))
  {
    PlaySnoc([], Replace(t));
    RecordsBytesSnoc(c, [], Replace(t));
    assert [] + [Replace(t)] == [Replace(t)];
    assert [Replace(t)][..1] == [Replace(t)];
  }

  lemma {:induction false} RepairedWithinBound(c: Codec, d: Disk)
    requires ProbeLog(d.log).Owned? && WithinBound(c, d.log) && RepairedLog(c, d.log, d.index).Some?
    ensures WithinBound(c, RepairedLog(c, d.log, d.index).value)
  {
    var rs := d.log.records;
    if Play(rs).Stopped? {
      TruncationKeepsTranscript(rs);
      var n := Play(rs).applied;
      assert rs[..n][..n] == rs[..n];
    } else if Play(rs).Playing? {
      assert rs[..|rs|] == rs;
    }
  }

  lemma {:induction false} ChangeStaysWithinBound(c: Codec, d: Disk, after: LogFile, next: Transcript,
          change: LogChange, torn: nat)
    requires ProbeLog(d.log).Owned?
    requires HeadIsReplace(d.log)
    requires WithinBound(c, d.log)
    requires Changed(c, d, after, next, change, torn)
    ensures WithinBound(c, after)
  {
    match change
    case Compacted => CompactedWithinBound(c, next);
    case Grew(r) =>
      UndamagedOwnedLogIsCleanOrEmpty(d);
      if r.Append? {
        assert LoadRaw(d).raw + next[|LoadRaw(d).raw|..] == next;
      }
      AppendedWithinBound(c, d.log, r);
    case _ =>
  }

  /** Every save, cut or not, keeps the decodable part of the log within four times the
      transcript it replays to (or 256 KiB), give or take one record. */
  lemma {:induction false} SaveKeepsBound(c: Codec, d: Disk, s: SessionState, path: string, mode: Mode, f: Faults)
    requires HeadIsReplace(d.log) && WithinBound(c, d.log)
    ensures WithinBound(c, Save(c, d, s, path, mode, f).disk.log)
  {
    if ProbeLog(d.log).Owned? {
      PreparedKeepsStored(c, d, f);
      if RepairedLog(c, d.log, d.index).Some? {
        RepairKeepsHead(c, d);
        RepairedWithinBound(c, d);
      }
      var change := SaveChangesLog(c, d, s, path, mode, f);
      ChangeStaysWithinBound(c, Prepared(c, d, f).disk, Save(c, d, s, path, mode, f).disk.log, s.messages, change,
          f.torn);
    } else {
      UnownedLogUntouched(c, d, s, path, mode, f);
    }
  }

  /** The file of a save reported done, but for its last record, has at most 256 KiB or at
      most four times the bytes of its transcript. */
  predicate FileWithinBound(c: Codec, o: Outcome) {
    o.status.Saved? && ProbeLog(o.disk.log).Owned? && o.disk.log != EMPTY_LOG ==>
      var size := LogBytes(c, o.disk.log) - RecordBytes(c, o.disk.log.records[|o.disk.log.records| - 1]);
      size <= 262144 || size <= 4 * ContentBytes(c, o.session.messages)
  }

  lemma {:induction false} CleanBoundIsFileSize(c: Codec, o: Outcome)
    requires WithinBound(c, o.disk.log)
    requires o.status.Saved? && ProbeLog(o.disk.log).Owned? ==>
               Clean(o.disk.log) && HeadIsReplace(o.disk.log) && StoredIn(o.disk) == Holds(o.session.messages)
    ensures FileWithinBound(c, o)
  {
    if o.status.Saved? && Clean(o.disk.log) && o.disk.log != EMPTY_LOG {
      ReplaceHeadReplays(o.disk.log.records);
      assert o.disk.log.records[..|o.disk.log.records|] == o.disk.log.records;
    }
  }

  /** The size bound: after a save reported done, of any mode, the log file is at most
      four times the transcript (or 256 KiB) plus its last record. */
  lemma {:induction false} SaveStaysWithinBound(c: Codec, d: Disk, s: SessionState, path: string, mode: Mode, f: Faults)
    requires HeadIsReplace(d.log) && WithinBound(c, d.log)
    ensures FileWithinBound(c, Save(c, d, s, path, mode, f))
  {
    SaveHeals(c, d, s, path, mode, f);
    SaveIsAtomic(c, d, s, path, mode, f);
    SaveKeepsBound(c, d, s, path, mode, f);
    if ProbeLog(d.log).Owned? {
      CleanBoundIsFileSize(c, Save(c, d, s, path, mode, f));
    } else {
      UnownedLogUntouched(c, d, s, path, mode, f);
    }
  }
}
