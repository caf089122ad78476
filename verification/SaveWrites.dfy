/** What a save writes, told by the disk it starts from and the disk it leaves: nothing,
    the ledger alone, one appended record, or everything (Session.save, SaveSnapshot and
    SaveRewrite in internal/agent/save.go). */
module SaveWrites {
  import opened Transcripts
  import opened EventLogs
  import opened SessionStore
  import opened SaveTheorems
  import opened SaveConflicts

  /** No normalization of what is stored has to be written back with the snapshot next:
      none changes it, or next goes back to what is stored and not to what is loaded. */
  predicate Settled(c: Codec, raw: Transcript, next: Transcript) {
    || c.normalize(raw).None?
    || (raw == [] && Normal(c, raw) == [])
    || (raw != [] && !CompatiblePrefix(next, Normal(c, raw)))
  }

  /** The bookkeeping of a save that wrote something: the ledger one revision further and
      on the snapshot, the index on the log, the session anchored there. */
  predicate Recorded(c: Codec, d: Disk, s: SessionState, path: string, f: Faults, o: Outcome) {
    && ReadLedger(d.sidecar).Some?
    && var ledger := ReadLedger(d.sidecar).value;
    && o.status.Saved?
    && o.disk.sidecar == Present(Meta(ledger.revision + 1, Some(Digest(s.messages)), ledger.listing))
    && o.disk.index == (if ProbeLog(d.log).Owned? && f.indexOk
                        then if o.disk.log == EMPTY_LOG then None else Some(LogBytes(c, o.disk.log)) else d.index)
    && o.session == Marked(s, path, ledger.revision + 1)
  }

  lemma {:induction false} WholeDiskNeedsNoRepair(c: Codec, d: Disk, f: Faults)
    requires LoadRaw(d).Loaded? && !LoadRaw(d).damaged
    requires f.budget >= 2 || d.index == Some(LogBytes(c, d.log))
    ensures !ProbeLog(d.log).Future?
    ensures var io := Prepared(c, d, f); io.disk == d && io.ok && io.left + 2 >= f.budget
  {
    if ProbeLog(d.log).Owned? {
      UndamagedOwnedLogIsClean(d);
      assert d.log.records[..|d.log.records|] == d.log.records;
    }
  }

  lemma {:induction false} SameContentIsUpToDate(c: Codec, base: Option<Baseline>, ledger: Meta, raw: Transcript,
          version: nat, allow: bool)
    requires Settled(c, raw, raw)
    ensures Judge(c, base, ledger, raw, false, raw, version, allow)
            == Accept(ledger.revision, true, None, false, ledger.digest.Some? && ledger.digest != Some(Digest(raw)))
  {
    AppendShapedIsCompatible(raw, Normal(c, raw));
  }

  /** A snapshot or rewrite of exactly what an undamaged disk holds writes nothing, and
      leaves the session anchored on the ledger as it stands. */
  lemma {:induction false} UnchangedSaveWritesNothing(c: Codec, d: Disk, s: SessionState, path: string, mode: Mode,
          f: Faults)
    requires !mode.Force? && (f.budget >= 2 || d.index == Some(LogBytes(c, d.log)))
    requires LoadRaw(d) == Loaded(s.messages, false) && Settled(c, s.messages, s.messages)
    requires Describes(d.sidecar, s.messages)
    ensures Save(c, d, s, path, mode, f)
            == Outcome(d, Marked(s, path, ReadLedger(d.sidecar).value.revision), Saved)
  {
    WholeDiskNeedsNoRepair(c, d, f);
    SameContentIsUpToDate(c, BaselineAt(s, path), ReadLedger(d.sidecar).value, s.messages, s.version, mode.Rewrite?);
  }

  /** So does a save of exactly what the checkpoint holds, where there is no log or one this
      layer never wrote. */
  lemma {:induction false} UnchangedCheckpointIsKept(c: Codec, d: Disk, s: SessionState, path: string, mode: Mode,
          f: Faults)
    requires !mode.Force? && f.budget >= 2
    requires d.log == EMPTY_LOG || (d.log.records != [] && d.log.records[0] == Unsupported(false))
    requires d.anchor == Some(s.messages) && Settled(c, s.messages, s.messages)
    requires Describes(d.sidecar, s.messages)
    ensures Save(c, d, s, path, mode, f)
            == Outcome(d, Marked(s, path, ReadLedger(d.sidecar).value.revision), Saved)
  {
    UnchangedSaveWritesNothing(c, d, s, path, mode, f);
  }

  /** The same where the ledger names other content: only ledger and index are written. */
  lemma {:induction false} UnchangedSaveHealsLedger(c: Codec, d: Disk, s: SessionState, path: string, mode: Mode,
          f: Faults)
    requires !mode.Force? && f.budget >= 4
    requires LoadRaw(d) == Loaded(s.messages, false) && Settled(c, s.messages, s.messages)
    requires ReadLedger(d.sidecar).Some? && !Describes(d.sidecar, s.messages)
    ensures var o := Save(c, d, s, path, mode, f);
            Recorded(c, d, s, path, f, o) && o.disk.log == d.log && o.disk.anchor == d.anchor
  {
    WholeDiskNeedsNoRepair(c, d, f);
    SameContentIsUpToDate(c, BaselineAt(s, path), ReadLedger(d.sidecar).value, s.messages, s.version, mode.Rewrite?);
  }

  /** A log up to its last record that replays. */
  function Applied(log: LogFile): LogFile {
    LogFile(if Play(log.records).Refused? then log.records else log.records[..Play(log.records).applied], 0)
  }

  /** The disk once its log is repaired, which an index that vouches for the size prevents. */
  function Mended(c: Codec, d: Disk): Disk {
    if ProbeLog(d.log).Owned? && d.index != Some(LogBytes(c, d.log)) && !Play(d.log.records).Refused?
      then d.(log := Applied(d.log))
    else d
  }

  lemma {:induction false} PreparedMends(c: Codec, d: Disk, f: Faults)
    requires f.budget >= 2
    ensures var io := Prepared(c, d, f);
            io.disk == Mended(c, d) && io.left + 2 >= f.budget && (Saveable(c, d) ==> io.ok)
  {
  }

  lemma {:induction false} MendedKeepsStored(c: Codec, d: Disk)
    ensures StoredIn(Mended(c, d)) == StoredIn(d) && ProbeLog(Mended(c, d).log) == ProbeLog(d.log)
  {
    PreparedMends(c, d, Faults(2, 0, false));
    PreparedKeepsStored(c, d, Faults(2, 0, false));
  }

  /** A log that replays something is whole once it is mended. */
  lemma {:induction false} MendedIsWhole(c: Codec, d: Disk)
    requires Play(d.log.records).Playing? || Play(d.log.records).Stopped?
    requires Play(d.log.records).applied > 0
    requires d.index == Some(LogBytes(c, d.log)) ==> Clean(d.log)
    ensures Mended(c, d) == d.(log := Applied(d.log)) && Clean(Applied(d.log))
    ensures LoadRaw(Mended(c, d)) == Loaded(Play(d.log.records).messages, false)
  {
    OwnedWhenReplayed(d.log);
    var p := Play(d.log.records);
    if p.Stopped? {
      TruncationKeepsTranscript(d.log.records);
    } else {
      assert d.log.records[..p.applied] == d.log.records;
    }
  }

  lemma {:induction false} OwnedWhenReplayed(log: LogFile)
    requires !Play(log.records).Refused? && log.records != []
    ensures ProbeLog(log).Owned?
  {
    if log.records[0].Unsupported? {
      assert log.records[..1][..0] == [];
      StoppedStays(log.records, 1);
    }
  }

  /** The snapshot is what a whole disk holds. */
  predicate HeldAlready(c: Codec, m: Disk, next: Transcript) {
    LoadRaw(m) == Loaded(next, false) && Settled(c, next, next)
  }

  /** The snapshot adds messages to what a whole disk holds, in a log of our own. */
  predicate OnlyAdds(c: Codec, m: Disk, next: Transcript) {
    && ProbeLog(m.log).Owned?
    && LoadRaw(m).Loaded? && !LoadRaw(m).damaged
    && LoadRaw(m).raw < next && Settled(c, LoadRaw(m).raw, next)
  }

  /** More than 256 KiB and more than four times the transcript. */
  predicate Outgrown(c: Codec, size: nat, t: Transcript) {
    size > 262144 && size > 4 * ContentBytes(c, t)
  }

  /** The files after a save that only adds: one record with the new messages, the
      checkpoint as it was, unless the log has outgrown its bound. */
  predicate Extended(c: Codec, m: Disk, next: Transcript, after: Disk)
    requires OnlyAdds(c, m, next)
  {
    var size := LogBytes(c, m.log);
    if m.log == EMPTY_LOG then after.log == LogFile([Replace(next)], 0) && after.anchor == m.anchor
    else if Outgrown(c, size, next) then after.log == LogFile([Replace(next)], 0) && after.anchor == Some(next)
    else
      && after.log == LogFile(m.log.records + [Append(|LoadRaw(m).raw|, next[|LoadRaw(m).raw|..])], 0)
      && after.anchor == m.anchor
  }

  /** The files after a save in full: the checkpoint, and one record with everything,
      which replaces a log that is broken or has outgrown its bound. */
  predicate Rewritten(c: Codec, m: Disk, next: Transcript, after: Disk) {
    && after.anchor == Some(next)
    && after.log == (if !ProbeLog(m.log).Owned? then m.log
                     else if (LoadRaw(m).Loaded? && LoadRaw(m).damaged) || Outgrown(c, LogBytes(c, m.log), next)
                       then LogFile([Replace(next)], 0)
                     else Appended(c, m.log, Replace(next)))
  }

  lemma {:induction false} VerdictOfAdding(c: Codec, base: Option<Baseline>, ledger: Meta, raw: Transcript,
          next: Transcript, version: nat, allow: bool)
    requires raw < next && Settled(c, raw, next)
    ensures var v := Judge(c, base, ledger, raw, false, next, version, allow);
            v.Reject? || v == Accept(ledger.revision, false, Some(|raw|), false, false)
  {
    AppendShapedIsCompatible(next, Normal(c, raw));
    AppendShapedIsCompatible(next, raw);
    PrefixIsCompatible(next, raw);
    assert |next| > |raw|;
  }

  lemma {:induction false} VerdictOfRewriting(c: Codec, base: Option<Baseline>, ledger: Meta, raw: Transcript,
          damaged: bool, next: Transcript, version: nat, allow: bool)
    requires !(!damaged && raw <= next && Settled(c, raw, next))
    ensures var v := Judge(c, base, ledger, raw, damaged, next, version, allow);
            v.Reject? || v == Accept(ledger.revision, false, None, damaged, false)
  {
    AppendShapedIsCompatible(next, Normal(c, raw));
    AppendShapedIsCompatible(next, raw);
  }

  lemma {:induction false} RecordWrites(c: Codec, d: Disk, io: Io, s: SessionState, path: string, base: nat, f: Faults)
    requires io.ok && io.left >= 2 && io.disk.sidecar == d.sidecar && io.disk.index == d.index
    requires ReadLedger(d.sidecar).Some? && base <= ReadLedger(d.sidecar).value.revision
    ensures var o := RecordStep(c, io, s, path, ProbeLog(d.log).Owned?, base, f.indexOk);
            o.disk.log == io.disk.log && o.disk.anchor == io.disk.anchor && Recorded(c, d, s, path, f, o)
  {
  }

  lemma {:induction false} AppendPathExtends(c: Codec, d: Disk, io: Io, s: SessionState, path: string, f: Faults)
    requires io.ok && io.left >= 4 && io.disk == Mended(c, d) && OnlyAdds(c, io.disk, s.messages)
    requires ReadLedger(d.sidecar).Some?
    ensures var o := AppendPath(c, io, s, path, |LoadRaw(io.disk).raw|, ReadLedger(d.sidecar).value.revision, f);
            Extended(c, io.disk, s.messages, o.disk) && Recorded(c, d, s, path, f, o)
  {
    MendedKeepsStored(c, d);
    LogBytesZero(c, io.disk.log);
    UndamagedOwnedLogIsClean(io.disk);
    assert [] + [Replace(s.messages)] == [Replace(s.messages)];
    RecordWrites(c, d, AppendWrites(c, io, s.messages, |LoadRaw(io.disk).raw|, f.torn), s, path,
        ReadLedger(d.sidecar).value.revision, f);
  }

  lemma {:induction false} RewritePathRewrites(c: Codec, d: Disk, io: Io, s: SessionState, path: string,
          repairLog: bool, base: nat, f: Faults)
    requires io.ok && io.left >= 4 && io.disk == Mended(c, d)
    requires ReadLedger(d.sidecar).Some? && base <= ReadLedger(d.sidecar).value.revision
    requires repairLog == (LoadRaw(io.disk).Loaded? && LoadRaw(io.disk).damaged)
    ensures var o := RewritePath(c, io, s, path, ProbeLog(d.log).Owned?, false, repairLog, base, f);
            Rewritten(c, io.disk, s.messages, o.disk) && Recorded(c, d, s, path, f, o)
  {
    MendedKeepsStored(c, d);
    var logged := RewriteWrites(c, io, s.messages, ProbeLog(d.log).Owned?, false, repairLog, f.torn);
    RecordWrites(c, d, AnchorStep(logged, s.messages), s, path, base, f);
  }

  /** What a snapshot or rewrite that is not refused writes, with six writes left: nothing
      when the disk holds the snapshot already (the ledger alone when that names other
      content), the new messages alone when it only adds to a log of ours, and otherwise
      everything. */
  lemma {:induction false} SaveWritesExactly(c: Codec, d: Disk, s: SessionState, path: string, mode: Mode, f: Faults)
    requires !mode.Force? && f.budget >= 6 && Saveable(c, d)
    requires !StoredIn(d).Unloadable? && !Save(c, d, s, path, mode, f).status.Conflict?
    ensures var o := Save(c, d, s, path, mode, f);
            var m := Mended(c, d);
            if HeldAlready(c, m, s.messages) && Describes(d.sidecar, s.messages)
              then o == Outcome(m, Marked(s, path, ReadLedger(d.sidecar).value.revision), Saved)
            else
              && Recorded(c, d, s, path, f, o)
              && (if HeldAlready(c, m, s.messages) then o.disk.log == m.log && o.disk.anchor == m.anchor
                  else if OnlyAdds(c, m, s.messages) then Extended(c, m, s.messages, o.disk)
                  else Rewritten(c, m, s.messages, o.disk))
  {
    PreparedMends(c, d, f);
    MendedKeepsStored(c, d);
    var io := Prepared(c, d, f);
    match LoadRaw(io.disk)
    case NotFound => RewritePathRewrites(c, d, io, s, path, false, 0, f);
    case Loaded(raw, damaged) => LoadedSaveWrites(c, d, io, s, path, mode, f);
  }

  lemma {:induction false} LoadedSaveWrites(c: Codec, d: Disk, io: Io, s: SessionState, path: string, mode: Mode,
          f: Faults)
    requires !mode.Force? && io.ok && io.left >= 4 && io.disk == Mended(c, d)
    requires ReadLedger(d.sidecar).Some? && LoadRaw(io.disk).Loaded? && !ProbeLog(d.log).Future?
    requires !Decide(c, io.disk, BaselineAt(s, path), s.messages, s.version, mode.Rewrite?).Reject?
    ensures var v := Decide(c, io.disk, BaselineAt(s, path), s.messages, s.version, mode.Rewrite?);
            var o := Carry(c, io, s, path, ProbeLog(d.log).Owned?, v, f);
            if HeldAlready(c, io.disk, s.messages) && Describes(d.sidecar, s.messages)
              then o == Outcome(io.disk, Marked(s, path, ReadLedger(d.sidecar).value.revision), Saved)
            else
              && Recorded(c, d, s, path, f, o)
              && (if HeldAlready(c, io.disk, s.messages)
                 then o.disk.log == io.disk.log && o.disk.anchor == io.disk.anchor
                  else if OnlyAdds(c, io.disk, s.messages) then Extended(c, io.disk, s.messages, o.disk)
                  else Rewritten(c, io.disk, s.messages, o.disk))
  {
    MendedKeepsStored(c, d);
    var base := BaselineAt(s, path);
    var ledger := ReadLedger(d.sidecar).value;
    var raw, damaged := LoadRaw(io.disk).raw, LoadRaw(io.disk).damaged;
    if HeldAlready(c, io.disk, s.messages) {
      SameContentIsUpToDate(c, base, ledger, raw, s.version, mode.Rewrite?);
      RecordWrites(c, d, io, s, path, ledger.revision, f);
    } else if !damaged && raw < s.messages && Settled(c, raw, s.messages) {
      VerdictOfAdding(c, base, ledger, raw, s.messages, s.version, mode.Rewrite?);
      if ProbeLog(d.log).Owned? {
        AppendPathExtends(c, d, io, s, path, f);
      } else {
        RewritePathRewrites(c, d, io, s, path, false, ledger.revision, f);
      }
    } else {
      VerdictOfRewriting(c, base, ledger, raw, damaged, s.messages, s.version, mode.Rewrite?);
      RewritePathRewrites(c, d, io, s, path, damaged, ledger.revision, f);
    }
  }

  /** The common case, read off the files. A log that replays to a proper prefix of the
      snapshot, torn or not, is cut behind its last good record and grows by one record
      with exactly the new messages; the checkpoint stays. Only a log past its bound is
      replaced. Refused is only a saver whose ledger moved and whose baseline is gone. */
  lemma {:induction false} OnlyTheNewIsAppended(c: Codec, d: Disk, s: SessionState, path: string, mode: Mode, f: Faults)
    requires !mode.Force? && f.budget >= 6 && ReadLedger(d.sidecar).Some?
    requires var p := Play(d.log.records); !p.Refused? && p.applied > 0 && p.messages < s.messages
    requires d.index == Some(LogBytes(c, d.log)) ==> d.log.torn == 0 && Play(d.log.records).Playing?
    requires Settled(c, Play(d.log.records).messages, s.messages)
    ensures var o := Save(c, d, s, path, mode, f);
            var p := Play(d.log.records);
            var good := d.log.records[..p.applied];
            if LedgerMoved(BaselineAt(s, path), ReadLedger(d.sidecar).value)
                && !StillReached(s.messages, p.messages, BaselineAt(s, path).value.digest.of)
              then o.status.Conflict? && o.disk.log == LogFile(good, 0) && o.disk.anchor == d.anchor && o.session == s
            else
              && Recorded(c, d, s, path, f, o)
              && (if Outgrown(c, RecordsBytes(c, good), s.messages)
                  then o.disk.log == LogFile([Replace(s.messages)], 0) && o.disk.anchor == Some(s.messages)
                  else o.disk.log == LogFile(good + [Append(|p.messages|, s.messages[|p.messages|..])], 0)
                       && o.disk.anchor == d.anchor)
  {
    var p := Play(d.log.records);
    OwnedWhenReplayed(d.log);
    MendedIsWhole(c, d);
    PreparedMends(c, d, f);
    MendedKeepsStored(c, d);
    SaveRefusedExactly(c, d, s, path, mode, f);
    AppendShapedIsCompatible(s.messages, Normal(c, p.messages));
    PrefixIsCompatible(s.messages, p.messages);
    AppendShapedIsCompatible(s.messages, p.messages);
    if !Save(c, d, s, path, mode, f).status.Conflict? {
      SaveWritesExactly(c, d, s, path, mode, f);
    }
  }

  /** A forced save, with six writes left, rewrites the checkpoint and an existing log of
      ours in full, whatever is stored. */
  lemma {:induction false} ForcedSaveWrites(c: Codec, d: Disk, s: SessionState, path: string, f: Faults)
    requires f.budget >= 6 && Saveable(c, d)
    ensures var o := Save(c, d, s, path, Force, f);
            && Recorded(c, d, s, path, f, o) && o.disk.anchor == Some(s.messages)
            && o.disk.log == (if ProbeLog(d.log).Owned? && Mended(c, d).log != EMPTY_LOG
                              then LogFile([Replace(s.messages)], 0) else Mended(c, d).log)
  {
    PreparedMends(c, d, f);
    MendedKeepsStored(c, d);
    LogBytesZero(c, Mended(c, d).log);
    var io := Prepared(c, d, f);
    var ledger := ReadLedger(d.sidecar).value;
    var logged := RewriteWrites(c, io, s.messages, ProbeLog(d.log).Owned?, true, false, f.torn);
    RecordWrites(c, d, AnchorStep(logged, s.messages), s, path, ledger.revision, f);
  }

  /** What a refusal says: a stale prefix if and only if what is stored, as the snapshot was
      judged, extends the snapshot up to a leading system message. */
  lemma {:induction false} ConflictKindExactly(c: Codec, d: Disk, s: SessionState, path: string, mode: Mode, f: Faults)
    requires Save(c, d, s, path, mode, f).status.Conflict?
    ensures StoredIn(d).Holds?
    ensures var raw := StoredIn(d).transcript;
            var normal := Normal(c, raw);
            Save(c, d, s, path, mode, f).status.kind.StalePrefix? <==>
              if CompatiblePrefix(s.messages, normal) then CompatiblePrefix(normal, s.messages)
              else if raw != [] && CompatiblePrefix(s.messages, raw) then CompatiblePrefix(raw, s.messages)
              else CompatiblePrefix(normal, s.messages) || (raw != [] && CompatiblePrefix(raw, s.messages))
  {
    PreparedKeepsStored(c, d, f);
    ConflictIsRejection(c, d, s, path, mode, f);
    var raw := StoredIn(d).transcript;
    AppendShapedIsCompatible(s.messages, raw);
    AppendShapedIsCompatible(s.messages, Normal(c, raw));
    StaleShapedIsCompatible(s.messages, raw);
    StaleShapedIsCompatible(s.messages, Normal(c, raw));
  }

  lemma {:induction false} StaleShapedIsCompatible(next: Transcript, view: Transcript)
    ensures StaleShaped(next, view) <==> CompatiblePrefix(view, next)
  {
    if next <= view {
      PrefixIsCompatible(view, next);
    }
  }

  // ---------------------------------------------------------------- other people's logs

  /** A log that a newer build began is out of bounds: nothing loads, every save fails, and
      none writes anything. */
  lemma {:induction false} NewerLogIsLeftAlone(c: Codec, d: Disk, s: SessionState, path: string, mode: Mode, f: Faults)
    requires d.log.records != [] && d.log.records[0] == Unsupported(true)
    ensures StoredIn(d).Unloadable? && Save(c, d, s, path, mode, f) == Outcome(d, s, Failed)
  {
  }

  /** A log this layer never wrote is passed over: the checkpoint is what loads, and saves
      leave the log as it is. */
  lemma {:induction false} ForeignLogIsPassedOver(c: Codec, d: Disk, s: SessionState, path: string, mode: Mode,
          f: Faults)
    requires if d.log.records == [] then d.log.torn > 0 else d.log.records[0] == Unsupported(false)
    ensures StoredIn(d) == (if d.anchor.Some? then Holds(d.anchor.value) else Nothing)
    ensures Save(c, d, s, path, mode, f).disk.log == d.log
  {
    UnownedLogUntouched(c, d, s, path, mode, f);
  }

  // ---------------------------------------------------------------- cuts

  /** A log that has to be cut back takes two writes before anything else is done: with
      fewer left no save gets anywhere, and a reader still gets what was stored. */
  lemma {:induction false} RepairTakesTwoWrites(c: Codec, d: Disk, s: SessionState, path: string, mode: Mode, f: Faults)
    requires !Play(d.log.records).Refused?
    requires Play(d.log.records).applied > 0
    requires d.index != Some(LogBytes(c, d.log)) && f.budget < 2
    ensures var o := Save(c, d, s, path, mode, f);
            o.status.Failed? && o.session == s && StoredIn(o.disk) == StoredIn(d) && o.disk.sidecar == d.sidecar
  {
    OwnedWhenReplayed(d.log);
    LogBytesZero(c, d.log);
    PreparedKeepsStored(c, d, f);
  }

  /** The cuts of an append, one by one, where the index vouches for a whole log. Cut in the
      log write, it leaves some of its bytes behind; behind that, the snapshot is stored and
      ledger and session know nothing of it; behind the ledger's write, the ledger has it
      and the session does not, for it was not read back; with three writes all is done. */
  lemma {:induction false} AppendCutExactly(c: Codec, d: Disk, raw: Transcript, s: SessionState, path: string,
          f: Faults)
    requires Clean(d.log) && d.log != EMPTY_LOG && d.index == Some(LogBytes(c, d.log))
    requires LoadRaw(d) == Loaded(raw, false)
    requires raw < s.messages && Settled(c, raw, s.messages) && !Outgrown(c, LogBytes(c, d.log), s.messages)
    requires ReadLedger(d.sidecar).Some?
    requires !Save(c, d, s, path, Snapshot, f).status.Conflict?
    ensures var o := Save(c, d, s, path, Snapshot, f);
            var ledger := ReadLedger(d.sidecar).value;
            && o.disk.anchor == d.anchor
            && o.disk.log == (if f.budget == 0 then LogFile(d.log.records, f.torn)
                              else LogFile(d.log.records + [Append(|raw|, s.messages[|raw|..])], 0))
            && o.disk.sidecar == (if f.budget < 2 then d.sidecar
                                  else Present(Meta(ledger.revision + 1, Some(Digest(s.messages)), ledger.listing)))
            && (if f.budget < 3 then o.status.Failed? && o.session == s
                else o.status.Saved? && o.session == Marked(s, path, ledger.revision + 1))
  {
    LogBytesZero(c, d.log);
    VerdictOfAdding(c, BaselineAt(s, path), ReadLedger(d.sidecar).value, raw, s.messages, s.version, false);
    var io := Io(d, f.budget, true);
    assert Prepared(c, d, f) == io;
    var from, base := |raw|, ReadLedger(d.sidecar).value.revision;
    assert Save(c, d, s, path, Snapshot, f) == AppendPath(c, io, s, path, from, base, f);
    assert AppendWrites(c, io, s.messages, from, f.torn)
           == AppendStep(c, io, Append(from, s.messages[from..]), f.torn);
  }
}
