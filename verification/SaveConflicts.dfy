/** Which saves are accepted and which are refused: what one decision may overwrite,
    and exactly when an honest saver is turned away (checkSnapshotWrite in
    internal/agent/save.go). */
module SaveConflicts {
  import opened Transcripts
  import opened EventLogs
  import opened SessionStore
  import opened SaveTheorems

  const NO_FILES: Disk := Disk(EMPTY_LOG, None, Absent, None)

  /** The snapshot extends what is stored, as stored or as a load normalizes it, up to
      its leading system message. */
  predicate Grows(c: Codec, raw: Transcript, next: Transcript) {
    CompatiblePrefix(next, raw) || CompatiblePrefix(next, Normal(c, raw))
  }

  /** What is stored is the transcript t, as stored or as a load normalizes it. */
  predicate IsStored(c: Codec, raw: Transcript, t: Transcript) {
    t == raw || t == Normal(c, raw)
  }

  lemma {:induction false} AcceptedGrowsOrOwns(c: Codec, base: Option<Baseline>, ledger: Meta, raw: Transcript,
          damaged: bool, next: Transcript, version: nat, allow: bool)
    requires Judge(c, base, ledger, raw, damaged, next, version, allow).Accept?
    ensures Grows(c, raw, next)
            || (allow && base.Some? && IsStored(c, raw, base.value.digest.of) && base.value.version <= version)
  {
    if JudgedView(c, raw, next).Some? {
      var view := JudgedView(c, raw, next).value.0;
      if view <= next {
        PrefixIsCompatible(next, view);
      }
    }
  }

  /** No lost update, one save: a snapshot or rewrite save, wherever it is cut, replaces
      what a reader sees only by its own snapshot, and only if nothing was stored, the
      snapshot extends it, or it is a rewrite of the saver's own baseline. */
  lemma {:induction false} NoLostUpdate(c: Codec, d: Disk, s: SessionState, path: string, mode: Mode, f: Faults)
    requires !mode.Force?
    ensures var o := Save(c, d, s, path, mode, f);
            StoredIn(o.disk) == StoredIn(d)
            || (&& StoredIn(o.disk) == Holds(s.messages)
                && (|| StoredIn(d).Nothing?
                    || (StoredIn(d).Holds? && Grows(c, StoredIn(d).transcript, s.messages))
                    || (StoredIn(d).Holds? && mode.Rewrite? && BaselineAt(s, path).Some?
                        && IsStored(c, StoredIn(d).transcript, BaselineAt(s, path).value.digest.of))))
  {
    SaveIsAtomic(c, d, s, path, mode, f);
    PreparedKeepsStored(c, d, f);
    var io := Prepared(c, d, f);
    var base := BaselineAt(s, path);
    if io.ok && !ProbeLog(d.log).Future? && Decide(c, io.disk, base, s.messages, s.version, mode.Rewrite?).Accept?
        && LoadRaw(io.disk).Loaded? {
      AcceptedGrowsOrOwns(c, base, ReadLedger(io.disk.sidecar).value, LoadRaw(io.disk).raw, LoadRaw(io.disk).damaged,
          s.messages, s.version, mode.Rewrite?);
    }
  }

  /** With a disk that loads and a ledger that reads, a save with at least two disk
      mutations left always reaches its decision. */
  lemma {:induction false} DecisionIsReached(c: Codec, d: Disk, s: SessionState, path: string, mode: Mode, f: Faults)
    requires !mode.Force? && StoredIn(d).Holds? && f.budget >= 2
    ensures var io := Prepared(c, d, f);
            io.ok && LoadRaw(io.disk).Loaded? && LoadRaw(io.disk).raw == StoredIn(d).transcript
            && (Save(c, d, s, path, mode, f).status.Conflict? <==>
                  Decide(c, io.disk, BaselineAt(s, path), s.messages, s.version, mode.Rewrite?).Reject?)
  {
    PreparedKeepsStored(c, d, f);
  }

  lemma {:induction false} RewoundIsRejected(c: Codec, base: Option<Baseline>, ledger: Meta, raw: Transcript,
          damaged: bool, next: Transcript, version: nat, allow: bool)
    requires base.Some? && base.value.revisionKnown && ledger.revision != base.value.revision
    requires |raw| < |base.value.digest.of| && |Normal(c, raw)| < |base.value.digest.of| <= |next|
    ensures Judge(c, base, ledger, raw, damaged, next, version, allow).Reject?
  {
    RewoundIsNotCovered(next, raw, base.value.digest);
    RewoundIsNotCovered(next, Normal(c, raw), base.value.digest);
  }

  /** No resurrection, one save: a saver whose baseline revision is known and no longer
      the ledger's is refused whenever the stored transcript was cut below that baseline,
      however its snapshot relates to either, and what is stored stays. */
  lemma {:induction false} RewoundSaverIsRefused(c: Codec, d: Disk, s: SessionState, path: string, mode: Mode,
          f: Faults)
    requires !mode.Force? && f.budget >= 2
    requires BaselineAt(s, path).Some? && BaselineAt(s, path).value.revisionKnown
    requires ReadLedger(d.sidecar).Some? && ReadLedger(d.sidecar).value.revision != BaselineAt(s, path).value.revision
    requires var cut := |BaselineAt(s, path).value.digest.of|;
             StoredIn(d).Holds? && |StoredIn(d).transcript| < cut && |Normal(c, StoredIn(d).transcript)| < cut
             && cut <= |s.messages|
    ensures var o := Save(c, d, s, path, mode, f); o.status.Conflict? && StoredIn(o.disk) == StoredIn(d)
  {
    DecisionIsReached(c, d, s, path, mode, f);
    SaveIsAtomic(c, d, s, path, mode, f);
    PreparedKeepsStored(c, d, f);
    RewoundIsRejected(c, BaselineAt(s, path), ReadLedger(d.sidecar).value, StoredIn(d).transcript,
        LoadRaw(Prepared(c, d, f).disk).damaged, s.messages, s.version, mode.Rewrite?);
  }

  lemma {:induction false} AppendShapedIsCompatible(next: Transcript, view: Transcript)
    ensures AppendShaped(next, view) <==> CompatiblePrefix(next, view)
  {
    if view <= next {
      PrefixIsCompatible(next, view);
    }
  }

  /** When exactly an append is refused: the saver knows a revision that is not the
      ledger's, the disk lacks the new messages, and the saver's baseline is no longer
      reached. The view is the disk as a load normalizes it or as stored. */
  lemma {:induction false} AppendRefusedExactly(c: Codec, base: Option<Baseline>, ledger: Meta, raw: Transcript,
          damaged: bool, next: Transcript, version: nat, allow: bool)
    requires JudgedView(c, raw, next).Some?
    ensures var view := JudgedView(c, raw, next).value.0;
            Judge(c, base, ledger, raw, damaged, next, version, allow).Reject? <==>
              && base.Some? && base.value.revisionKnown && base.value.revision != ledger.revision
              && next != view && !StillReached(next, view, base.value.digest.of)
  {
    if base.Some? {
      var view := JudgedView(c, raw, next).value.0;
      AppendShapedIsCompatible(next, view);
      CoveredExactly(next, view, base.value.digest);
    }
  }

  /** Which saves are judged as appends: those that extend what is stored up to a leading
      system message, as a load normalizes it or, if that is not empty, as stored. */
  lemma {:induction false} JudgedAsAppendExactly(c: Codec, raw: Transcript, next: Transcript)
    ensures JudgedView(c, raw, next).Some?
            <==> CompatiblePrefix(next, Normal(c, raw)) || (raw != [] && CompatiblePrefix(next, raw))
  {
    AppendShapedIsCompatible(next, Normal(c, raw));
    AppendShapedIsCompatible(next, raw);
  }

  /** When exactly a rewrite that is no append is accepted: the disk holds the saver's own
      baseline, as stored or as a load normalizes it, and the ledger does not attribute it
      to someone else's different content. */
  lemma {:induction false} RewriteAcceptedExactly(c: Codec, base: Option<Baseline>, ledger: Meta, raw: Transcript,
          damaged: bool, next: Transcript, version: nat)
    requires JudgedView(c, raw, next).None?
    ensures Judge(c, base, ledger, raw, damaged, next, version, true).Accept? <==>
              && base.Some? && base.value.version <= version
              && (base.value.digest.of == Normal(c, raw) || (raw != [] && base.value.digest.of == raw))
              && (base.value.revisionKnown && ledger.revision != 0 && ledger.revision != base.value.revision
                  ==> ledger.digest == Some(base.value.digest))
  {
    if base.Some? {
      assert base.value.digest == Digest(base.value.digest.of);
    }
  }

  /** The ledger is at another revision than the one the saver knows. */
  predicate LedgerMoved(base: Option<Baseline>, ledger: Meta) {
    base.Some? && base.value.revisionKnown && base.value.revision != ledger.revision
  }

  /** What is stored is the saver's own baseline, as a load normalizes it or as stored. */
  predicate HoldsBaseline(c: Codec, base: Option<Baseline>, raw: Transcript) {
    base.Some? && (base.value.digest.of == Normal(c, raw) || (raw != [] && base.value.digest.of == raw))
  }

  /** An append is refused when the ledger moved and the saver's baseline is no longer
      reached. What is no append is refused unless it is a rewrite of the saver's own
      baseline that a moved ledger does not give to someone else's content. */
  predicate Refused(c: Codec, base: Option<Baseline>, ledger: Meta, raw: Transcript, next: Transcript, version: nat,
          mode: Mode)
  {
    match JudgedView(c, raw, next)
    case Some(judged) =>
      LedgerMoved(base, ledger) && next != judged.0 && !StillReached(next, judged.0, base.value.digest.of)
    case None =>
      || mode.Snapshot? || !HoldsBaseline(c, base, raw) || base.value.version > version
      || (LedgerMoved(base, ledger) && ledger.revision != 0 && ledger.digest != Some(base.value.digest))
  }

  lemma {:induction false} JudgedRefusedExactly(c: Codec, base: Option<Baseline>, ledger: Meta, raw: Transcript,
          damaged: bool, next: Transcript, version: nat, mode: Mode)
    requires !mode.Force?
    ensures Judge(c, base, ledger, raw, damaged, next, version, mode.Rewrite?).Reject?
            <==> Refused(c, base, ledger, raw, next, version, mode)
  {
    match JudgedView(c, raw, next)
    case Some(_) => AppendRefusedExactly(c, base, ledger, raw, damaged, next, version, mode.Rewrite?);
    case None => RewriteAcceptedExactly(c, base, ledger, raw, damaged, next, version);
  }

  lemma {:induction false} ConflictIsRejection(c: Codec, d: Disk, s: SessionState, path: string, mode: Mode, f: Faults)
    ensures Save(c, d, s, path, mode, f).status.Conflict? ==>
              !mode.Force? && Decide(c, Prepared(c, d, f).disk, BaselineAt(s, path), s.messages, s.version,
                  mode.Rewrite?).Reject?
  {
  }

  /** When exactly a save is refused, on any disk that takes two more writes. */
  lemma {:induction false} SaveRefusedExactly(c: Codec, d: Disk, s: SessionState, path: string, mode: Mode, f: Faults)
    requires !mode.Force? && f.budget >= 2
    ensures Save(c, d, s, path, mode, f).status.Conflict? <==>
              && StoredIn(d).Holds? && ReadLedger(d.sidecar).Some?
              && Refused(c, BaselineAt(s, path), ReadLedger(d.sidecar).value, StoredIn(d).transcript, s.messages,
                         s.version, mode)
  {
    PreparedKeepsStored(c, d, f);
    if StoredIn(d).Holds? {
      DecisionIsReached(c, d, s, path, mode, f);
      if ReadLedger(d.sidecar).Some? {
        JudgedRefusedExactly(c, BaselineAt(s, path), ReadLedger(d.sidecar).value, StoredIn(d).transcript,
            LoadRaw(Prepared(c, d, f).disk).damaged, s.messages, s.version, mode);
      }
    } else {
      ConflictIsRejection(c, d, s, path, mode, f);
    }
  }

  /** However few writes are left, only such a save is refused. */
  lemma {:induction false} OnlyRefusedConflicts(c: Codec, d: Disk, s: SessionState, path: string, mode: Mode, f: Faults)
    requires Save(c, d, s, path, mode, f).status.Conflict?
    ensures !mode.Force? && StoredIn(d).Holds? && ReadLedger(d.sidecar).Some?
    ensures Refused(c, BaselineAt(s, path), ReadLedger(d.sidecar).value, StoredIn(d).transcript, s.messages,
            s.version, mode)
  {
    PreparedKeepsStored(c, d, f);
    ConflictIsRejection(c, d, s, path, mode, f);
    JudgedRefusedExactly(c, BaselineAt(s, path), ReadLedger(d.sidecar).value, StoredIn(d).transcript,
        LoadRaw(Prepared(c, d, f).disk).damaged, s.messages, s.version, mode);
  }

  predicate Describes(sidecar: Sidecar, t: Transcript) {
    ReadLedger(sidecar).Some? && ReadLedger(sidecar).value.digest in {None, Some(Digest(t))}
  }

  lemma {:induction false} CarriedLedgerDescribes(c: Codec, io: Io, s: SessionState, path: string, allow: bool,
          f: Faults)
    ensures var v := Decide(c, io.disk, BaselineAt(s, path), s.messages, s.version, allow);
            var o := Carry(c, io, s, path, ProbeLog(io.disk.log).Owned?, v, f);
            o.status.Saved? ==> Describes(o.disk.sidecar, s.messages)
  {
  }

  /** Ledger healing: after a save reported done, the ledger has no digest or that of the
      stored transcript, also when it retries content whose record was lost. */
  lemma {:induction false} LedgerDescribesSave(c: Codec, d: Disk, s: SessionState, path: string, mode: Mode, f: Faults)
    ensures var o := Save(c, d, s, path, mode, f);
            o.status.Saved? ==> StoredIn(o.disk) == Holds(s.messages) && Describes(o.disk.sidecar, s.messages)
  {
    SaveIsAtomic(c, d, s, path, mode, f);
    if !mode.Force? {
      CarriedLedgerDescribes(c, Prepared(c, d, f), s, path, mode.Rewrite?, f);
    }
  }

  /** A save that changes what is stored and is reported done has moved the ledger. */
  lemma {:induction false} ChangeMovesLedger(c: Codec, d: Disk, s: SessionState, path: string, mode: Mode, f: Faults)
    requires var o := Save(c, d, s, path, mode, f); o.status.Saved? && StoredIn(o.disk) != StoredIn(d)
    ensures var o := Save(c, d, s, path, mode, f);
            o.disk.sidecar.Present? && ReadLedger(d.sidecar).Some?
            && ReadLedger(d.sidecar).value.revision < o.disk.sidecar.meta.revision
  {
    PreparedKeepsStored(c, d, f);
    var io := Prepared(c, d, f);
    if !mode.Force? {
      CarriedChangeMovesLedger(c, io, s, path, mode.Rewrite?, f);
    }
  }

  predicate LedgerRaised(before: Sidecar, after: Sidecar) {
    after.Present? && ReadLedger(before).Some? && ReadLedger(before).value.revision < after.meta.revision
  }

  lemma {:induction false} RecordMovesLedger(c: Codec, io: Io, s: SessionState, path: string, native: bool, base: nat,
          indexOk: bool)
    ensures var o := RecordStep(c, io, s, path, native, base, indexOk);
            o.status.Saved? ==> LedgerRaised(io.disk.sidecar, o.disk.sidecar)
  {
  }

  lemma {:induction false} AcceptedChangeMovesLedger(c: Codec, io: Io, s: SessionState, path: string, native: bool,
          v: Verdict, f: Faults)
    requires v.Accept? && (v.appendFrom.Some? ==> v.appendFrom.value <= |s.messages|)
    requires v.upToDate ==>
               ReadLedger(io.disk.sidecar).Some? && v.revision == ReadLedger(io.disk.sidecar).value.revision
    ensures var o := Carry(c, io, s, path, native, v, f);
            o.status.Saved? ==> LedgerRaised(io.disk.sidecar, o.disk.sidecar) || v.upToDate
  {
    if v.upToDate {
    } else if v.appendFrom.Some? && native {
      RecordMovesLedger(c, AppendWrites(c, io, s.messages, v.appendFrom.value, f.torn), s, path, true, v.revision,
          f.indexOk);
    } else {
      var logged := RewriteWrites(c, io, s.messages, native, false, v.repairLog, f.torn);
      RecordMovesLedger(c, AnchorStep(logged, s.messages), s, path, native, v.revision, f.indexOk);
    }
  }

  lemma {:induction false} UpToDateKeepsFiles(c: Codec, io: Io, s: SessionState, path: string, native: bool,
          v: Verdict, f: Faults)
    requires v.Accept? && v.upToDate && (v.appendFrom.Some? ==> v.appendFrom.value <= |s.messages|)
    requires ReadLedger(io.disk.sidecar).Some? && v.revision == ReadLedger(io.disk.sidecar).value.revision
    ensures StoredIn(Carry(c, io, s, path, native, v, f).disk) == StoredIn(io.disk)
  {
    SameFilesSameStored(io.disk, Carry(c, io, s, path, native, v, f).disk);
  }

  lemma {:induction false} CarriedChangeMovesLedger(c: Codec, io: Io, s: SessionState, path: string, allow: bool,
          f: Faults)
    ensures var v := Decide(c, io.disk, BaselineAt(s, path), s.messages, s.version, allow);
            var o := Carry(c, io, s, path, ProbeLog(io.disk.log).Owned?, v, f);
            o.status.Saved? && StoredIn(o.disk) != StoredIn(io.disk) ==> LedgerRaised(io.disk.sidecar, o.disk.sidecar)
  {
    var v := Decide(c, io.disk, BaselineAt(s, path), s.messages, s.version, allow);
    if v.Accept? {
      AcceptedChangeMovesLedger(c, io, s, path, ProbeLog(io.disk.log).Owned?, v, f);
      if v.upToDate {
        UpToDateKeepsFiles(c, io, s, path, ProbeLog(io.disk.log).Owned?, v, f);
      }
    }
  }

  /** A session's first save, where no file is. */
  lemma {:induction false} FirstSave(c: Codec, ms: Transcript, path: string, f: Faults)
    requires f.budget >= 5 && f.indexOk
    ensures var o := Save(c, NO_FILES, SessionState(ms, 0, 0, 0, None), path, Snapshot, f);
            && o.disk.log == LogFile([Replace(ms)], 0) && o.disk.anchor == Some(ms)
            && o.disk.sidecar == Present(Meta(1, Some(Digest(ms)), "")) && o.disk.index == Some(LogBytes(c, o.disk.log))
            && o.session == SessionState(ms, 0, 0, 0, Some(Baseline(path, Digest(ms), 0, 1, true)))
  {
    LogBytesZero(c, EMPTY_LOG);
    assert [] + [Replace(ms)] == [Replace(ms)];
    assert Appended(c, EMPTY_LOG, Replace(ms)) == LogFile([Replace(ms)], 0);
  }

  /** An append cut between log and ledger: the disk has the snapshot, the ledger and the
      session know nothing of it. */
  lemma {:induction false} RecordIsLost(c: Codec, d: Disk, raw: Transcript, s: SessionState, path: string, torn: nat)
    requires Clean(d.log)
    requires d.log != EMPTY_LOG
    requires d.index == Some(LogBytes(c, d.log))
    requires LoadRaw(d) == Loaded(raw, false)
    requires c.normalize(raw).None? && raw < s.messages && ReadLedger(d.sidecar).Some?
    requires BaselineAt(s, path).Some? ==> BaselineAt(s, path).value.revision == ReadLedger(d.sidecar).value.revision
    ensures var o := Save(c, d, s, path, Snapshot, Faults(1, torn, true));
            o.status.Failed? && StoredIn(o.disk) == Holds(s.messages) && o.disk.sidecar == d.sidecar && o.session == s
  {
    var size := LogBytes(c, d.log);
    LogBytesZero(c, d.log);
    LoadAfterCompact(d, s.messages);
    LoadAfterAppend(c, d, raw, s.messages);
    assert Decide(c, d, BaselineAt(s, path), s.messages, s.version, false)
           == Accept(ReadLedger(d.sidecar).value.revision, false, Some(|raw|), false, false);
  }

  /** What a save needs besides its decision: a format this build knows, a log it can
      repair, and a readable ledger. */
  predicate Saveable(c: Codec, d: Disk) {
    && !ProbeLog(d.log).Future? && ReadLedger(d.sidecar).Some?
    && (ProbeLog(d.log).Owned? ==> RepairedLog(c, d.log, d.index).Some?)
  }

  lemma {:induction false} PreparedIsWhole(c: Codec, d: Disk, f: Faults)
    requires f.budget >= 6 && Saveable(c, d)
    ensures var io := Prepared(c, d, f); io.ok && io.left >= 4 && !ProbeLog(io.disk.log).Future?
  {
    PreparedKeepsStored(c, d, f);
  }

  lemma {:induction false} RecordCompletes(c: Codec, io: Io, s: SessionState, path: string, native: bool, base: nat,
          indexOk: bool)
    requires io.ok && io.left >= 2 && ReadLedger(io.disk.sidecar).Some?
    ensures RecordStep(c, io, s, path, native, base, indexOk).status.Saved?
  {
  }

  lemma {:induction false} RewriteCompletes(c: Codec, io: Io, s: SessionState, path: string, native: bool,
          force: bool, repairLog: bool, base: nat, f: Faults)
    requires io.ok && io.left >= 4 && ReadLedger(io.disk.sidecar).Some?
    ensures RewritePath(c, io, s, path, native, force, repairLog, base, f).status.Saved?
  {
    var logged := RewriteWrites(c, io, s.messages, native, force, repairLog, f.torn);
    assert logged.ok && logged.left >= 3;
    RecordCompletes(c, AnchorStep(logged, s.messages), s, path, native, base, f.indexOk);
  }

  lemma {:induction false} AppendCompletes(c: Codec, io: Io, s: SessionState, path: string, from: nat, base: nat,
          f: Faults)
    requires io.ok && io.left >= 4 && ReadLedger(io.disk.sidecar).Some? && from <= |s.messages|
    ensures AppendPath(c, io, s, path, from, base, f).status.Saved?
  {
    var written := AppendWrites(c, io, s.messages, from, f.torn);
    assert written.ok && written.left >= 2;
    RecordCompletes(c, written, s, path, true, base, f.indexOk);
  }

  lemma {:induction false} CarryCompletes(c: Codec, io: Io, s: SessionState, path: string, native: bool, v: Verdict,
          f: Faults)
    requires v.Accept?
    requires v.appendFrom.Some? ==> v.appendFrom.value <= |s.messages|
    requires io.ok
    requires io.left >= 4
    requires ReadLedger(io.disk.sidecar).Some?
    requires v.upToDate ==> v.revision == ReadLedger(io.disk.sidecar).value.revision
    ensures Carry(c, io, s, path, native, v, f).status.Saved?
  {
    if v.upToDate {
      if v.ledgerStale {
        RecordCompletes(c, io, s, path, native, v.revision, f.indexOk);
      }
    } else if v.appendFrom.Some? && native {
      AppendCompletes(c, io, s, path, v.appendFrom.value, v.revision, f);
    } else {
      RewriteCompletes(c, io, s, path, native, false, v.repairLog, v.revision, f);
    }
  }

  /** Saves get done: on a disk that takes six more writes, a save is reported done
      exactly when the disk is saveable and, unless forced, the decision accepts. */
  lemma {:induction false} SaveCompletesExactly(c: Codec, d: Disk, s: SessionState, path: string, mode: Mode, f: Faults)
    requires f.budget >= 6
    ensures Save(c, d, s, path, mode, f).status.Saved? <==>
              Saveable(c, d)
              && (mode.Force?
                 || Decide(c, Prepared(c, d, f).disk, BaselineAt(s, path), s.messages, s.version,
                    mode.Rewrite?).Accept?)
  {
    var io := Prepared(c, d, f);
    var v := Decide(c, io.disk, BaselineAt(s, path), s.messages, s.version, mode.Rewrite?);
    if Saveable(c, d) {
      PreparedIsWhole(c, d, f);
      if mode.Force? {
        RewriteCompletes(c, io, s, path, ProbeLog(io.disk.log).Owned?, true, false,
            ReadLedger(d.sidecar).value.revision, f);
      } else if v.Accept? {
        CarryCompletes(c, io, s, path, ProbeLog(io.disk.log).Owned?, v, f);
      }
    }
  }

  /** A load hands out what is stored, normalized, anchored on the ledger it reads; under
      one it cannot read it knows no revision. */
  lemma {:induction false} LoadAnchors(c: Codec, d: Disk, path: string)
    requires StoredIn(d).Holds?
    ensures Opened(c, d, path).Some?
    ensures var s := Opened(c, d, path).value;
            && s.messages == Normal(c, StoredIn(d).transcript)
            && BaselineAt(s, path).Some?
            && var base := BaselineAt(s, path).value;
               && base.digest.of == s.messages && base.version == s.version
               && (base.revisionKnown <==> ReadLedger(d.sidecar).Some?)
               && (base.revisionKnown ==> base.revision == ReadLedger(d.sidecar).value.revision)
  {
  }

  /** So what was loaded under an unreadable ledger is never refused as an append, whatever
      the ledger says by then. */
  lemma {:induction false} BlindAppendIsNotRefused(c: Codec, before: Disk, d: Disk, s: SessionState, path: string,
          mode: Mode, f: Faults)
    requires StoredIn(before).Holds? && ReadLedger(before.sidecar).None?
    requires BaselineAt(s, path) == BaselineAt(Opened(c, before, path).value, path)
    requires StoredIn(d).Holds?
    requires var raw := StoredIn(d).transcript;
             CompatiblePrefix(s.messages, Normal(c, raw)) || (raw != [] && CompatiblePrefix(s.messages, raw))
    ensures !Save(c, d, s, path, mode, f).status.Conflict?
  {
    LoadAnchors(c, before, path);
    JudgedAsAppendExactly(c, StoredIn(d).transcript, s.messages);
    if Save(c, d, s, path, mode, f).status.Conflict? {
      OnlyRefusedConflicts(c, d, s, path, mode, f);
    }
  }
}
