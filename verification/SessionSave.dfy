/** The session object and its files, changed step by step as internal/agent/save.go,
    session.go and session_events.go change them; every method is proved against the
    functions of SessionStore. */
module SessionSave {
  import opened Transcripts
  import opened EventLogs
  import opened SessionStore

  /** The files beside one transcript path, on a disk where only left more mutations
      succeed. */
  class SessionFiles {
    const path: string
    var log: LogFile
    var anchor: Option<Transcript>
    var sidecar: Sidecar
    var index: Option<nat>
    var left: nat

    constructor (path: string, disk: Disk, left: nat)
      ensures View() == disk && this.left == left && this.path == path
    {
      this.path := path;
      log, anchor, sidecar, index := disk.log, disk.anchor, disk.sidecar, disk.index;
      this.left := left;
    }

    function View(): Disk
      reads this
    {
      Disk(log, anchor, sidecar, index)
    }

    /** The files after a step, as the functions see them. */
    function After(ok: bool): Io
      reads this
    {
      Io(View(), left, ok)
    }

    method RepairSessionEventLogTail(c: Codec) returns (ok: bool)
      modifies this
      ensures After(ok) == RepairStep(c, old(After(true)))
    {
      if log == EMPTY_LOG {
        return true;
      }
      if index == Some(LogBytes(c, log)) {
        return true;
      }
      var replay := ReplaySessionEventLog(log);
      if replay.ReplayError? {
        return false;
      }
      if left == 0 {
        return false;
      }
      left := left - 1;
      log := LogFile(log.records[..replay.applied], 0);
      if replay.applied == 0 {
        return true;
      }
      if left == 0 {
        return false;
      }
      left := left - 1;
      return true;
    }

    method AppendSessionEvent(c: Codec, rec: Record, torn: nat) returns (ok: bool)
      modifies this
      ensures After(ok) == AppendStep(c, old(After(true)), rec, torn)
    {
      if left == 0 {
        log := LogFile(log.records, log.torn + torn);
        return false;
      }
      left := left - 1;
      log := Appended(c, log, rec);
      return true;
    }

    method CompactSessionEventLog(t: Transcript) returns (ok: bool)
      modifies this
      ensures After(ok) == CompactStep(old(After(true)), t)
    {
      if left == 0 {
        return false;
      }
      left := left - 1;
      log := LogFile([Replace(t)], 0);
      return true;
    }

    method WriteSessionMessages(t: Transcript) returns (ok: bool)
      modifies this
      ensures After(ok) == AnchorStep(old(After(true)), t)
    {
      if left == 0 {
        return false;
      }
      left := left - 1;
      anchor := Some(t);
      return true;
    }

    /** Load, raise the revision over base, save without losing a newer record, read back. */
    method RecordSessionContentRevision(digest: Digest, base: nat) returns (revision: Option<nat>)
      modifies this
      ensures match ReadLedger(old(sidecar))
              case None => revision.None? && After(false) == old(After(false))
              case Some(m) =>
                var rec := ContentRecord(m, digest, base);
                var written := Commit(old(After(true)), old(View()).(sidecar := SavedMeta(old(sidecar), rec)));
                View() == written.disk && left == written.left
                && revision == if written.ok && written.left > 0 then Some(rec.revision) else None
    {
      var meta := Meta(0, None, "");
      match sidecar {
        case Unreadable => return None;
        case Absent =>
        case Present(m) => meta := m;
      }
      if meta.revision < base {
        meta := meta.(revision := base);
      }
      meta := meta.(revision := meta.revision + 1, digest := Some(digest));
      if left == 0 {
        return None;
      }
      left := left - 1;
      sidecar := SavedMeta(sidecar, meta);
      if left == 0 {
        return None;
      }
      return Some(sidecar.meta.revision);
    }

    /** saveBranchMeta: a newer ledger on disk is kept. */
    method SaveBranchMeta(m: Meta) returns (ok: bool)
      modifies this
      ensures After(ok) == Commit(old(After(true)), old(View()).(sidecar := SavedMeta(old(sidecar), m)))
    {
      if left == 0 {
        return false;
      }
      left := left - 1;
      var next := m;
      match sidecar {
        case Present(existing) =>
          if existing.revision > next.revision {
            next := next.(revision := existing.revision, digest := existing.digest);
          } else if existing.revision == next.revision && next.digest.None? {
            next := next.(digest := existing.digest);
          }
        case _ =>
      }
      sidecar := Present(next);
      return true;
    }

    method WriteSessionEventIndex(c: Codec)
      modifies this`index
      ensures index == IndexOf(c, View())
    {
      index := if log == EMPTY_LOG then None else Some(LogBytes(c, log));
    }
  }

  /** loadSessionMessages: the event log if this layer owns it and it yields a record. */
  method LoadSessionMessages(files: SessionFiles) returns (load: Load)
    ensures load == LoadRaw(files.View())
  {
    var probe := ProbeLog(files.log);
    if probe.Future? {
      return LoadFailed;
    }
    if probe.Owned? && files.log != EMPTY_LOG {
      var replay := ReplaySessionEventLog(files.log);
      if replay.ReplayError? {
        return LoadFailed;
      }
      if replay.applied > 0 {
        return Loaded(replay.messages, replay.damaged);
      }
      return match files.anchor case None => NotFound case Some(t) => Loaded(t, true);
    }
    return match files.anchor case None => NotFound case Some(t) => Loaded(t, false);
  }

  class Session {
    var messages: Transcript
    var version: nat
    var rewriteVersion: nat
    var persistedRewriteVersion: nat
    var persisted: Option<Baseline>
    var normalizedDirty: bool
    var eventLogDamaged: bool
    var rawMessages: Transcript

    function State(): SessionState
      reads this
    {
      SessionState(messages, version, rewriteVersion, persistedRewriteVersion, persisted)
    }

    constructor (messages: Transcript)
      ensures State() == SessionState(messages, 0, 0, 0, None)
      ensures !normalizedDirty && !eventLogDamaged && rawMessages == []
    {
      this.messages := messages;
      version, rewriteVersion, persistedRewriteVersion := 0, 0, 0;
      persisted := None;
      normalizedDirty, eventLogDamaged, rawMessages := false, false, [];
    }

    method Add(m: Message)
      modifies this`messages, this`version
      ensures messages == old(messages) + [m] && version == old(version) + 1
    {
      messages := messages + [m];
      version := version + 1;
    }

    method Replace(ms: Transcript)
      modifies this`messages, this`version
      ensures messages == ms && version == old(version) + 1
    {
      messages := ms;
      version := version + 1;
    }

    method IncrementRewrite()
      modifies this`rewriteVersion, this`version
      ensures rewriteVersion == old(rewriteVersion) + 1 && version == old(version) + 1
    {
      rewriteVersion := rewriteVersion + 1;
      version := version + 1;
    }

    method NeedsRewriteSave() returns (needs: bool)
      ensures needs <==> rewriteVersion > persistedRewriteVersion
    {
      needs := rewriteVersion > persistedRewriteVersion;
    }

    /** A session of its own that carries on this one's persistence baseline. */
    method CloneWithMessages(ms: Transcript) returns (s: Session)
      ensures fresh(s) && s.State() == Cloned(State(), ms)
      ensures s.normalizedDirty == normalizedDirty && s.eventLogDamaged == eventLogDamaged && s.rawMessages == []
    {
      s := new Session(ms);
      s.version := if messages == ms then version else version + 1;
      s.rewriteVersion, s.persistedRewriteVersion, s.persisted := rewriteVersion, persistedRewriteVersion, persisted;
      s.normalizedDirty, s.eventLogDamaged := normalizedDirty, eventLogDamaged;
    }

    /** The same, only for this history with at most another leading system message. */
    method CloneWithMessagesIfCompatible(ms: Transcript) returns (s: Session?)
      ensures s != null <==> CompatiblePrefix(messages, ms) && CompatiblePrefix(ms, messages)
      ensures s != null ==> fresh(s) && s.State() == Cloned(State(), ms)
    {
      if messages != ms && WithoutLeadingSystem(messages) != WithoutLeadingSystem(ms) {
        return null;
      }
      s := CloneWithMessages(ms);
    }

    method SetPersistedBaseline(path: string, digest: Digest, version: nat, revision: nat, known: bool,
            rewriteVersion: nat)
      modifies this`persisted, this`persistedRewriteVersion
      ensures persisted == Some(Baseline(path, digest, version, revision, known))
      ensures persistedRewriteVersion == if rewriteVersion > old(persistedRewriteVersion) then rewriteVersion
              else old(persistedRewriteVersion)
    {
      persisted := Some(Baseline(path, digest, version, revision, known));
      if rewriteVersion > persistedRewriteVersion {
        persistedRewriteVersion := rewriteVersion;
      }
    }

    method PersistState(path: string) returns (base: Option<Baseline>)
      ensures base == BaselineAt(State(), path)
    {
      if persisted.Some? && persisted.value.path == path {
        return persisted;
      }
      return None;
    }

    method OwnsPersistedState(path: string, view: Transcript, ledger: Meta, nextVersion: nat) returns (owned: bool)
      ensures owned <==> OwnsView(BaselineAt(State(), path), view, ledger, nextVersion)
    {
      var state := PersistState(path);
      if state.None? || state.value.version > nextVersion || state.value.digest != Digest(view) {
        return false;
      }
      if !state.value.revisionKnown || ledger.revision == 0 || state.value.revision == ledger.revision {
        return true;
      }
      return ledger.digest == Some(Digest(view));
    }

    /** checkSnapshotWrite: the compare-and-swap decision. */
    method CheckSnapshotWrite(c: Codec, files: SessionFiles, next: Transcript, nextVersion: nat,
            allowOwnedRewrite: bool)
      returns (verdict: Verdict)
      ensures verdict == Decide(c, files.View(), BaselineAt(State(), files.path), next, nextVersion, allowOwnedRewrite)
    {
      var current, status := LoadSession(c, files);
      match status {
        case NotFound => return Accept(0, false, None, false, false);
        case LoadFailed => return Undecided;
        case Loaded(_, _) =>
      }
      if files.sidecar.Unreadable? {
        return Undecided;
      }
      var ledger := ReadLedger(files.sidecar).value;
      var base := PersistState(files.path);
      var rawDiffers := current.normalizedDirty && |current.rawMessages| > 0;
      var raw := if rawDiffers then current.rawMessages else current.messages;
      var view, exact, shaped, pending := ChooseView(next, current.messages, raw, rawDiffers, current.normalizedDirty);
      if shaped {
        verdict := DecideAppend(base, ledger, current.eventLogDamaged, next, view, exact, pending);
      } else {
        verdict := DecideRewrite(files.path, ledger, current.eventLogDamaged, next, nextVersion, current.messages,
            raw, rawDiffers, allowOwnedRewrite);
      }
    }

    method DecideRewrite(path: string, ledger: Meta, damaged: bool, next: Transcript, nextVersion: nat,
            existing: Transcript, raw: Transcript, rawDiffers: bool, allowOwnedRewrite: bool)
      returns (verdict: Verdict)
      ensures var base := BaselineAt(State(), path);
              var owned := OwnsView(base, existing, ledger, nextVersion)
                           || (rawDiffers && OwnsView(base, raw, ledger, nextVersion));
              var stale := StaleShaped(next, existing) || (rawDiffers && StaleShaped(next, raw));
              verdict == if allowOwnedRewrite && owned then Accept(ledger.revision, false, None, damaged, false)
                         else Reject(if stale then StalePrefix else Diverged)
    {
      if allowOwnedRewrite {
        var owned := OwnsPersistedState(path, existing, ledger, nextVersion);
        if !owned && rawDiffers {
          owned := OwnsPersistedState(path, raw, ledger, nextVersion);
        }
        if owned {
          return Accept(ledger.revision, false, None, damaged, false);
        }
      }
      var stale := IsStalePrefix(existing, next);
      if !stale && rawDiffers {
        stale := IsStalePrefix(raw, next);
      }
      return Reject(if stale then StalePrefix else Diverged);
    }

    /** Session.save, in the source's own order: repair, decide, log, anchor, ledger,
        index, baseline. f.budget is what files.left starts from. */
    method Save(c: Codec, files: SessionFiles, mode: Mode, f: Faults) returns (status: Status)
      requires files.left == f.budget
      modifies this, files
      ensures var o := SessionStore.Save(c, old(files.View()), old(State()), files.path, mode, f);
              files.View() == o.disk && State() == o.session && status == o.status
    {
      var probe := ProbeLog(files.log);
      if probe.Future? {
        return Failed;
      }
      LogBytesZero(c, files.log);
      if probe.Owned? && files.log != EMPTY_LOG {
        var repaired := files.RepairSessionEventLogTail(c);
        if !repaired {
          return Failed;
        }
      }
      ProbeSurvivesRepair(c, old(files.View()), f);
      status := SaveRepaired(c, files, mode, probe.Owned?, f);
    }

    method SaveRepaired(c: Codec, files: SessionFiles, mode: Mode, native: bool, f: Faults) returns (status: Status)
      requires native == ProbeLog(files.log).Owned?
      modifies this, files
      ensures var o := SavePrepared(c, old(files.After(true)), old(State()), files.path, mode, f);
              files.View() == o.disk && State() == o.session && status == o.status
    {
      if mode.Force? {
        if files.sidecar.Unreadable? {
          return Failed;
        }
        status := FullRewrite(c, files, native, true, false, ReadLedger(files.sidecar).value.revision, f);
        return;
      }
      var decision := CheckSnapshotWrite(c, files, messages, version, mode.Rewrite?);
      match decision {
        case Undecided => return Failed;
        case Reject(kind) => return Conflict(kind);
        case Accept(revision, upToDate, appendFrom, repairLog, ledgerStale) =>
          if upToDate {
            if ledgerStale {
              status := Finish(c, files, native, revision, f.indexOk);
            } else {
              SetPersistedBaseline(files.path, Digest(messages), version, revision, true, rewriteVersion);
              status := Saved;
            }
          } else if appendFrom.Some? && native {
            var appended := AppendOnly(c, files, appendFrom.value, f.torn);
            if !appended {
              return Failed;
            }
            status := Finish(c, files, true, revision, f.indexOk);
          } else {
            status := FullRewrite(c, files, native, false, repairLog, revision, f);
          }
      }
    }

    method FullRewrite(c: Codec, files: SessionFiles, native: bool, force: bool, repairLog: bool, base: nat,
            f: Faults)
      returns (status: Status)
      modifies this`persisted, this`persistedRewriteVersion, files
      ensures var o := RewritePath(c, old(files.After(true)), old(State()), files.path, native, force, repairLog,
              base, f);
              files.View() == o.disk && State() == o.session && status == o.status
    {
      var ok := RewriteLog(c, files, native, force, repairLog, f.torn);
      if !ok {
        return Failed;
      }
      ok := files.WriteSessionMessages(messages);
      if !ok {
        return Failed;
      }
      status := Finish(c, files, native, base, f.indexOk);
    }

    method AppendOnly(c: Codec, files: SessionFiles, from: nat, torn: nat) returns (ok: bool)
      requires from <= |messages|
      modifies files
      ensures files.After(ok) == AppendWrites(c, old(files.After(true)), messages, from, torn)
    {
      var size := LogBytes(c, files.log);
      if size == 0 {
        ok := files.AppendSessionEvent(c, Record.Replace(messages), torn);
      } else if Oversized(c, size, messages) {
        ok := files.CompactSessionEventLog(messages);
        if ok {
          ok := files.WriteSessionMessages(messages);
        }
      } else {
        ok := files.AppendSessionEvent(c, Append(from, messages[from..]), torn);
      }
    }

    method RewriteLog(c: Codec, files: SessionFiles, native: bool, force: bool, repairLog: bool, torn: nat)
      returns (ok: bool)
      modifies files
      ensures files.After(ok) == RewriteWrites(c, old(files.After(true)), messages, native, force, repairLog, torn)
    {
      var size := LogBytes(c, files.log);
      ok := true;
      if !native {
      } else if force {
        if size > 0 {
          ok := files.CompactSessionEventLog(messages);
        }
      } else if repairLog || Oversized(c, size, messages) {
        ok := files.CompactSessionEventLog(messages);
      } else {
        ok := files.AppendSessionEvent(c, Record.Replace(messages), torn);
      }
    }

    method Finish(c: Codec, files: SessionFiles, native: bool, base: nat, indexOk: bool) returns (status: Status)
      modifies this`persisted, this`persistedRewriteVersion, files
      ensures var o := RecordStep(c, old(files.After(true)), old(State()), files.path, native, base, indexOk);
              files.View() == o.disk && State() == o.session && status == o.status
    {
      var revision := files.RecordSessionContentRevision(Digest(messages), base);
      if revision.None? {
        return Failed;
      }
      if native && indexOk {
        files.WriteSessionEventIndex(c);
      }
      SetPersistedBaseline(files.path, Digest(messages), version, revision.value, true, rewriteVersion);
      return Saved;
    }
  }

  method IsStalePrefix(existing: Transcript, next: Transcript) returns (stale: bool)
    ensures stale <==> StaleShaped(next, existing)
  {
    stale := MessagesHavePrefix(existing, next);
    if !stale {
      stale := MessagesHavePrefixWithCompatibleSystem(existing, next);
    }
  }

  /** The view an append is judged on, with the stored transcript as the fallback. */
  method ChooseView(next: Transcript, normalized: Transcript, raw: Transcript, rawDiffers: bool, dirty: bool)
    returns (existing: Transcript, exactAppend: bool, appendShaped: bool, repairPending: bool)
    ensures appendShaped <==> AppendShaped(next, normalized) || (rawDiffers && AppendShaped(next, raw))
    ensures appendShaped ==>
            existing == (if AppendShaped(next, normalized) then normalized else raw)
            && (exactAppend <==> existing <= next)
    ensures repairPending == (dirty && (!appendShaped || AppendShaped(next, normalized)))
  {
    existing, repairPending := normalized, dirty;
    exactAppend := MessagesHavePrefix(next, existing);
    var compatible := MessagesHavePrefixWithCompatibleSystem(next, existing);
    appendShaped := existing == next || exactAppend || compatible;
    if !appendShaped && rawDiffers {
      var rawAppend := MessagesHavePrefix(next, raw);
      var rawCompatible := MessagesHavePrefixWithCompatibleSystem(next, raw);
      if raw == next || rawAppend || rawCompatible {
        existing, exactAppend, appendShaped, repairPending := raw, rawAppend, true, false;
      }
    }
  }

  method DecideAppend(base: Option<Baseline>, ledger: Meta, damaged: bool, next: Transcript, existing: Transcript,
          exactAppend: bool, repairPending: bool)
    returns (verdict: Verdict)
    requires exactAppend <==> existing <= next
    ensures verdict == JudgeAppend(base, ledger, damaged, next, existing, repairPending)
  {
    var contentUnchanged := existing == next;
    if base.Some? && base.value.revisionKnown && ledger.revision != base.value.revision && !contentUnchanged {
      var covered := AppendCoversPersistedBaseline(next, existing, base.value.digest);
      if !covered {
        var stale := IsStalePrefix(existing, next);
        return Reject(if stale then StalePrefix else Diverged);
      }
    }
    var upToDate := contentUnchanged && !repairPending && !damaged;
    var ledgerStale := upToDate && ledger.digest.Some? && ledger.digest != Some(Digest(next));
    var appendFrom := None;
    if exactAppend && !contentUnchanged && |existing| < |next| && !damaged && !repairPending {
      appendFrom := Some(|existing|);
    }
    return Accept(ledger.revision, upToDate, appendFrom, damaged, ledgerStale);
  }

  lemma {:induction false} ProbeSurvivesRepair(c: Codec, d: Disk, f: Faults)
    ensures ProbeLog(Prepared(c, d, f).disk.log) == ProbeLog(d.log)
  {
  }

  /** loadSessionUnlocked: the transcript is normalized on the way in, the one it was
      read as is kept, and the baseline is anchored on the ledger if it reads. */
  method LoadSession(c: Codec, files: SessionFiles) returns (s: Session, load: Load)
    ensures fresh(s) && load == LoadRaw(files.View())
    ensures load.Loaded? ==> Opened(c, files.View(), files.path) == Some(s.State())
    ensures load.Loaded? ==> s.messages == Normal(c, load.raw) && s.normalizedDirty == Dirty(c, load.raw)
                             && s.eventLogDamaged == load.damaged && (s.normalizedDirty ==> s.rawMessages == load.raw)
  {
    load := LoadSessionMessages(files);
    s := new Session(if load.Loaded? then load.raw else []);
    if load.Loaded? {
      s.eventLogDamaged := load.damaged;
      var normalized := c.normalize(load.raw);
      if normalized.Some? && !(|normalized.value| == |load.raw| == 0) {
        s.normalizedDirty := true;
        s.rawMessages := load.raw;
      }
      s.messages := Normal(c, load.raw);
      match files.sidecar {
        case Unreadable =>
          s.SetPersistedBaseline(files.path, Digest(s.messages), s.version, 0, false, s.rewriteVersion);
        case Absent => s.SetPersistedBaseline(files.path, Digest(s.messages), s.version, 0, true, s.rewriteVersion);
        case Present(m) =>
          s.SetPersistedBaseline(files.path, Digest(s.messages), s.version, m.revision, true, s.rewriteVersion);
      }
    }
  }
}
