/** What a session's files hold and what one save does to them, as functions
    (internal/agent/save.go, session_events.go, branch.go). SessionSave carries the
    same operations out step by step on mutable files. */
module SessionStore {
  import opened Transcripts
  import opened EventLogs

  /** The branch-meta sidecar: the compare-and-swap ledger (revision and content digest)
      and everything else it lists. */
  datatype Meta = Meta(revision: nat, digest: Option<Digest>, listing: string)

  datatype Sidecar = Absent | Present(meta: Meta) | Unreadable

  datatype Disk = Disk(log: LogFile, anchor: Option<Transcript>, sidecar: Sidecar, index: Option<nat>)

  // ---------------------------------------------------------------- loading

  datatype Load = NotFound | LoadFailed | Loaded(raw: Transcript, damaged: bool)

  function FromAnchor(d: Disk, damaged: bool): Load {
    match d.anchor
    case None => NotFound
    case Some(t) => Loaded(t, damaged)
  }

  /** The raw transcript: the event log when this layer owns it and it holds a record,
      otherwise the checkpoint. */
  function LoadRaw(d: Disk): Load {
    match ProbeLog(d.log)
    case Future => LoadFailed
    case Foreign => FromAnchor(d, false)
    case Owned =>
      if d.log == EMPTY_LOG then FromAnchor(d, false)
      else match ReplayOf(d.log)
        case ReplayError => LoadFailed
        case Replayed(ms, n, damaged) => if n > 0 then Loaded(ms, damaged) else FromAnchor(d, true)
  }

  /** What a reader gets, whatever the health of the log it came from. */
  datatype Stored = Nothing | Unloadable | Holds(transcript: Transcript)

  function StoredIn(d: Disk): Stored {
    match LoadRaw(d)
    case NotFound => Nothing
    case LoadFailed => Unloadable
    case Loaded(raw, _) => Holds(raw)
  }

  function Normal(c: Codec, raw: Transcript): Transcript {
    match c.normalize(raw)
    case None => raw
    case Some(t) => t
  }

  /** normalizedDirty: the repair allocated a new slice, which nothing can be told of
      when both are empty. */
  predicate Dirty(c: Codec, raw: Transcript) {
    c.normalize(raw).Some? && !(raw == [] && Normal(c, raw) == [])
  }

  // ---------------------------------------------------------------- ledger

  /** None when the sidecar cannot be read; a missing one is revision 0. */
  function ReadLedger(s: Sidecar): Option<Meta> {
    match s
    case Absent => Some(Meta(0, None, ""))
    case Present(m) => Some(m)
    case Unreadable => None
  }

  function PreservePersistence(next: Meta, existing: Meta): Meta {
    if existing.revision > next.revision then next.(revision := existing.revision, digest := existing.digest)
    else if existing.revision == next.revision && next.digest.None? then next.(digest := existing.digest)
    else next
  }

  function SavedMeta(s: Sidecar, m: Meta): Sidecar {
    match s
    case Present(existing) => Present(PreservePersistence(m, existing))
    case _ => Present(m)
  }

  function ContentRecord(m: Meta, digest: Digest, base: nat): Meta {
    Meta((if m.revision < base then base else m.revision) + 1, Some(digest), m.listing)
  }

  // ---------------------------------------------------------------- sessions

  /** sessionPersistState with ok set; revisionKnown is false when the sidecar could
      not be read at load. */
  datatype Baseline = Baseline(path: string, digest: Digest, version: nat, revision: nat, revisionKnown: bool)

  datatype SessionState = SessionState(messages: Transcript, version: nat, rewriteVersion: nat,
          persistedRewriteVersion: nat, persisted: Option<Baseline>)

  function BaselineAt(s: SessionState, path: string): Option<Baseline> {
    if s.persisted.Some? && s.persisted.value.path == path then s.persisted else None
  }

  function WithBaseline(s: SessionState, path: string, digest: Digest, revision: nat, known: bool): SessionState {
    s.(persisted := Some(Baseline(path, digest, s.version, revision, known)),
       persistedRewriteVersion := if s.rewriteVersion > s.persistedRewriteVersion then s.rewriteVersion
           else s.persistedRewriteVersion)
  }

  function Marked(s: SessionState, path: string, revision: nat): SessionState {
    WithBaseline(s, path, Digest(s.messages), revision, true)
  }

  /** CloneWithMessages: other messages, the same persistence baseline. */
  function Cloned(s: SessionState, ms: Transcript): SessionState {
    s.(messages := ms, version := if ms == s.messages then s.version else s.version + 1)
  }

  /** LoadSession into a fresh session. */
  function Opened(c: Codec, d: Disk, path: string): Option<SessionState> {
    match LoadRaw(d)
    case Loaded(raw, _) =>
      var ms := Normal(c, raw);
      var session := SessionState(ms, 0, 0, 0, None);
      Some(match ReadLedger(d.sidecar)
           case None => WithBaseline(session, path, Digest(ms), 0, false)
           case Some(m) => WithBaseline(session, path, Digest(ms), m.revision, true))
    case _ => None
  }

  // ---------------------------------------------------------------- the decision

  datatype ConflictKind = StalePrefix | Diverged

  datatype Verdict =
    | Accept(revision: nat, upToDate: bool, appendFrom: Option<nat>, repairLog: bool, ledgerStale: bool)
    | Reject(kind: ConflictKind)
    | Undecided

  predicate AppendShaped(next: Transcript, view: Transcript) {
    next == view || view <= next || CompatiblePrefix(next, view)
  }

  predicate StaleShaped(next: Transcript, view: Transcript) {
    next <= view || CompatiblePrefix(view, next)
  }

  /** The view of the disk an append is judged on: the normalized one if the snapshot
      extends it, else the stored one, which leaves no repair pending. */
  function JudgedView(c: Codec, raw: Transcript, next: Transcript): Option<(Transcript, bool)> {
    if AppendShaped(next, Normal(c, raw)) then Some((Normal(c, raw), Dirty(c, raw)))
    else if Dirty(c, raw) && raw != [] && AppendShaped(next, raw) then Some((raw, false))
    else None
  }

  /** The compare-and-swap check of an append: a known baseline revision that differs
      from the ledger, for content the disk does not hold already. */
  predicate Armed(base: Option<Baseline>, revision: nat, next: Transcript, view: Transcript) {
    base.Some? && base.value.revisionKnown && revision != base.value.revision && next != view
  }

  predicate OwnsView(base: Option<Baseline>, view: Transcript, ledger: Meta, nextVersion: nat) {
    base.Some? && base.value.version <= nextVersion && base.value.digest == Digest(view)
    && (!base.value.revisionKnown || ledger.revision == 0 || base.value.revision == ledger.revision
       || ledger.digest == Some(Digest(view)))
  }

  predicate Owns(c: Codec, base: Option<Baseline>, raw: Transcript, ledger: Meta, nextVersion: nat) {
    OwnsView(base, Normal(c, raw), ledger, nextVersion)
    || (Dirty(c, raw) && raw != [] && OwnsView(base, raw, ledger, nextVersion))
  }

  function JudgeAppend(base: Option<Baseline>, ledger: Meta, damaged: bool, next: Transcript, view: Transcript,
          pending: bool): (v: Verdict)
    ensures v.Accept? ==> v.revision == ledger.revision && (v.appendFrom.Some? ==> v.appendFrom.value < |next|)
  {
    if Armed(base, ledger.revision, next, view) && !CoversBaseline(next, view, base.value.digest)
    then Reject(if StaleShaped(next, view) then StalePrefix else Diverged)
    else
      var upToDate := next == view && !pending && !damaged;
      Accept(ledger.revision, upToDate,
             if view <= next && |view| < |next| && !damaged && !pending then Some(|view|) else None,
             damaged,
             upToDate && ledger.digest.Some? && ledger.digest != Some(Digest(next)))
  }

  function Judge(c: Codec, base: Option<Baseline>, ledger: Meta, raw: Transcript, damaged: bool, next: Transcript,
          nextVersion: nat, allowRewrite: bool): (v: Verdict)
    ensures v.Accept? ==> v.revision == ledger.revision && (v.appendFrom.Some? ==> v.appendFrom.value < |next|)
  {
    match JudgedView(c, raw, next)
    case Some(judged) => JudgeAppend(base, ledger, damaged, next, judged.0, judged.1)
    case None =>
      if allowRewrite && Owns(c, base, raw, ledger, nextVersion)
        then Accept(ledger.revision, false, None, damaged, false)
      else if StaleShaped(next, Normal(c, raw)) || (Dirty(c, raw) && raw != [] && StaleShaped(next, raw))
        then Reject(StalePrefix)
      else Reject(Diverged)
  }

  function Decide(c: Codec, d: Disk, base: Option<Baseline>, next: Transcript, nextVersion: nat,
          allowRewrite: bool): (v: Verdict)
    ensures v.Accept? && v.appendFrom.Some? ==> v.appendFrom.value < |next|
    ensures v.Accept? && v.upToDate ==>
            ReadLedger(d.sidecar).Some? && v.revision == ReadLedger(d.sidecar).value.revision
  {
    match LoadRaw(d)
    case NotFound => Accept(0, false, None, false, false)
    case LoadFailed => Undecided
    case Loaded(raw, damaged) =>
      match ReadLedger(d.sidecar)
      case None => Undecided
      case Some(ledger) => Judge(c, base, ledger, raw, damaged, next, nextVersion, allowRewrite)
  }

  // ---------------------------------------------------------------- writing

  /** Where a save is cut: how many disk mutations still succeed, how many bytes of a
      failing append reach the log, and whether the best-effort index write lands. */
  datatype Faults = Faults(budget: nat, torn: nat, indexOk: bool)

  datatype Io = Io(disk: Disk, left: nat, ok: bool)

  function Commit(io: Io, d: Disk): Io {
    if !io.ok || io.left == 0 then io.(ok := false) else Io(d, io.left - 1, true)
  }

  function AppendStep(c: Codec, io: Io, r: Record, torn: nat): Io {
    if io.ok && io.left == 0 then Io(io.disk.(log := LogFile(io.disk.log.records, io.disk.log.torn + torn)), 0, false)
    else Commit(io, io.disk.(log := Appended(c, io.disk.log, r)))
  }

  function CompactStep(io: Io, t: Transcript): Io {
    Commit(io, io.disk.(log := LogFile([Replace(t)], 0)))
  }

  function AnchorStep(io: Io, t: Transcript): Io {
    Commit(io, io.disk.(anchor := Some(t)))
  }

  /** The truncation takes the newline of the last record with it, also off a whole log,
      and a second write puts it back. */
  function RepairStep(c: Codec, io: Io): Io {
    match RepairedLog(c, io.disk.log, io.disk.index)
    case None => io.(ok := false)
    case Some(log) =>
      if TakenAsWhole(c, io.disk.log, io.disk.index) then io
      else
        var truncated := Commit(io, io.disk.(log := log));
        if log.records == [] then truncated else Commit(truncated, truncated.disk)
  }

  datatype Status = Saved | Conflict(kind: ConflictKind) | Failed

  datatype Outcome = Outcome(disk: Disk, session: SessionState, status: Status)

  datatype Mode = Force | Snapshot | Rewrite

  function IndexOf(c: Codec, d: Disk): Option<nat> {
    if d.log == EMPTY_LOG then None else Some(LogBytes(c, d.log))
  }

  /** A save reported done leaves the session anchored on the ledger as it now stands;
      any other leaves it alone. */
  predicate Anchored(o: Outcome, s: SessionState, path: string) {
    if o.status.Saved?
      then ReadLedger(o.disk.sidecar).Some? && o.session == Marked(s, path, ReadLedger(o.disk.sidecar).value.revision)
    else o.session == s
  }

  /** A save either keeps the ledger or moves it strictly forward, onto its snapshot. */
  predicate LedgerMoves(before: Sidecar, after: Sidecar, next: Transcript) {
    || after == before
    || (&& ReadLedger(before).Some? && after.Present?
        && ReadLedger(before).value.revision < after.meta.revision
        && after.meta.digest == Some(Digest(next)) && after.meta.listing == ReadLedger(before).value.listing)
  }

  /** recordSessionContentRevision with its read-back, the event index and the new
      in-memory baseline. */
  function RecordStep(c: Codec, io: Io, s: SessionState, path: string, native: bool, base: nat,
          indexOk: bool): (o: Outcome)
    ensures Anchored(o, s, path) && LedgerMoves(io.disk.sidecar, o.disk.sidecar, s.messages)
    ensures o.disk.log == io.disk.log && o.disk.anchor == io.disk.anchor
    ensures o.status.Saved? ==>
            io.ok && o.disk.sidecar.Present? && o.disk.sidecar.meta.digest == Some(Digest(s.messages))
    ensures !o.status.Conflict?
  {
    if !io.ok then Outcome(io.disk, s, Failed)
    else match ReadLedger(io.disk.sidecar)
      case None => Outcome(io.disk, s, Failed)
      case Some(m) =>
        var rec := ContentRecord(m, Digest(s.messages), base);
        var written := Commit(io, io.disk.(sidecar := SavedMeta(io.disk.sidecar, rec)));
        if !written.ok || written.left == 0 then Outcome(written.disk, s, Failed)
        else
          var d := if native && indexOk then written.disk.(index := IndexOf(c, written.disk)) else written.disk;
          Outcome(d, Marked(s, path, rec.revision), Saved)
  }

  /** The log writes of an append-only save. */
  function AppendWrites(c: Codec, io: Io, next: Transcript, from: nat, torn: nat): (o: Io)
    requires from <= |next|
    ensures o.disk.sidecar == io.disk.sidecar && (o.ok ==> io.ok)
  {
    var size := LogBytes(c, io.disk.log);
    if size == 0 then AppendStep(c, io, Replace(next), torn)
    else if Oversized(c, size, next) then AnchorStep(CompactStep(io, next), next)
    else AppendStep(c, io, Append(from, next[from..]), torn)
  }

  /** The log writes of a full rewrite; a foreign log is left alone. */
  function RewriteWrites(c: Codec, io: Io, next: Transcript, native: bool, force: bool, repairLog: bool,
          torn: nat): (o: Io)
    ensures o.disk.sidecar == io.disk.sidecar && (o.ok ==> io.ok)
  {
    var size := LogBytes(c, io.disk.log);
    if !native then io
    else if force then (if size > 0 then CompactStep(io, next) else io)
    else if repairLog || Oversized(c, size, next) then CompactStep(io, next)
    else AppendStep(c, io, Replace(next), torn)
  }

  function AppendPath(c: Codec, io: Io, s: SessionState, path: string, from: nat, base: nat, f: Faults): (o: Outcome)
    requires from <= |s.messages|
    ensures Anchored(o, s, path) && LedgerMoves(io.disk.sidecar, o.disk.sidecar, s.messages) && !o.status.Conflict?
    ensures o.status.Saved? ==> o.disk.sidecar.Present? && o.disk.sidecar.meta.digest == Some(Digest(s.messages))
  {
    RecordStep(c, AppendWrites(c, io, s.messages, from, f.torn), s, path, true, base, f.indexOk)
  }

  /** Log first, anchor second: a cut between the two leaves the newer log in charge. */
  function RewritePath(c: Codec, io: Io, s: SessionState, path: string, native: bool, force: bool, repairLog: bool,
          base: nat, f: Faults): (o: Outcome)
    ensures Anchored(o, s, path) && LedgerMoves(io.disk.sidecar, o.disk.sidecar, s.messages) && !o.status.Conflict?
    ensures o.status.Saved? ==> o.disk.sidecar.Present? && o.disk.sidecar.meta.digest == Some(Digest(s.messages))
  {
    var logged := RewriteWrites(c, io, s.messages, native, force, repairLog, f.torn);
    RecordStep(c, AnchorStep(logged, s.messages), s, path, native, base, f.indexOk)
  }

  function Carry(c: Codec, io: Io, s: SessionState, path: string, native: bool, v: Verdict, f: Faults): (o: Outcome)
    requires v.Accept? && v.appendFrom.Some? ==> v.appendFrom.value <= |s.messages|
    requires v.Accept? && v.upToDate ==>
             ReadLedger(io.disk.sidecar).Some? && v.revision == ReadLedger(io.disk.sidecar).value.revision
    ensures Anchored(o, s, path) && LedgerMoves(io.disk.sidecar, o.disk.sidecar, s.messages)
    ensures o.status.Conflict? <==> v.Reject?
    ensures o.status.Saved? ==> v.Accept?
    ensures o.status.Saved? && !(v.upToDate && !v.ledgerStale) ==>
            o.disk.sidecar.Present? && o.disk.sidecar.meta.digest == Some(Digest(s.messages))
  {
    match v
    case Undecided => Outcome(io.disk, s, Failed)
    case Reject(kind) => Outcome(io.disk, s, Conflict(kind))
    case Accept(revision, upToDate, appendFrom, repairLog, ledgerStale) =>
      if upToDate then
        if ledgerStale then RecordStep(c, io, s, path, native, revision, f.indexOk)
        else Outcome(io.disk, Marked(s, path, revision), Saved)
      else if appendFrom.Some? && native then AppendPath(c, io, s, path, appendFrom.value, revision, f)
      else RewritePath(c, io, s, path, native, false, repairLog, revision, f)
  }

  function Prepared(c: Codec, d: Disk, f: Faults): (io: Io)
    ensures io.disk.sidecar == d.sidecar && io.disk.anchor == d.anchor
  {
    if ProbeLog(d.log).Owned? && LogBytes(c, d.log) > 0 then RepairStep(c, Io(d, f.budget, true))
    else Io(d, f.budget, true)
  }

  /** The save once the log is repaired. */
  function SavePrepared(c: Codec, io: Io, s: SessionState, path: string, mode: Mode, f: Faults): (o: Outcome)
    ensures Anchored(o, s, path) && LedgerMoves(io.disk.sidecar, o.disk.sidecar, s.messages)
  {
    var native := ProbeLog(io.disk.log).Owned?;
    if !io.ok then Outcome(io.disk, s, Failed)
    else if mode.Force? then
      match ReadLedger(io.disk.sidecar)
      case None => Outcome(io.disk, s, Failed)
      case Some(m) => RewritePath(c, io, s, path, native, true, false, m.revision, f)
    else Carry(c, io, s, path, native, Decide(c, io.disk, BaselineAt(s, path), s.messages, s.version, mode.Rewrite?), f)
  }

  function Save(c: Codec, d: Disk, s: SessionState, path: string, mode: Mode, f: Faults): (o: Outcome)
    ensures Anchored(o, s, path) && LedgerMoves(d.sidecar, o.disk.sidecar, s.messages)
  {
    if ProbeLog(d.log).Future? then Outcome(d, s, Failed)
    else SavePrepared(c, Prepared(c, d, f), s, path, mode, f)
  }
}
