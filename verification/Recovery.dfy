/** Forking a recovery branch out of a save conflict: when it is needed, what it
    preserves, and how deep forks may nest (SaveRecoveryBranch in
    internal/agent/save.go). */
module Recovery {
  import opened Transcripts
  import opened EventLogs
  import opened SessionStore
  import opened SessionSave
  import opened SaveTheorems

  const RECOVERY_MAX_DEPTH: nat := 3

  /** Recovered and RecoveryDepth of a branch meta; depth 0 is a record that predates
      the field. */
  datatype Lineage = Lineage(recovered: bool, depth: nat)

  function ForkDepth(parent: Lineage): nat {
    if !parent.recovered then 0 else if parent.depth == 0 then 1 else parent.depth
  }

  function UserTurns(t: Transcript): nat {
    if t == [] then 0 else UserTurns(t[..|t| - 1]) + if t[|t| - 1].role.User? then 1 else 0
  }

  predicate Covers(view: Transcript, msgs: Transcript) {
    view == msgs || msgs <= view || CompatiblePrefix(view, msgs)
  }

  /** The original already holds the snapshot, as a load shows it or as stored. */
  predicate CoveredBy(c: Codec, original: Disk, msgs: Transcript) {
    && LoadRaw(original).Loaded?
    && var raw := LoadRaw(original).raw;
    Covers(Normal(c, raw), msgs) || (Dirty(c, raw) && raw != [] && Covers(raw, msgs))
  }

  datatype Fork = NotNeeded | TooDeep | Failed | Forked(existing: bool, lineage: Lineage)

  function StampedMeta(carried: Meta, msgs: Transcript): Meta {
    carried.(revision := if carried.revision == 0 then 1 else carried.revision,
             digest := if carried.digest.None? then Some(Digest(msgs)) else carried.digest)
  }

  function ForkWrites(c: Codec, io: Io, msgs: Transcript, torn: nat): Io {
    var logged := if ProbeLog(io.disk.log).Owned? then AppendStep(c, io, Record.Replace(msgs), torn) else io;
    AnchorStep(logged, msgs)
  }

  /** The meta is written and read back. */
  function MetaStep(io: Io, m: Meta): (o: Io)
    ensures o.disk.log == io.disk.log && o.disk.anchor == io.disk.anchor && (o.ok ==> io.ok && o.disk.sidecar.Present?)
  {
    var written := Commit(io, io.disk.(sidecar := SavedMeta(io.disk.sidecar, m)));
    if written.left == 0 then written.(ok := false) else written
  }

  datatype ForkOutcome = ForkOutcome(branch: Disk, session: SessionState, fork: Fork)

  /** SaveRecoveryBranch: original and branch are the files at the two paths. */
  function SaveRecoveryBranch(c: Codec, original: Disk, parent: Lineage, branch: Disk, branchPath: string,
          s: SessionState, carried: Meta, f: Faults): ForkOutcome
  {
    var msgs := s.messages;
    if UserTurns(msgs) == 0 then ForkOutcome(branch, s, NotNeeded)
    else if LoadRaw(original).LoadFailed? then ForkOutcome(branch, s, Fork.Failed)
    else if CoveredBy(c, original, msgs) then ForkOutcome(branch, s, NotNeeded)
    else if ForkDepth(parent) >= RECOVERY_MAX_DEPTH then ForkOutcome(branch, s, TooDeep)
    else if LoadRaw(branch).LoadFailed? then ForkOutcome(branch, s, Fork.Failed)
    else ForkTo(c, branch, branchPath, s, carried, ForkDepth(parent) + 1, f)
  }

  /** The write of a fork that was found needed and allowed. */
  function ForkTo(c: Codec, branch: Disk, branchPath: string, s: SessionState, carried: Meta, depth: nat,
          f: Faults): (o: ForkOutcome)
    ensures if o.fork.Forked?
            then o.branch.sidecar.Present? && o.session == Marked(s, branchPath, o.branch.sidecar.meta.revision)
            && o.fork.lineage == Lineage(true, depth)
            else o.session == s
  {
    var msgs := s.messages;
    var existing := LoadRaw(branch).Loaded? && Normal(c, LoadRaw(branch).raw) == msgs;
    var io := Io(branch, f.budget, true);
    var done := MetaStep(if existing then io else ForkWrites(c, io, msgs, f.torn), StampedMeta(carried, msgs));
    if !done.ok then ForkOutcome(done.disk, s, Fork.Failed)
    else
      var d := if !existing && f.indexOk then done.disk.(index := IndexOf(c, done.disk)) else done.disk;
      ForkOutcome(d, Marked(s, branchPath, d.sidecar.meta.revision), Forked(existing, Lineage(true, depth)))
  }

  method CountUserTurns(t: Transcript) returns (turns: nat)
    ensures turns == UserTurns(t)
  {
    turns := 0;
    for i := 0 to |t|
      invariant turns == UserTurns(t[..i])
    {
      assert t[..i + 1][..i] == t[..i];
      if t[i].role.User? {
        turns := turns + 1;
      }
    }
    assert t[..|t|] == t;
  }

  method JudgeCoverage(view: Transcript, msgs: Transcript) returns (covered: bool)
    ensures covered <==> Covers(view, msgs)
  {
    covered := view == msgs;
    if !covered {
      covered := MessagesHavePrefix(view, msgs);
    }
    if !covered {
      covered := MessagesHavePrefixWithCompatibleSystem(view, msgs);
    }
  }

  /** SaveRecoveryBranch on the files at the original and at the recovery path. */
  method ForkRecoveryBranch(c: Codec, s: Session, original: SessionFiles, parent: Lineage, branch: SessionFiles,
          carried: Meta, torn: nat, indexOk: bool)
    returns (fork: Fork)
    requires original != branch
    modifies s, branch
    ensures ForkOutcome(branch.View(), s.State(), fork)
            == SaveRecoveryBranch(c, original.View(), parent, old(branch.View()), branch.path, old(s.State()),
                carried, Faults(old(branch.left), torn, indexOk))
  {
    var msgs := s.messages;
    var turns := CountUserTurns(msgs);
    if turns == 0 {
      return NotNeeded;
    }
    var current, load := LoadSession(c, original);
    if load.LoadFailed? {
      return Fork.Failed;
    }
    if load.Loaded? {
      var covered := JudgeCoverage(current.messages, msgs);
      if !covered && current.normalizedDirty && |current.rawMessages| > 0 {
        covered := JudgeCoverage(current.rawMessages, msgs);
      }
      if covered {
        return NotNeeded;
      }
    }
    if ForkDepth(parent) >= RECOVERY_MAX_DEPTH {
      return TooDeep;
    }
    var found;
    current, found := LoadSession(c, branch);
    if found.LoadFailed? {
      return Fork.Failed;
    }
    var existing := found.Loaded? && current.messages == msgs;
    fork := WriteFork(c, s, branch, existing, ForkDepth(parent) + 1, carried, torn, indexOk);
  }

  /** Log first, anchor second, then the meta with the new depth. */
  method WriteFork(c: Codec, s: Session, branch: SessionFiles, existing: bool, depth: nat, carried: Meta, torn: nat,
          indexOk: bool)
    returns (fork: Fork)
    requires existing <==> LoadRaw(branch.View()).Loaded? && Normal(c, LoadRaw(branch.View()).raw) == s.messages
    modifies s, branch
    ensures ForkOutcome(branch.View(), s.State(), fork)
            == ForkTo(c, old(branch.View()), branch.path, old(s.State()), carried, depth,
                Faults(old(branch.left), torn, indexOk))
  {
    var ok := true;
    if !existing {
      if ProbeLog(branch.log).Owned? {
        ok := branch.AppendSessionEvent(c, Record.Replace(s.messages), torn);
      }
      if ok {
        ok := branch.WriteSessionMessages(s.messages);
      }
    }
    if ok {
      ok := branch.SaveBranchMeta(StampedMeta(carried, s.messages));
      ok := ok && branch.left > 0;
    }
    if !ok {
      return Fork.Failed;
    }
    if !existing && indexOk {
      branch.WriteSessionEventIndex(c);
    }
    s.SetPersistedBaseline(branch.path, Digest(s.messages), s.version, branch.sidecar.meta.revision, true,
        s.rewriteVersion);
    fork := Forked(existing, Lineage(true, depth));
  }

  lemma {:induction false} UserTurnCounted(t: Transcript)
    ensures UserTurns(t) > 0 <==> exists k :: 0 <= k < |t| && t[k].role.User?
  {
    if t != [] {
      var init := t[..|t| - 1];
      UserTurnCounted(init);
      if k :| 0 <= k < |t| && t[k].role.User? {
        assert k == |init| || init[k] == t[k];
      }
      if k :| 0 <= k < |init| && init[k].role.User? {
        assert t[k].role.User?;
      }
    }
  }

  /** The original shows the messages, as a load normalizes it or, if that is not empty, as
      stored, up to a leading system message. */
  predicate Shows(c: Codec, original: Disk, msgs: Transcript) {
    && StoredIn(original).Holds?
    && var raw := StoredIn(original).transcript;
       CompatiblePrefix(Normal(c, raw), msgs) || (raw != [] && CompatiblePrefix(raw, msgs))
  }

  lemma {:induction false} CoversExactly(view: Transcript, msgs: Transcript)
    ensures Covers(view, msgs) <==> CompatiblePrefix(view, msgs)
  {
    if msgs <= view {
      PrefixIsCompatible(view, msgs);
    }
  }

  lemma {:induction false} CoveredByExactly(c: Codec, original: Disk, msgs: Transcript)
    ensures CoveredBy(c, original, msgs) <==> Shows(c, original, msgs)
  {
    if LoadRaw(original).Loaded? {
      CoversExactly(LoadRaw(original).raw, msgs);
      CoversExactly(Normal(c, LoadRaw(original).raw), msgs);
    }
  }

  /** A fork is reported unneeded exactly when the snapshot has no user turn, or a load of
      the original shows it. */
  lemma {:induction false} NotNeededExactly(c: Codec, original: Disk, parent: Lineage, branch: Disk, path: string,
          s: SessionState, carried: Meta, f: Faults)
    ensures SaveRecoveryBranch(c, original, parent, branch, path, s, carried, f).fork.NotNeeded? <==>
              (forall k :: 0 <= k < |s.messages| ==> !s.messages[k].role.User?) || Shows(c, original, s.messages)
  {
    UserTurnCounted(s.messages);
    CoveredByExactly(c, original, s.messages);
  }

  /** The recovery file's own log replays something and then breaks off. */
  predicate BreaksOff(branch: Disk) {
    ProbeLog(branch.log).Owned? && branch.log != EMPTY_LOG && LoadRaw(branch).Loaded? && LoadRaw(branch).damaged
    && ReplayOf(branch.log).applied > 0
  }

  lemma {:induction false} ForkWritesStore(c: Codec, branch: Disk, msgs: Transcript, left: nat, torn: nat)
    requires !LoadRaw(branch).LoadFailed?
    ensures var io := ForkWrites(c, Io(branch, left, true), msgs, torn);
            io.ok ==> StoredIn(io.disk) == if BreaksOff(branch) then StoredIn(branch) else Holds(msgs)
  {
    if ProbeLog(branch.log).Owned? && left > 0 {
      var anchored := branch.(anchor := Some(msgs));
      PlaySnoc(branch.log.records, Record.Replace(msgs));
      if branch.log == EMPTY_LOG || !Play(branch.log.records).Stopped? {
        if branch.log.torn == 0 {
          LoadAfterReplace(c, anchored, msgs);
        }
      } else if Play(branch.log.records).applied == 0 {
        LoadBehindBrokenHead(c, anchored, Record.Replace(msgs));
      }
    }
  }

  /** What a fork reported done preserves. An existing branch loads as the snapshot
      already. A new one stores exactly the snapshot, unless the file found at the
      recovery path has a log that replays something and then breaks off: the snapshot
      is written behind the break and what is stored stays, whatever it was. */
  lemma {:induction false} ForkPreservesExactly(c: Codec, branch: Disk, path: string, s: SessionState, carried: Meta,
          depth: nat, f: Faults)
    requires !LoadRaw(branch).LoadFailed?
    ensures var o := ForkTo(c, branch, path, s, carried, depth, f);
            o.fork.Forked? ==>
              if o.fork.existing then
                StoredIn(o.branch).Holds? && Normal(c, StoredIn(o.branch).transcript) == s.messages
              else
                StoredIn(o.branch) == Holds(s.messages) <==> !BreaksOff(branch) || StoredIn(branch) == Holds(s.messages)
  {
    var io := Io(branch, f.budget, true);
    var written := ForkWrites(c, io, s.messages, f.torn);
    var o := ForkTo(c, branch, path, s, carried, depth, f);
    if LoadRaw(branch).Loaded? && Normal(c, LoadRaw(branch).raw) == s.messages {
      SameFilesSameStored(branch, o.branch);
    } else {
      ForkWritesStore(c, branch, s.messages, f.budget, f.torn);
      SameFilesSameStored(written.disk, o.branch);
    }
  }

  /** Such a branch: a file saved once, and what a failing append left behind its record. */
  function TornBranch(kept: Transcript, torn: nat, meta: Meta, index: Option<nat>): Disk {
    Disk(LogFile([Record.Replace(kept)], torn), Some(kept), Present(meta), index)
  }

  lemma {:induction false} TornBranchBreaksOff(kept: Transcript, torn: nat, meta: Meta, index: Option<nat>)
    requires torn > 0
    ensures var branch := TornBranch(kept, torn, meta, index);
            BreaksOff(branch) && StoredIn(branch) == Holds(kept)
  {
    PlaySnoc([], Record.Replace(kept));
    assert [] + [Record.Replace(kept)] == [Record.Replace(kept)];
  }

  /** There a fork is reported done and the snapshot is nowhere to be read. */
  lemma {:induction false} ForkBehindBreakIsLost(c: Codec, original: Disk, kept: Transcript, torn: nat, meta: Meta,
          index: Option<nat>, path: string, s: SessionState, carried: Meta)
    requires !LoadRaw(original).LoadFailed? && !CoveredBy(c, original, s.messages) && UserTurns(s.messages) > 0
    requires torn > 0 && c.normalize(kept).None? && kept != s.messages
    ensures var branch := TornBranch(kept, torn, meta, index);
            var o := SaveRecoveryBranch(c, original, Lineage(false, 0), branch, path, s, carried, Faults(4, 0, true));
            o.fork == Forked(false, Lineage(true, 1)) && StoredIn(o.branch) == Holds(kept)
  {
    var branch, f := TornBranch(kept, torn, meta, index), Faults(4, 0, true);
    TornBranchBreaksOff(kept, torn, meta, index);
    ForkWritesStore(c, branch, s.messages, 4, 0);
    SameFilesSameStored(ForkWrites(c, Io(branch, 4, true), s.messages, 0).disk,
        ForkTo(c, branch, path, s, carried, 1, f).branch);
  }

  lemma {:induction false} FreshWritesStore(c: Codec, branch: Disk, msgs: Transcript, left: nat, torn: nat)
    requires branch.log == EMPTY_LOG && branch.anchor.None?
    ensures var io := ForkWrites(c, Io(branch, left, true), msgs, torn);
            StoredIn(io.disk) in {Nothing, Holds(msgs)} && (io.ok ==> StoredIn(io.disk) == Holds(msgs))
  {
    ForkWritesStore(c, branch, msgs, left, torn);
    LoadAfterReplace(c, branch, msgs);
    LoadAfterTorn(branch, torn);
  }

  lemma {:induction false} FreshForkStores(c: Codec, branch: Disk, path: string, s: SessionState, carried: Meta,
          depth: nat, f: Faults)
    requires branch.log == EMPTY_LOG && branch.anchor.None?
    ensures var o := ForkTo(c, branch, path, s, carried, depth, f);
            StoredIn(o.branch) in {Nothing, Holds(s.messages)}
            && (o.fork.Forked? ==> StoredIn(o.branch) == Holds(s.messages))
  {
    var written := ForkWrites(c, Io(branch, f.budget, true), s.messages, f.torn);
    FreshWritesStore(c, branch, s.messages, f.budget, f.torn);
    SameFilesSameStored(written.disk, ForkTo(c, branch, path, s, carried, depth, f).branch);
  }

  /** On a fresh recovery path the conflict flow loses nothing: the snapshot ends up
      covered by the original or stored whole in the branch, or the caller is told of a
      failure or of the depth cap; and a cut fork leaves nothing or the whole snapshot. */
  lemma {:induction false} RecoveryLosesNothing(c: Codec, original: Disk, parent: Lineage, branch: Disk, path: string,
          s: SessionState, carried: Meta, f: Faults)
    requires branch.log == EMPTY_LOG && branch.anchor.None?
    ensures var o := SaveRecoveryBranch(c, original, parent, branch, path, s, carried, f);
            && (o.fork.Forked? ==>
               StoredIn(o.branch) == Holds(s.messages) && 0 < o.fork.lineage.depth <= 3)
            && (o.fork.TooDeep? <==>
                && (exists k :: 0 <= k < |s.messages| && s.messages[k].role.User?)
                && !StoredIn(original).Unloadable? && !Shows(c, original, s.messages)
                && parent.recovered && parent.depth >= 3)
            && StoredIn(o.branch) in {Nothing, Holds(s.messages)}
  {
    UserTurnCounted(s.messages);
    CoveredByExactly(c, original, s.messages);
    FreshForkStores(c, branch, path, s, carried, ForkDepth(parent) + 1, f);
  }

  /** On a fresh path with four writes left, a snapshot is forked exactly when it has a
      user turn, the original loads and does not show it, and the parent is not at the
      depth cap; the fork is one deeper than its parent, where a recovered parent that
      records no depth counts as the first. */
  lemma {:induction false} ForksExactly(c: Codec, original: Disk, parent: Lineage, branch: Disk, path: string,
          s: SessionState, carried: Meta, f: Faults)
    requires branch.log == EMPTY_LOG && branch.anchor.None? && f.budget >= 4
    ensures SaveRecoveryBranch(c, original, parent, branch, path, s, carried, f).fork.Forked? <==>
              && (exists k :: 0 <= k < |s.messages| && s.messages[k].role.User?)
              && !StoredIn(original).Unloadable? && !Shows(c, original, s.messages)
              && !(parent.recovered && parent.depth >= 3)
    ensures var fork := SaveRecoveryBranch(c, original, parent, branch, path, s, carried, f).fork;
            fork.Forked? ==>
              && !fork.existing && fork.lineage.recovered
              && fork.lineage.depth == (if !parent.recovered then 1 else if parent.depth == 0 then 2
                                        else parent.depth + 1)
  {
    UserTurnCounted(s.messages);
    CoveredByExactly(c, original, s.messages);
    var written := ForkWrites(c, Io(branch, f.budget, true), s.messages, f.torn);
    assert written.ok && written.left >= 2;
  }

  /** What a fork reported done records on a fresh path: the carried listing under the
      carried revision, at least 1, and the carried digest or that of the snapshot; and the
      session goes on from there. */
  lemma {:induction false} ForkIsRecorded(c: Codec, branch: Disk, path: string, s: SessionState, carried: Meta,
          depth: nat, f: Faults)
    requires branch == Disk(EMPTY_LOG, None, Absent, None)
    ensures var o := ForkTo(c, branch, path, s, carried, depth, f);
            o.fork.Forked? ==>
              && o.branch.anchor == Some(s.messages) && o.branch.log == LogFile([Record.Replace(s.messages)], 0)
              && o.branch.sidecar.Present?
              && var meta := o.branch.sidecar.meta;
                 && meta.listing == carried.listing
                 && meta.revision == (if carried.revision < 1 then 1 else carried.revision)
                 && meta.digest == (if carried.digest.Some? then carried.digest else Some(Digest(s.messages)))
                 && BaselineAt(o.session, path) == Some(Baseline(path, Digest(s.messages), s.version, meta.revision,
                                                                 true))
  {
    assert [] + [Record.Replace(s.messages)] == [Record.Replace(s.messages)];
  }

  /** Reporting a fork done takes four writes on a fresh path: log, checkpoint, meta, and the
      reading back of that. */
  lemma {:induction false} ForkTakesFourWrites(c: Codec, branch: Disk, path: string, s: SessionState, carried: Meta,
          depth: nat, f: Faults)
    requires branch.log == EMPTY_LOG && branch.anchor.None?
    ensures ForkTo(c, branch, path, s, carried, depth, f).fork.Forked? <==> f.budget >= 4
  {
    assert LoadRaw(branch).NotFound?;
  }

  /** One attempt to fork from the branch reached so far. */
  datatype Attempt = Attempt(original: Disk, branch: Disk, path: string, session: SessionState, carried: Meta,
          faults: Faults)

  function Nested(c: Codec, start: Lineage, attempts: seq<Attempt>): Option<Lineage> {
    if attempts == [] then Some(start)
    else
      match Nested(c, start, attempts[..|attempts| - 1])
      case None => None
      case Some(parent) =>
        var a := attempts[|attempts| - 1];
        var o := SaveRecoveryBranch(c, a.original, parent, a.branch, a.path, a.session, a.carried, a.faults);
        if o.fork.Forked? then Some(o.fork.lineage) else None
  }

  /** A chain of forks, each out of the one before, records its own length as depth and
      is never longer than the cap, whatever is on any disk. */
  lemma {:induction false} ForkChainsAreShort(c: Codec, attempts: seq<Attempt>)
    requires Nested(c, Lineage(false, 0), attempts).Some?
    ensures |attempts| <= 3
            && Nested(c, Lineage(false, 0), attempts) == Some(Lineage(attempts != [], |attempts|))
    decreases |attempts|
  {
    if attempts != [] {
      ForkChainsAreShort(c, attempts[..|attempts| - 1]);
    }
  }
}
