/** Several runtimes on one session file: every interleaving of their loads, edits and
    saves (each wherever it is cut) with listing-only sidecar writers that may save back
    stale copies, and with anything else that may befall the sidecar. */
module SessionRuns {
  import opened Transcripts
  import opened EventLogs
  import opened SessionStore
  import opened SaveTheorems
  import opened SaveConflicts

  const PATH: string := "session.jsonl"

  datatype World = World(disk: Disk, sessions: map<nat, SessionState>, held: set<Meta>)

  /** Start is NewSession; Edit is Add or Replace; Compact is Replace with
      IncrementRewrite; Clone is CloneWithMessages; Hold is a sidecar writer's read and
      Relist its later write of a held copy with other listing fields; Tamper is the ledger
      being reset, re-stamped or made unreadable behind everyone's back. */
  datatype Event =
    | Open(id: nat)
    | Start(id: nat, messages: Transcript)
    | Edit(id: nat, messages: Transcript)
    | Compact(id: nat, messages: Transcript)
    | Clone(id: nat, source: nat, messages: Transcript)
    | Store(id: nat, mode: Mode, faults: Faults)
    | Hold
    | Relist(copy: Meta, listing: string)
    | Tamper(sidecar: Sidecar)

  function Ledger(w: World): Meta {
    if ReadLedger(w.disk.sidecar).Some? then ReadLedger(w.disk.sidecar).value else Meta(0, None, "")
  }

  function Apply(c: Codec, w: World, e: Event): World {
    match e
    case Open(id) =>
      (match Opened(c, w.disk, PATH)
       case None => w
       case Some(s) => w.(sessions := w.sessions[id := s]))
    case Start(id, ms) => w.(sessions := w.sessions[id := SessionState(ms, 0, 0, 0, None)])
    case Edit(id, ms) =>
      if id !in w.sessions then w
      else var s := w.sessions[id]; w.(sessions := w.sessions[id := s.(messages := ms, version := s.version + 1)])
    case Compact(id, ms) =>
      if id !in w.sessions then w
      else
        var s := w.sessions[id];
        var compacted := s.(messages := ms, version := s.version + 2, rewriteVersion := s.rewriteVersion + 1);
        w.(sessions := w.sessions[id := compacted])
    case Clone(id, source, ms) =>
      if source !in w.sessions then w else w.(sessions := w.sessions[id := Cloned(w.sessions[source], ms)])
    case Store(id, mode, f) =>
      if id !in w.sessions then w
      else var o := Save(c, w.disk, w.sessions[id], PATH, mode, f); World(o.disk, w.sessions[id := o.session], w.held)
    case Hold =>
      // EnsureBranchMeta writes the sidecar it does not find
      if w.disk.sidecar.Unreadable? then w
      else w.(disk := w.disk.(sidecar := Present(Ledger(w))), held := w.held + {Ledger(w)})
    case Relist(copy, listing) =>
      if copy !in w.held then w
      else w.(disk := w.disk.(sidecar := SavedMeta(w.disk.sidecar, copy.(listing := listing))))
    case Tamper(sidecar) => w.(disk := w.disk.(sidecar := sidecar))
  }

  function Run(c: Codec, w: World, es: seq<Event>): World {
    if es == [] then w else Apply(c, Run(c, w, es[..|es| - 1]), es[|es| - 1])
  }

  lemma {:induction false} RunStep(c: Codec, w: World, es: seq<Event>, k: nat)
    requires k < |es|
    ensures Run(c, w, es[..k + 1]) == Apply(c, Run(c, w, es[..k]), es[k])
  {
    assert es[..k + 1][..k] == es[..k];
  }

  predicate StoreSucceeds(c: Codec, w: World, e: Event) {
    e.Store? && e.id in w.sessions && Save(c, w.disk, w.sessions[e.id], PATH, e.mode, e.faults).status.Saved?
  }

  // ---------------------------------------------------------------- the ledger over runs

  function KnownBaseline(s: SessionState): Option<Baseline> {
    var b := BaselineAt(s, PATH);
    if b.Some? && b.value.revisionKnown then b else None
  }

  /** No copy and no baseline is ahead of a readable ledger, and a copy of its revision
      carries its digest or none. */
  ghost predicate LedgerInv(w: World) {
    && !w.disk.sidecar.Unreadable?
    && (forall m :: m in w.held ==>
       m.revision <= Ledger(w).revision && (m.revision == Ledger(w).revision ==> m.digest in {None, Ledger(w).digest}))
    && (forall id :: id in w.sessions && KnownBaseline(w.sessions[id]).Some? ==>
       KnownBaseline(w.sessions[id]).value.revision <= Ledger(w).revision)
  }

  /** One event moves the ledger forward or leaves revision and digest alone. */
  predicate LedgerForward(before: Meta, after: Meta) {
    before.revision <= after.revision && (before.revision == after.revision ==> before.digest == after.digest)
  }

  ghost predicate Untampered(es: seq<Event>) {
    forall k :: 0 <= k < |es| ==> !es[k].Tamper?
  }

  lemma {:induction false} LedgerStep(c: Codec, w: World, e: Event)
    requires LedgerInv(w) && !e.Tamper?
    ensures LedgerInv(Apply(c, w, e)) && LedgerForward(Ledger(w), Ledger(Apply(c, w, e)))
  {
  }

  /** Ledger monotonicity, as long as nobody tampers: through any mix of saves, loads and stale listing writes the
      recorded revision never decreases, and a revision keeps its digest. */
  lemma {:induction false} LedgerNeverGoesBack(c: Codec, w: World, es: seq<Event>, k: nat)
    requires LedgerInv(w) && k <= |es| && Untampered(es)
    ensures LedgerInv(Run(c, w, es)) && LedgerForward(Ledger(Run(c, w, es[..k])), Ledger(Run(c, w, es)))
    decreases |es|
  {
    if k < |es| {
      var init := es[..|es| - 1];
      assert init[..k] == es[..k];
      LedgerNeverGoesBack(c, w, init, k);
      LedgerStep(c, Run(c, w, init), es[|es| - 1]);
    } else {
      assert es[..k] == es;
      if es != [] {
        LedgerNeverGoesBack(c, w, es[..k - 1], 0);
        LedgerStep(c, Run(c, w, es[..k - 1]), es[k - 1]);
      }
    }
  }

  // ---------------------------------------------------------------- no lost update

  function OwnAfter(c: Codec, w: World, e: Event, id: nat, before: Option<Transcript>): Option<Transcript> {
    match e
    case Open(i) => if i == id && LoadRaw(w.disk).Loaded? then Some(Normal(c, LoadRaw(w.disk).raw)) else before
    case Start(i, _) => if i == id then None else before
    case Store(i, mode, f) => if i == id && StoreSucceeds(c, w, e) then Some(w.sessions[id].messages) else before
    case _ => before
  }

  /** Whose history a runtime continues after an event. */
  function Ancestor(w: World, e: Event, id: nat): nat {
    if e.Clone? && e.id == id && e.source in w.sessions then e.source else id
  }

  /** The transcript a runtime, or the one it was cloned from, last loaded or last saved
      successfully, told by the run alone. */
  function Own(c: Codec, w: World, es: seq<Event>, id: nat): Option<Transcript> {
    if es == [] then None
    else
      var at, e := Run(c, w, es[..|es| - 1]), es[|es| - 1];
      OwnAfter(c, at, e, id, Own(c, w, es[..|es| - 1], Ancestor(at, e, id)))
  }

  predicate BaselineIs(s: SessionState, own: Option<Transcript>) {
    match s.persisted
    case None => own == None
    case Some(b) =>
      && b.path == PATH && own == Some(b.digest.of) && b.version <= s.version
      && (b.version == s.version ==> s.messages == b.digest.of)
  }

  lemma {:induction false} OwnStep(c: Codec, w: World, e: Event, id: nat, own: Option<Transcript>)
    requires Ancestor(w, e, id) in w.sessions ==> BaselineIs(w.sessions[Ancestor(w, e, id)], own)
    ensures id in Apply(c, w, e).sessions ==> BaselineIs(Apply(c, w, e).sessions[id], OwnAfter(c, w, e, id, own))
  {
  }

  lemma {:induction false} BaselineIsOwn(c: Codec, w: World, es: seq<Event>, id: nat)
    requires w.sessions == map[] && id in Run(c, w, es).sessions
    ensures BaselineIs(Run(c, w, es).sessions[id], Own(c, w, es, id))
    decreases |es|
  {
    var init, e := es[..|es| - 1], es[|es| - 1];
    var at := Run(c, w, init);
    var source := Ancestor(at, e, id);
    if source in at.sessions {
      BaselineIsOwn(c, w, init, source);
    }
    OwnStep(c, at, e, id, Own(c, w, init, source));
  }

  /** No lost update, over any run: a snapshot or rewrite save, wherever it is cut, that
      changes what is stored replaces it by its own snapshot, and the transcript it
      replaces is one the snapshot extends (up to a leading system message, as stored or
      normalized) or, for a rewrite, the very one this runtime last saved or loaded. */
  lemma {:induction false} NoLostUpdateInAnyRun(c: Codec, w: World, es: seq<Event>, k: nat)
    requires w.sessions == map[] && k < |es| && es[k].Store? && !es[k].mode.Force?
    ensures var before := Run(c, w, es[..k]);
            var after := Run(c, w, es[..k + 1]);
            StoredIn(after.disk) == StoredIn(before.disk)
            || (&& es[k].id in before.sessions && StoredIn(after.disk) == Holds(before.sessions[es[k].id].messages)
                && (|| StoredIn(before.disk).Nothing?
                    || (StoredIn(before.disk).Holds?
                       && Grows(c, StoredIn(before.disk).transcript, before.sessions[es[k].id].messages))
                    || (StoredIn(before.disk).Holds? && es[k].mode.Rewrite? && Own(c, w, es[..k], es[k].id).Some?
                        && IsStored(c, StoredIn(before.disk).transcript, Own(c, w, es[..k], es[k].id).value))))
  {
    RunStep(c, w, es, k);
    var before := Run(c, w, es[..k]);
    if es[k].id in before.sessions {
      NoLostUpdate(c, before.disk, before.sessions[es[k].id], PATH, es[k].mode, es[k].faults);
      BaselineIsOwn(c, w, es[..k], es[k].id);
    }
  }

  ghost predicate SnapshotsOnly(es: seq<Event>) {
    forall k :: 0 <= k < |es| && es[k].Store? ==> es[k].mode.Snapshot?
  }

  lemma {:induction false} StoredUnlessSaved(c: Codec, w: World, e: Event)
    requires !e.Store?
    ensures StoredIn(Apply(c, w, e).disk) == StoredIn(w.disk)
  {
  }

  lemma {:induction false} GrowsReflexive(c: Codec, t: Transcript)
    ensures Grows(c, t, t)
  {
    CompatiblePrefixReflexive(t);
  }

  lemma {:induction false} SnapshotStepGrows(c: Codec, w: World, e: Event)
    requires StoredIn(w.disk).Holds? && (e.Store? ==> e.mode.Snapshot?)
    ensures var after := StoredIn(Apply(c, w, e).disk);
            after.Holds? && Grows(c, StoredIn(w.disk).transcript, after.transcript)
  {
    GrowsReflexive(c, StoredIn(w.disk).transcript);
    if e.Store? && e.id in w.sessions {
      NoLostUpdate(c, w.disk, w.sessions[e.id], PATH, e.mode, e.faults);
    } else if !e.Store? {
      StoredUnlessSaved(c, w, e);
    }
  }

  /** What a reader gets before the run and after each of its events. */
  function History(c: Codec, w: World, es: seq<Event>): (h: seq<Stored>)
    ensures |h| == |es| + 1 && forall k :: 0 <= k <= |es| ==> h[k] == StoredIn(Run(c, w, es[..k]).disk)
  {
    seq(|es| + 1, k requires 0 <= k <= |es| => StoredIn(Run(c, w, es[..k]).disk))
  }

  ghost predicate AlwaysHolds(h: seq<Stored>) {
    forall k :: 0 <= k < |h| ==> h[k].Holds?
  }

  ghost predicate GrowthChain(c: Codec, h: seq<Stored>)
    requires AlwaysHolds(h)
  {
    forall k :: 0 < k < |h| ==> Grows(c, h[k - 1].transcript, h[k].transcript)
  }

  lemma {:induction false} SnapshotKeepsHolding(c: Codec, w: World, es: seq<Event>, k: nat)
    requires SnapshotsOnly(es) && StoredIn(w.disk).Holds? && k <= |es|
    ensures StoredIn(Run(c, w, es[..k]).disk).Holds?
    ensures k > 0 ==> StoredIn(Run(c, w, es[..k - 1]).disk).Holds?
                      && Grows(c, StoredIn(Run(c, w, es[..k - 1]).disk).transcript,
                         StoredIn(Run(c, w, es[..k]).disk).transcript)
    decreases k
  {
    if k == 0 {
      assert es[..0] == [];
    } else {
      SnapshotKeepsHolding(c, w, es, k - 1);
      RunStep(c, w, es, k - 1);
      SnapshotStepGrows(c, Run(c, w, es[..k - 1]), es[k - 1]);
    }
  }

  /** With snapshot saves only, by any number of runtimes and wherever each is cut, the
      stored transcript goes through snapshots that each extend the one before, up to a
      leading system message, as stored or as a load normalizes it. */
  lemma {:induction false} SnapshotsOnlyGrow(c: Codec, w: World, es: seq<Event>)
    requires SnapshotsOnly(es) && StoredIn(w.disk).Holds?
    ensures AlwaysHolds(History(c, w, es)) && GrowthChain(c, History(c, w, es))
  {
    var h := History(c, w, es);
    forall k | 0 <= k < |h| ensures h[k].Holds? {
      SnapshotKeepsHolding(c, w, es, k);
    }
    forall k | 0 < k < |h| ensures Grows(c, h[k - 1].transcript, h[k].transcript) {
      SnapshotKeepsHolding(c, w, es, k);
      assert h[k - 1] == StoredIn(Run(c, w, es[..k - 1]).disk);
    }
  }

  /** Normalization only ever adds to this transcript. */
  predicate KeepsLength(c: Codec, t: Transcript) {
    && |t| <= |Normal(c, t)|
    && |WithoutLeadingSystem(t)| <= |WithoutLeadingSystem(Normal(c, t))|
  }

  lemma {:induction false} GrowthNeverShortens(c: Codec, h: seq<Stored>, i: nat, j: nat)
    requires AlwaysHolds(h) && GrowthChain(c, h) && i <= j < |h|
    requires forall k :: 0 <= k < |h| ==> KeepsLength(c, h[k].transcript)
    ensures |WithoutLeadingSystem(h[i].transcript)| <= |WithoutLeadingSystem(h[j].transcript)|
    decreases j
  {
    if i < j {
      GrowthNeverShortens(c, h, i, j - 1);
      assert Grows(c, h[j - 1].transcript, h[j].transcript) && KeepsLength(c, h[j - 1].transcript);
    }
  }

  /** And as long as normalization only ever adds messages, it never gets shorter. */
  lemma {:induction false} SnapshotsNeverShorten(c: Codec, w: World, es: seq<Event>, i: nat, j: nat)
    requires SnapshotsOnly(es) && StoredIn(w.disk).Holds? && i <= j <= |es|
    requires forall k :: 0 <= k <= |es| && History(c, w, es)[k].Holds? ==>
             KeepsLength(c, History(c, w, es)[k].transcript)
    ensures var h := History(c, w, es);
            h[i].Holds? && h[j].Holds?
            && |WithoutLeadingSystem(h[i].transcript)| <= |WithoutLeadingSystem(h[j].transcript)|
  {
    SnapshotsOnlyGrow(c, w, es);
    GrowthNeverShortens(c, History(c, w, es), i, j);
  }

  lemma {:induction false} QuietGrowthExtends(c: Codec, h: seq<Stored>, j: nat)
    requires AlwaysHolds(h) && GrowthChain(c, h) && j < |h|
    requires forall k :: 0 <= k < |h| ==> c.normalize(h[k].transcript).None?
    ensures CompatiblePrefix(h[j].transcript, h[0].transcript)
  {
    if j == 0 {
      CompatiblePrefixReflexive(h[0].transcript);
    } else {
      QuietGrowthExtends(c, h, j - 1);
      assert Grows(c, h[j - 1].transcript, h[j].transcript) && c.normalize(h[j - 1].transcript).None?;
      CompatiblePrefixTransitive(h[j].transcript, h[j - 1].transcript, h[0].transcript);
    }
  }

  /** And as long as normalization leaves it alone, it extends its start, up to a leading
      system message. */
  lemma {:induction false} QuietSnapshotsExtend(c: Codec, w: World, es: seq<Event>, j: nat)
    requires SnapshotsOnly(es) && StoredIn(w.disk).Holds? && j <= |es|
    requires forall k :: 0 <= k <= |es| && History(c, w, es)[k].Holds? ==>
             c.normalize(History(c, w, es)[k].transcript).None?
    ensures var h := History(c, w, es);
            h[j].Holds? && h[0].Holds? && CompatiblePrefix(h[j].transcript, h[0].transcript)
  {
    SnapshotsOnlyGrow(c, w, es);
    QuietGrowthExtends(c, History(c, w, es), j);
  }

  // ---------------------------------------------------------------- no resurrection

  /** The runtime neither loads, restarts nor saves; it may go on editing. */
  ghost predicate StaysBack(es: seq<Event>, id: nat) {
    forall k :: 0 <= k < |es| && (es[k].Open? || es[k].Start? || es[k].Clone? || es[k].Store?) ==> es[k].id != id
  }

  lemma {:induction false} BaselineStays(c: Codec, w: World, es: seq<Event>, id: nat)
    requires StaysBack(es, id) && id in w.sessions
    ensures id in Run(c, w, es).sessions && Run(c, w, es).sessions[id].persisted == w.sessions[id].persisted
    decreases |es|
  {
    if es != [] {
      BaselineStays(c, w, es[..|es| - 1], id);
    }
  }

  lemma {:induction false} ChangeLeavesBehind(c: Codec, w: World, es: seq<Event>, k: nat)
    requires LedgerInv(w) && Untampered(es) && k < |es| && StoreSucceeds(c, Run(c, w, es[..k]), es[k])
    requires StoredIn(Run(c, w, es[..k + 1]).disk) != StoredIn(Run(c, w, es[..k]).disk)
    ensures LedgerInv(Run(c, w, es)) && Ledger(w).revision < Ledger(Run(c, w, es)).revision
  {
    var before := Run(c, w, es[..k]);
    LedgerNeverGoesBack(c, w, es[..k], 0);
    RunStep(c, w, es, k);
    ChangeMovesLedger(c, before.disk, before.sessions[es[k].id], PATH, es[k].mode, es[k].faults);
    LedgerNeverGoesBack(c, w, es, k + 1);
    assert es[..k][..0] == [];
  }

  /** What refuses a runtime that others have left behind: its snapshot appends to what is
      stored and its baseline is no longer reached; or it does not append, and is no rewrite
      of a baseline that is still stored and that the ledger still gives to it. */
  predicate LeftBehind(c: Codec, b: Baseline, ledger: Meta, raw: Transcript, s: SessionState, mode: Mode) {
    match JudgedView(c, raw, s.messages)
    case Some(judged) => s.messages != judged.0 && !StillReached(s.messages, judged.0, b.digest.of)
    case None =>
      || mode.Snapshot? || !HoldsBaseline(c, Some(b), raw) || b.version > s.version
      || ledger.digest != Some(b.digest)
  }

  /** No resurrection, exactly and over any run: runtime a holds a known baseline; in the
      run others complete a save that changes what is stored. Then a's own snapshot or
      rewrite is refused if and only if it is left behind, also over a transcript that a
      load pads; and what is stored stays. */
  lemma {:induction false} NoResurrection(c: Codec, w: World, es: seq<Event>, k: nat, a: nat, mode: Mode, f: Faults)
    requires LedgerInv(w) && Untampered(es)
    requires a in w.sessions && KnownBaseline(w.sessions[a]).Some? && StaysBack(es, a)
    requires k < |es| && StoreSucceeds(c, Run(c, w, es[..k]), es[k])
    requires StoredIn(Run(c, w, es[..k + 1]).disk) != StoredIn(Run(c, w, es[..k]).disk)
    requires !mode.Force? && f.budget >= 2
    ensures a in Run(c, w, es).sessions
    ensures var at := Run(c, w, es);
            var o := Save(c, at.disk, at.sessions[a], PATH, mode, f);
            && (o.status.Conflict? <==>
                && StoredIn(at.disk).Holds?
                && LeftBehind(c, KnownBaseline(w.sessions[a]).value, Ledger(at), StoredIn(at.disk).transcript,
                              at.sessions[a], mode))
            && (o.status.Conflict? ==> StoredIn(o.disk) == StoredIn(at.disk))
  {
    ChangeLeavesBehind(c, w, es, k);
    BaselineStays(c, w, es, a);
    var at := Run(c, w, es);
    SaveRefusedExactly(c, at.disk, at.sessions[a], PATH, mode, f);
    SaveIsAtomic(c, at.disk, at.sessions[a], PATH, mode, f);
  }

  lemma {:induction false} CutLeavesBehind(c: Codec, b: Baseline, ledger: Meta, raw: Transcript, s: SessionState,
          mode: Mode)
    requires |raw| < |b.digest.of| && |Normal(c, raw)| < |b.digest.of| <= |s.messages|
    ensures LeftBehind(c, b, ledger, raw, s, mode)
  {
    assert b.digest.of != raw && b.digest.of != Normal(c, raw);
  }

  /** In particular whenever what is stored was cut below a's baseline, also as a load pads
      it, and a's snapshot was not. */
  lemma {:induction false} CutSaverIsRefused(c: Codec, w: World, es: seq<Event>, k: nat, a: nat, mode: Mode, f: Faults)
    requires LedgerInv(w) && Untampered(es)
    requires a in w.sessions && KnownBaseline(w.sessions[a]).Some? && StaysBack(es, a)
    requires k < |es| && StoreSucceeds(c, Run(c, w, es[..k]), es[k])
    requires StoredIn(Run(c, w, es[..k + 1]).disk) != StoredIn(Run(c, w, es[..k]).disk)
    requires !mode.Force? && f.budget >= 2
    requires var at, cut := Run(c, w, es), |KnownBaseline(w.sessions[a]).value.digest.of|;
             && StoredIn(at.disk).Holds? && |StoredIn(at.disk).transcript| < cut
             && |Normal(c, StoredIn(at.disk).transcript)| < cut
             && a in at.sessions && cut <= |at.sessions[a].messages|
    ensures var at := Run(c, w, es);
            var o := Save(c, at.disk, at.sessions[a], PATH, mode, f);
            o.status.Conflict? && StoredIn(o.disk) == StoredIn(at.disk)
  {
    NoResurrection(c, w, es, k, a, mode, f);
    var at := Run(c, w, es);
    CutLeavesBehind(c, KnownBaseline(w.sessions[a]).value, Ledger(at), StoredIn(at.disk).transcript, at.sessions[a],
        mode);
  }

  // ---------------------------------------------------------------- what a log can hold

  ghost predicate LogInv(c: Codec, d: Disk) {
    HeadIsReplace(d.log) && WithinBound(c, d.log)
  }

  /** Over any run the log starts with a full transcript and stays within its size bound,
      and a reader gets the initial transcript or the exact snapshot of some save. */
  lemma {:induction false} LogAlongRuns(c: Codec, w: World, es: seq<Event>)
    requires LogInv(c, w.disk)
    ensures LogInv(c, Run(c, w, es).disk)
    ensures var at := StoredIn(Run(c, w, es).disk);
            at == StoredIn(w.disk)
            || exists k :: 0 <= k < |es| && es[k].Store? && es[k].id in Run(c, w, es[..k]).sessions
                           && at == Holds(Run(c, w, es[..k]).sessions[es[k].id].messages)
    decreases |es|
  {
    if es != [] {
      var init := es[..|es| - 1];
      var e := es[|es| - 1];
      LogAlongRuns(c, w, init);
      var at := Run(c, w, init);
      assert es[..|init|] == init;
      forall k | 0 <= k < |init| ensures init[..k] == es[..k] && init[k] == es[k] {}
      if e.Store? && e.id in at.sessions {
        SaveIsAtomic(c, at.disk, at.sessions[e.id], PATH, e.mode, e.faults);
        SaveHeals(c, at.disk, at.sessions[e.id], PATH, e.mode, e.faults);
        SaveKeepsBound(c, at.disk, at.sessions[e.id], PATH, e.mode, e.faults);
      } else {
        assert Apply(c, at, e).disk.log == at.disk.log && Apply(c, at, e).disk.anchor == at.disk.anchor;
      }
    }
  }

  // ---------------------------------------------------------------- no bogus conflict

  /** NeedsRewriteSave: a history rewritten since the last full save goes out as an owned
      rewrite, any other as a snapshot. */
  function ModeFor(s: SessionState): Mode {
    if s.rewriteVersion > s.persistedRewriteVersion then Rewrite else Snapshot
  }

  function RewrittenAfter(c: Codec, w: World, e: Event, id: nat, before: bool): bool {
    match e
    case Open(i) => before && !(i == id && LoadRaw(w.disk).Loaded?)
    case Start(i, _) => before && i != id
    case Compact(i, _) => before || i == id
    case Store(i, _, _) => before && !(i == id && StoreSucceeds(c, w, e))
    case _ => before
  }

  /** A runtime, or the one it was cloned from, has compacted its history since it last
      started, loaded or completed a save, told by the run alone. */
  function Rewritten(c: Codec, w: World, es: seq<Event>, id: nat): bool {
    if es == [] then false
    else
      var at, e := Run(c, w, es[..|es| - 1]), es[|es| - 1];
      RewrittenAfter(c, at, e, id, Rewritten(c, w, es[..|es| - 1], Ancestor(at, e, id)))
  }

  predicate RewriteVersionsTell(s: SessionState, rewritten: bool) {
    s.persistedRewriteVersion <= s.rewriteVersion && (ModeFor(s).Rewrite? <==> rewritten)
  }

  lemma {:induction false} RewriteStep(c: Codec, w: World, e: Event, id: nat, rewritten: bool)
    requires Ancestor(w, e, id) in w.sessions ==> RewriteVersionsTell(w.sessions[Ancestor(w, e, id)], rewritten)
    ensures id in Apply(c, w, e).sessions ==>
            RewriteVersionsTell(Apply(c, w, e).sessions[id], RewrittenAfter(c, w, e, id, rewritten))
  {
  }

  /** Over any run, a session's next save is a rewrite exactly when its history was
      compacted since it last started, loaded or completed a save. */
  lemma {:induction false} RewriteOnlyAfterCompaction(c: Codec, w: World, es: seq<Event>, id: nat)
    requires w.sessions == map[] && id in Run(c, w, es).sessions
    ensures RewriteVersionsTell(Run(c, w, es).sessions[id], Rewritten(c, w, es, id))
    decreases |es|
  {
    var init, e := es[..|es| - 1], es[|es| - 1];
    var at := Run(c, w, init);
    var source := Ancestor(at, e, id);
    if source in at.sessions {
      RewriteOnlyAfterCompaction(c, w, init, source);
    }
    RewriteStep(c, at, e, id, Rewritten(c, w, init, source));
  }

  /** The event leaves runtime a with messages that do not extend the ones it had, up to a
      leading system message. */
  predicate ReplacesHistory(w: World, e: Event, a: nat) {
    (e.Edit? || e.Clone?) && e.id == a && a in w.sessions && !CompatiblePrefix(e.messages, w.sessions[a].messages)
  }

  function OwedAfter(w: World, e: Event, a: nat, owed: bool): bool {
    if (e.Store? && e.id == a) || (e.Open? && e.id == a && LoadRaw(w.disk).Loaded?) then false
    else owed || ReplacesHistory(w, e, a)
  }

  /** Runtime a has replaced its history, without counting that as a compaction, and has
      neither saved nor loaded since: a rewind or a cancel clean-up on its way to disk
      (internal/control/controller.go:2440-2442 and 3388-3404). */
  predicate Owes(c: Codec, w: World, es: seq<Event>, a: nat) {
    if es == [] then false
    else OwedAfter(Run(c, w, es[..|es| - 1]), es[|es| - 1], a, Owes(c, w, es[..|es| - 1], a))
  }

  /** What runtime a may do as the only one that saves: edit, replace and compact at will,
      also through clones of itself, and save in any mode; its saves complete. Others load,
      edit and write sidecars, and anyone may tamper with the ledger. */
  predicate OnlySaver(c: Codec, w: World, e: Event, a: nat) {
    && (e.Store? ==> e.id == a && StoreSucceeds(c, w, e))
    && (e.Clone? && e.id == a ==> e.source == a)
    && (e.Start? ==> e.id != a)
  }

  ghost predicate OnlySaverAlong(c: Codec, w: World, es: seq<Event>, a: nat) {
    forall k :: 0 <= k < |es| ==> OnlySaver(c, Run(c, w, es[..k]), es[k], a)
  }

  /** The sole writer's baseline is what is stored. */
  predicate SoleInv(c: Codec, w: World, a: nat) {
    && a in w.sessions
    && match w.sessions[a].persisted
       case None => StoredIn(w.disk).Nothing?
       case Some(b) =>
         && b.path == PATH && b.version <= w.sessions[a].version
         && StoredIn(w.disk).Holds? && IsStored(c, StoredIn(w.disk).transcript, b.digest.of)
  }

  lemma {:induction false} StoreMarks(c: Codec, w: World, e: Event)
    requires StoreSucceeds(c, w, e)
    ensures var w' := Apply(c, w, e);
            && e.id in w'.sessions && w'.sessions[e.id] == Marked(w.sessions[e.id], PATH, Ledger(w').revision)
            && ReadLedger(w'.disk.sidecar).Some?
            && w'.disk == Save(c, w.disk, w.sessions[e.id], PATH, e.mode, e.faults).disk
  {
  }

  lemma {:induction false} SoleStep(c: Codec, w: World, e: Event, a: nat)
    requires SoleInv(c, w, a) && OnlySaver(c, w, e, a)
    ensures SoleInv(c, Apply(c, w, e), a)
  {
    if e.Store? {
      StoreMarks(c, w, e);
      SaveIsAtomic(c, w.disk, w.sessions[a], PATH, e.mode, e.faults);
    } else {
      StoredUnlessSaved(c, w, e);
    }
  }

  lemma {:induction false} SoleInvAlong(c: Codec, w: World, es: seq<Event>, a: nat)
    requires SoleInv(c, w, a) && OnlySaverAlong(c, w, es, a)
    ensures SoleInv(c, Run(c, w, es), a)
    decreases |es|
  {
    if es != [] {
      var init := es[..|es| - 1];
      forall k | 0 <= k <= |init| ensures init[..k] == es[..k] && (k < |init| ==> init[k] == es[k]) {}
      assert OnlySaverAlong(c, w, init, a);
      SoleInvAlong(c, w, init, a);
      assert OnlySaver(c, Run(c, w, es[..|init|]), es[|init|], a);
      SoleStep(c, Run(c, w, init), es[|es| - 1], a);
    }
  }

  /** What the ledger must have come to for a sole writer's rewrite to be refused: another
      revision than it knows, and then, if the rewrite extends what is stored, a baseline no
      longer reached under another system message; if not, someone else's content. */
  predicate Misled(c: Codec, base: Option<Baseline>, ledger: Meta, raw: Transcript, next: Transcript) {
    && LedgerMoved(base, ledger)
    && match JudgedView(c, raw, next)
       case Some(judged) => next != judged.0 && !StillReached(next, judged.0, base.value.digest.of)
       case None => ledger.revision != 0 && ledger.digest != Some(base.value.digest)
  }

  /** When exactly a sole writer's rewrite is refused, over every run in which only it
      saves and its saves complete, whatever happens to the ledger. */
  lemma {:induction false} SoleRewriteRefusedExactly(c: Codec, w: World, es: seq<Event>, a: nat, f: Faults)
    requires SoleInv(c, w, a) && OnlySaverAlong(c, w, es, a) && c.normalize([]).None? && f.budget >= 2
    ensures a in Run(c, w, es).sessions
    ensures var at := Run(c, w, es);
            var s := at.sessions[a];
            Save(c, at.disk, s, PATH, Rewrite, f).status.Conflict? <==>
              && StoredIn(at.disk).Holds? && ReadLedger(at.disk.sidecar).Some?
              && Misled(c, BaselineAt(s, PATH), Ledger(at), StoredIn(at.disk).transcript, s.messages)
  {
    SoleInvAlong(c, w, es, a);
    var at := Run(c, w, es);
    SaveRefusedExactly(c, at.disk, at.sessions[a], PATH, Rewrite, f);
  }

  /** The same in plain terms, where normalization leaves alone what is stored. */
  lemma {:induction false} MisledPlainly(c: Codec, b: Baseline, ledger: Meta, raw: Transcript, next: Transcript)
    requires c.normalize(raw).None? && b.digest.of == raw
    ensures Misled(c, Some(b), ledger, raw, next) <==>
              && b.revisionKnown && b.revision != ledger.revision
              && if CompatiblePrefix(next, raw)
                 then next != raw && (raw == [] || !(raw <= next || (LeadsWithSystem(raw) && LeadsWithSystem(next))))
                 else ledger.revision != 0 && ledger.digest != Some(Digest(raw))
  {
    JudgedAsAppendExactly(c, raw, next);
  }

  /** What keeps a sole writer's snapshots acceptable: its messages extend its baseline, up
      to their system message, unless it owes or needs a rewrite. */
  predicate Extends(w: World, a: nat, owed: bool) {
    && a in w.sessions
    && var s := w.sessions[a];
    && s.persistedRewriteVersion <= s.rewriteVersion
    && (s.persisted.Some? && !owed && ModeFor(s).Snapshot? ==>
       CompatiblePrefix(s.messages, s.persisted.value.digest.of))
  }

  lemma {:induction false} ExtendsStep(c: Codec, w: World, e: Event, a: nat, owed: bool)
    requires Extends(w, a, owed) && OnlySaver(c, w, e, a)
    ensures Extends(Apply(c, w, e), a, OwedAfter(w, e, a, owed))
  {
    var s := w.sessions[a];
    if e.Store? {
      StoreMarks(c, w, e);
      CompatiblePrefixReflexive(s.messages);
    } else if e.Open? && e.id == a && LoadRaw(w.disk).Loaded? {
      CompatiblePrefixReflexive(Normal(c, LoadRaw(w.disk).raw));
    } else if (e.Edit? || e.Clone?) && e.id == a && s.persisted.Some? && CompatiblePrefix(e.messages, s.messages) {
      if CompatiblePrefix(s.messages, s.persisted.value.digest.of) {
        CompatiblePrefixTransitive(e.messages, s.messages, s.persisted.value.digest.of);
      }
    }
  }

  lemma {:induction false} ExtendsAlong(c: Codec, w: World, es: seq<Event>, a: nat)
    requires Extends(w, a, false) && OnlySaverAlong(c, w, es, a)
    ensures Extends(Run(c, w, es), a, Owes(c, w, es, a))
    decreases |es|
  {
    if es != [] {
      var init := es[..|es| - 1];
      forall k | 0 <= k <= |init| ensures init[..k] == es[..k] && (k < |init| ==> init[k] == es[k]) {}
      assert OnlySaverAlong(c, w, init, a);
      ExtendsAlong(c, w, init, a);
      assert OnlySaver(c, Run(c, w, es[..|init|]), es[|init|], a);
      ExtendsStep(c, Run(c, w, init), es[|es| - 1], a, Owes(c, w, init, a));
    }
  }

  /** No bogus conflict: over any such run, as long as the ledger is where the sole writer
      knows it, its next rewrite is never refused, whatever it did to its history, and
      neither is its next snapshot when it owes and needs no rewrite; wherever either is
      cut, and also when loads invent placeholder results over its mid-turn snapshots. */
  lemma {:induction false} SoleWriterNeverConflicts(c: Codec, w: World, es: seq<Event>, a: nat, f: Faults)
    requires SoleInv(c, w, a) && Extends(w, a, false) && OnlySaverAlong(c, w, es, a) && c.normalize([]).None?
    ensures a in Run(c, w, es).sessions
    ensures var at := Run(c, w, es);
            var s := at.sessions[a];
            !LedgerMoved(BaselineAt(s, PATH), Ledger(at)) ==>
              && !Save(c, at.disk, s, PATH, Rewrite, f).status.Conflict?
              && (!Owes(c, w, es, a) && ModeFor(s).Snapshot? ==>
                 !Save(c, at.disk, s, PATH, Snapshot, f).status.Conflict?)
  {
    SoleInvAlong(c, w, es, a);
    ExtendsAlong(c, w, es, a);
    var at := Run(c, w, es);
    var s := at.sessions[a];
    if Save(c, at.disk, s, PATH, Rewrite, f).status.Conflict? {
      OnlyRefusedConflicts(c, at.disk, s, PATH, Rewrite, f);
    }
    if Save(c, at.disk, s, PATH, Snapshot, f).status.Conflict? {
      OnlyRefusedConflicts(c, at.disk, s, PATH, Snapshot, f);
      JudgedAsAppendExactly(c, StoredIn(at.disk).transcript, s.messages);
    }
  }

  /** A sole writer knows where the ledger is. */
  ghost predicate LedgerKnown(w: World, a: nat) {
    && LedgerInv(w) && a in w.sessions
    && (w.sessions[a].persisted.Some? ==>
          w.sessions[a].persisted.value.revisionKnown && w.sessions[a].persisted.value.revision == Ledger(w).revision)
  }

  lemma {:induction false} LedgerKnownStep(c: Codec, w: World, e: Event, a: nat)
    requires LedgerKnown(w, a) && OnlySaver(c, w, e, a) && !e.Tamper?
    ensures LedgerKnown(Apply(c, w, e), a)
  {
    LedgerStep(c, w, e);
    if e.Store? {
      StoreMarks(c, w, e);
    }
  }

  /** And it does all along, unless someone tampers with it. */
  lemma {:induction false} UntamperedLedgerIsKnown(c: Codec, w: World, es: seq<Event>, a: nat)
    requires LedgerKnown(w, a) && OnlySaverAlong(c, w, es, a) && Untampered(es)
    ensures LedgerKnown(Run(c, w, es), a)
    ensures !LedgerMoved(BaselineAt(Run(c, w, es).sessions[a], PATH), Ledger(Run(c, w, es)))
    decreases |es|
  {
    if es != [] {
      var init := es[..|es| - 1];
      forall k | 0 <= k <= |init| ensures init[..k] == es[..k] && (k < |init| ==> init[k] == es[k]) {}
      assert OnlySaverAlong(c, w, init, a) && Untampered(init);
      UntamperedLedgerIsKnown(c, w, init, a);
      assert OnlySaver(c, Run(c, w, es[..|init|]), es[|init|], a);
      LedgerKnownStep(c, Run(c, w, init), es[|es| - 1], a);
    }
  }

  /** Why a snapshot has to wait while the writer owes: with the ledger where it knows it,
      its snapshots are refused exactly when its messages do not extend what is stored. */
  lemma {:induction false} SoleSnapshotRefusedExactly(c: Codec, w: World, a: nat, f: Faults)
    requires SoleInv(c, w, a) && ReadLedger(w.disk.sidecar).Some? && StoredIn(w.disk).Holds? && f.budget >= 2
    requires !LedgerMoved(BaselineAt(w.sessions[a], PATH), Ledger(w))
    ensures var raw, next := StoredIn(w.disk).transcript, w.sessions[a].messages;
            Save(c, w.disk, w.sessions[a], PATH, Snapshot, f).status.Conflict? <==>
              !CompatiblePrefix(next, Normal(c, raw)) && (raw == [] || !CompatiblePrefix(next, raw))
  {
    SaveRefusedExactly(c, w.disk, w.sessions[a], PATH, Snapshot, f);
    JudgedAsAppendExactly(c, StoredIn(w.disk).transcript, w.sessions[a].messages);
  }

  predicate StartsSole(c: Codec, w: World, a: nat) {
    SoleInv(c, w, a) && Extends(w, a, false)
  }

  /** A loaded file, or a new session where no file is, is a sole writer's start, and with a
      readable ledger one that knows it. */
  lemma {:induction false} SoleWriterStarts(c: Codec, w: World, a: nat)
    ensures LoadRaw(w.disk).Loaded? ==> StartsSole(c, Apply(c, w, Open(a)), a)
    ensures LoadRaw(w.disk).NotFound? ==> forall ms :: StartsSole(c, Apply(c, w, Start(a, ms)), a)
    ensures LedgerInv(w) && LoadRaw(w.disk).Loaded? ==> LedgerKnown(Apply(c, w, Open(a)), a)
    ensures LedgerInv(w) ==> forall ms :: LedgerKnown(Apply(c, w, Start(a, ms)), a)
  {
    if LoadRaw(w.disk).Loaded? {
      CompatiblePrefixReflexive(Normal(c, LoadRaw(w.disk).raw));
    }
    if LedgerInv(w) {
      LedgerStep(c, w, Open(a));
      forall ms: Transcript ensures LedgerKnown(Apply(c, w, Start(a, ms)), a) {
        LedgerStep(c, w, Start(a, ms));
      }
    }
  }

  lemma {:induction false} RunSnoc(c: Codec, w: World, es: seq<Event>, e: Event)
    ensures Run(c, w, es + [e]) == Apply(c, Run(c, w, es), e)
  {
    assert (es + [e])[..|es|] == es;
  }

  lemma {:induction false} RunJoins(c: Codec, w: World, a: seq<Event>, b: seq<Event>)
    ensures Run(c, w, a + b) == Run(c, Run(c, w, a), b)
  {
    if b == [] {
      assert a + b == a;
    } else {
      RunJoins(c, w, a, b[..|b| - 1]);
      RunSnoc(c, w, a + b[..|b| - 1], b[|b| - 1]);
      assert a + b[..|b| - 1] + [b[|b| - 1]] == a + b;
    }
  }

  lemma {:induction false} RunOfTwo(c: Codec, w: World, d: Event, e: Event)
    ensures Run(c, w, [d, e]) == Apply(c, Apply(c, w, d), e)
  {
    assert [d, e][..1] == [d] && [d][..0] == [];
    assert Run(c, w, [d]) == Apply(c, Run(c, w, []), d);
  }

  lemma {:induction false} StaleRewriteIsRefused(c: Codec, d: Disk, s: SessionState, stored: Transcript, f: Faults)
    requires StoredIn(d) == Holds(stored) && ReadLedger(d.sidecar).Some? && c.normalize(stored).None? && f.budget >= 2
    requires s.persisted.Some? && s.persisted.value.path == PATH && s.persisted.value.digest.of != stored
    requires !CompatiblePrefix(s.messages, stored)
    ensures Save(c, d, s, PATH, Rewrite, f).status.Conflict?
  {
    DecisionIsReached(c, d, s, PATH, Rewrite, f);
    JudgedAsAppendExactly(c, stored, s.messages);
    RewriteAcceptedExactly(c, s.persisted, ReadLedger(d.sidecar).value, stored,
        LoadRaw(Prepared(c, d, f).disk).damaged, s.messages, s.version);
    PreparedKeepsStored(c, d, f);
  }

  const NOTHING_YET: World := World(NO_FILES, map[], {})

  /** A session that has just made its first save. */
  predicate JustSaved(c: Codec, w: World, ms: Transcript) {
    && w.disk.log == LogFile([Replace(ms)], 0) && w.disk.index == Some(LogBytes(c, w.disk.log))
    && w.disk.sidecar == Present(Meta(1, Some(Digest(ms)), ""))
    && 0 in w.sessions && w.sessions[0] == SessionState(ms, 0, 0, 0, Some(Baseline(PATH, Digest(ms), 0, 1, true)))
  }

  lemma {:induction false} StartAndSave(c: Codec, ms: Transcript)
    ensures JustSaved(c, Run(c, NOTHING_YET, [Start(0, ms), Store(0, Snapshot, Faults(5, 0, true))]), ms)
  {
    RunOfTwo(c, NOTHING_YET, Start(0, ms), Store(0, Snapshot, Faults(5, 0, true)));
    FirstSave(c, ms, PATH, Faults(5, 0, true));
  }

  /** The disk is one step ahead of ledger and session. */
  predicate RecordLost(w: World, stored: Transcript, known: Transcript) {
    && StoredIn(w.disk) == Holds(stored) && ReadLedger(w.disk.sidecar).Some?
    && 0 in w.sessions && w.sessions[0].persisted == Some(Baseline(PATH, Digest(known), 0, 1, true))
  }

  lemma {:induction false} SaveLosesRecord(c: Codec, w: World, before: Transcript, after: Transcript)
    requires JustSaved(c, w, before) && before < after && c.normalize(before).None?
    ensures RecordLost(Run(c, w, [Edit(0, after), Store(0, Snapshot, Faults(1, 0, true))]), after, before)
  {
    RunOfTwo(c, w, Edit(0, after), Store(0, Snapshot, Faults(1, 0, true)));
    PlaySnoc([], Replace(before));
    assert [] + [Replace(before)] == [Replace(before)];
    RecordIsLost(c, w.disk, before, w.sessions[0].(messages := after, version := 1), PATH, 0);
  }

  lemma {:induction false} RewriteAfterLostRecord(c: Codec, w: World, stored: Transcript, known: Transcript,
          next: Transcript, f: Faults)
    requires RecordLost(w, stored, known) && stored != known && c.normalize(stored).None? && f.budget >= 2
    requires !CompatiblePrefix(next, stored)
    ensures var at := Apply(c, w, Compact(0, next)); Save(c, at.disk, at.sessions[0], PATH, Rewrite, f).status.Conflict?
  {
    StaleRewriteIsRefused(c, w.disk, Apply(c, w, Compact(0, next)).sessions[0], stored, f);
  }

  /** That saves complete is needed: when the disk gives out between log and ledger, the
      only writer's next rewrite is refused. */
  lemma {:induction false} LostRecordRefusesRewrite(c: Codec, a: Message, b: Message, z: Message, f: Faults)
    requires c.normalize([a]).None?
    requires c.normalize([a, b]).None?
    requires a.role.User?
    requires z.role.User?
    requires a != z
    requires f.budget >= 2
    ensures var es := [Start(0, [a]), Store(0, Snapshot, Faults(5, 0, true))]
                      + [Edit(0, [a, b]), Store(0, Snapshot, Faults(1, 0, true))]
                      + [Compact(0, [z])];
            var at := Run(c, NOTHING_YET, es);
            0 in at.sessions && Save(c, at.disk, at.sessions[0], PATH, Rewrite, f).status.Conflict?
  {
    var first := [Start(0, [a]), Store(0, Snapshot, Faults(5, 0, true))];
    var second := [Edit(0, [a, b]), Store(0, Snapshot, Faults(1, 0, true))];
    StartAndSave(c, [a]);
    RunJoins(c, NOTHING_YET, first, second);
    assert [a] + [b] == [a, b];
    SaveLosesRecord(c, Run(c, NOTHING_YET, first), [a], [a, b]);
    RunSnoc(c, NOTHING_YET, first + second, Compact(0, [z]));
    assert [a, b][0] != [z][0] && |[a, b]| != |[a]|;
    RewriteAfterLostRecord(c, Run(c, NOTHING_YET, first + second), [a, b], [a], [z], f);
  }

  lemma {:induction false} RestampedRewrite(c: Codec, w: World, u: Message, sys: Message, f: Faults)
    requires JustSaved(c, w, [u]) && c.normalize([u]).None? && u.role.User? && sys.role.System? && f.budget >= 2
    ensures var at := Run(c, w, [Tamper(Present(Meta(2, Some(Digest([u])), ""))), Compact(0, [sys, u])]);
            0 in at.sessions && Save(c, at.disk, at.sessions[0], PATH, Rewrite, f).status.Conflict?
  {
    var stamp := Tamper(Present(Meta(2, Some(Digest([u])), "")));
    RunOfTwo(c, w, stamp, Compact(0, [sys, u]));
    var at := Apply(c, Apply(c, w, stamp), Compact(0, [sys, u]));
    PlaySnoc([], Replace([u]));
    assert [] + [Replace([u])] == [Replace([u])];
    assert StoredIn(at.disk) == Holds([u]);
    SaveRefusedExactly(c, at.disk, at.sessions[0], PATH, Rewrite, f);
    assert WithoutLeadingSystem([sys, u]) == [u] == WithoutLeadingSystem([u]);
    JudgedAsAppendExactly(c, [u], [sys, u]);
    assert [sys, u][0] != [u][0];
  }

  /** Nor is an untouched ledger dispensable: re-stamped for the very content that is stored,
      it refuses the only writer's next rewrite, one that puts a system message in front. */
  lemma {:induction false} RestampedLedgerRefusesRewrite(c: Codec, u: Message, sys: Message, f: Faults)
    requires c.normalize([u]).None? && u.role.User? && sys.role.System? && f.budget >= 2
    ensures var es := [Start(0, [u]), Store(0, Snapshot, Faults(5, 0, true))]
                      + [Tamper(Present(Meta(2, Some(Digest([u])), ""))), Compact(0, [sys, u])];
            var at := Run(c, NOTHING_YET, es);
            0 in at.sessions && Save(c, at.disk, at.sessions[0], PATH, Rewrite, f).status.Conflict?
  {
    var first := [Start(0, [u]), Store(0, Snapshot, Faults(5, 0, true))];
    StartAndSave(c, [u]);
    RunJoins(c, NOTHING_YET, first, [Tamper(Present(Meta(2, Some(Digest([u])), ""))), Compact(0, [sys, u])]);
    RestampedRewrite(c, Run(c, NOTHING_YET, first), u, sys, f);
  }

  // ---------------------------------------------------------------- append-only writers

  /** Runtime a only says more, in front of saves that may be cut anywhere; others load,
      edit and write sidecars, and anyone may tamper with the ledger. */
  predicate AppendsOnly(w: World, e: Event, a: nat) {
    && (e.Store? ==> e.id == a && e.mode.Snapshot?)
    && ((e.Edit? || e.Compact?) && e.id == a && a in w.sessions ==> w.sessions[a].messages <= e.messages)
    && (e.Clone? && e.id == a ==> e.source == a && (a in w.sessions ==> w.sessions[a].messages <= e.messages))
    && (e.Start? || e.Open? ==> e.id != a)
  }

  ghost predicate AppendsOnlyAlong(c: Codec, w: World, es: seq<Event>, a: nat) {
    forall k :: 0 <= k < |es| ==> AppendsOnly(Run(c, w, es[..k]), es[k], a)
  }

  predicate OnTrack(w: World, a: nat) {
    && a in w.sessions && w.sessions[a].persisted.Some? && StoredIn(w.disk).Holds?
    && var b := w.sessions[a].persisted.value;
    b.path == PATH && b.digest.of != [] && b.digest.of <= StoredIn(w.disk).transcript <= w.sessions[a].messages
  }

  lemma {:induction false} OnTrackAccepted(c: Codec, w: World, a: nat, f: Faults)
    requires OnTrack(w, a) && |StoredIn(w.disk).transcript| <= |Normal(c, StoredIn(w.disk).transcript)|
    ensures !Save(c, w.disk, w.sessions[a], PATH, Snapshot, f).status.Conflict?
  {
    var s, raw := w.sessions[a], StoredIn(w.disk).transcript;
    if Save(c, w.disk, s, PATH, Snapshot, f).status.Conflict? {
      OnlyRefusedConflicts(c, w.disk, s, PATH, Snapshot, f);
      PrefixIsCompatible(s.messages, raw);
      JudgedAsAppendExactly(c, raw, s.messages);
    }
  }

  lemma {:induction false} OnTrackStep(c: Codec, w: World, e: Event, a: nat)
    requires OnTrack(w, a) && AppendsOnly(w, e, a)
    ensures OnTrack(Apply(c, w, e), a)
  {
    if e.Store? {
      SaveIsAtomic(c, w.disk, w.sessions[a], PATH, e.mode, e.faults);
    } else {
      StoredUnlessSaved(c, w, e);
    }
  }

  lemma {:induction false} OnTrackAlong(c: Codec, w: World, es: seq<Event>, a: nat)
    requires OnTrack(w, a) && AppendsOnlyAlong(c, w, es, a)
    ensures OnTrack(Run(c, w, es), a)
    decreases |es|
  {
    if es != [] {
      var init := es[..|es| - 1];
      forall k | 0 <= k <= |init| ensures init[..k] == es[..k] && (k < |init| ==> init[k] == es[k]) {}
      assert AppendsOnlyAlong(c, w, init, a);
      OnTrackAlong(c, w, init, a);
      assert AppendsOnly(Run(c, w, es[..|init|]), es[|init|], a);
      OnTrackStep(c, Run(c, w, init), es[|es| - 1], a);
    }
  }

  /** An append-only writer with a non-empty baseline is never refused, whatever happens
      to the ledger and wherever its saves are cut, as long as normalization takes nothing
      away from what is stored. */
  lemma {:induction false} AppendOnlyNeverConflicts(c: Codec, w: World, es: seq<Event>, a: nat, f: Faults)
    requires OnTrack(w, a) && AppendsOnlyAlong(c, w, es, a)
    requires var at := StoredIn(Run(c, w, es).disk); at.Holds? ==> |at.transcript| <= |Normal(c, at.transcript)|
    ensures a in Run(c, w, es).sessions
    ensures var at := Run(c, w, es); !Save(c, at.disk, at.sessions[a], PATH, Snapshot, f).status.Conflict?
  {
    OnTrackAlong(c, w, es, a);
    OnTrackAccepted(c, Run(c, w, es), a, f);
  }
}
