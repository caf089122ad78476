/** Rewriting stale tool results without a summarizer: snip and prune
    (internal/agent/prune.go). */
module Maintenance {
  import opened Transcripts
  import opened Pairing
  import opened Compaction

  const SNIPPED_MARKER: string := "[snipped tool result \U{2014} "
  const PRUNED_MARKER: string := "[elided tool result \U{2014} "
  const MIN_PRUNE_BYTES: nat := 1024

  datatype Pass = Snip | Prune

  /** What a placeholder says behind its marker is left abstract. */
  datatype Wording = Wording(snipped: (Message, string) -> string, pruned: (Message, string) -> string)

  predicate ShouldMaintain(m: Message, pass: Pass) {
    && m.role.Tool? && !(PRUNED_MARKER <= m.content)
    && match pass
       case Snip => |m.content| >= MIN_PRUNE_BYTES && !(SNIPPED_MARKER <= m.content)
       case Prune => SNIPPED_MARKER <= m.content || |m.content| >= MIN_PRUNE_BYTES
  }

  /** An error result that the keep policy preserves is exempt. */
  predicate Stale(cfg: Config, m: Message, pass: Pass) {
    ShouldMaintain(m, pass) && !(cfg.keepErrors && m.role.Tool? && cfg.isErrorText(m.content))
  }

  function Rewritten(w: Wording, m: Message, pass: Pass, path: string): Message {
    m.(content := match pass
                  case Snip => SNIPPED_MARKER + w.snipped(m, path)
                  case Prune => PRUNED_MARKER + w.pruned(m, path))
  }

  function Maintained(cfg: Config, w: Wording, msgs: Transcript, head: nat, start: nat, pass: Pass,
          path: string): (r: Transcript)
    ensures |r| == |msgs|
  {
    seq(|msgs|, k requires 0 <= k < |msgs| =>
      if head <= k < start && Stale(cfg, msgs[k], pass) then Rewritten(w, msgs[k], pass, path) else msgs[k])
  }

  /** Originals go to the archive, except results that a snip has archived already. */
  predicate NeedsArchive(cfg: Config, m: Message, pass: Pass) {
    Stale(cfg, m, pass) && !(pass.Prune? && SNIPPED_MARKER <= m.content)
  }

  function Archived(cfg: Config, m: Message, pass: Pass): Transcript {
    if NeedsArchive(cfg, m, pass) then [m] else []
  }

  function Originals(cfg: Config, msgs: Transcript, head: nat, start: nat, pass: Pass): Transcript
    requires start <= |msgs|
    decreases start
  {
    if start <= head then []
    else Originals(cfg, msgs, head, start - 1, pass) + Archived(cfg, msgs[start - 1], pass)
  }

  lemma {:induction false} MarkersDiffer()
    ensures forall s: string :: !(PRUNED_MARKER <= SNIPPED_MARKER + s) && !(SNIPPED_MARKER <= PRUNED_MARKER + s)
  {
    forall s: string ensures !(PRUNED_MARKER <= SNIPPED_MARKER + s) && !(SNIPPED_MARKER <= PRUNED_MARKER + s) {
      assert (SNIPPED_MARKER + s)[1] == 's' && (PRUNED_MARKER + s)[1] == 'e';
    }
  }

  lemma {:induction false} SnippedIsNotPruned(text: string)
    requires SNIPPED_MARKER <= text
    ensures !(PRUNED_MARKER <= text)
  {
    assert text[1] == SNIPPED_MARKER[1] == 's';
    assert PRUNED_MARKER[1] == 'e';
  }

  /** idx lists, in order, exactly the stale results between the boundaries. */
  predicate ListsStale(cfg: Config, msgs: Transcript, head: nat, start: nat, pass: Pass, idx: seq<nat>)
    requires start <= |msgs|
  {
    && (forall a :: 0 <= a < |idx| ==> head <= idx[a] < start && Stale(cfg, msgs[idx[a]], pass))
    && (forall a, b :: 0 <= a < b < |idx| ==> idx[a] < idx[b])
    && (forall k :: head <= k < start && Stale(cfg, msgs[k], pass) ==> k in idx)
  }

  method StaleResults(cfg: Config, msgs: Transcript, head: nat, start: nat, pass: Pass) returns (idx: seq<nat>)
    requires head <= start <= |msgs|
    ensures ListsStale(cfg, msgs, head, start, pass, idx)
  {
    idx := [];
    for i := head to start
      invariant ListsStale(cfg, msgs, head, i, pass, idx)
    {
      if ShouldMaintain(msgs[i], pass) {
        if cfg.keepErrors && msgs[i].role.Tool? && cfg.isErrorText(msgs[i].content) {
          continue;
        }
        idx := idx + [i];
      }
    }
  }

  lemma {:induction false} NothingStaleBetween(cfg: Config, msgs: Transcript, head: nat, lo: nat, hi: nat, pass: Pass)
    requires head <= lo <= hi <= |msgs| && forall k :: lo <= k < hi ==> !Stale(cfg, msgs[k], pass)
    ensures Originals(cfg, msgs, head, hi, pass) == Originals(cfg, msgs, head, lo, pass)
  {
    if lo < hi {
      NothingStaleBetween(cfg, msgs, head, lo, hi - 1, pass);
    }
  }

  /** Between two listed results there is no other stale one. */
  lemma {:induction false} NoneListedBetween(cfg: Config, msgs: Transcript, head: nat, start: nat, pass: Pass,
          idx: seq<nat>, a: nat)
    requires head <= start <= |msgs| && ListsStale(cfg, msgs, head, start, pass, idx) && a <= |idx|
    ensures var lo, hi := DoneBefore(head, idx, a), if a == |idx| then start else idx[a];
            lo <= hi <= start && forall k :: lo <= k < hi ==> !Stale(cfg, msgs[k], pass)
  {
  }

  function DoneBefore(head: nat, idx: seq<nat>, a: nat): nat
    requires a <= |idx|
  {
    if a == 0 then head else idx[a - 1] + 1
  }

  lemma {:induction false} OriginalsExtend(cfg: Config, msgs: Transcript, head: nat, lo: nat, k: nat, pass: Pass)
    requires head <= lo <= k < |msgs|
    requires Stale(cfg, msgs[k], pass)
    requires forall i :: lo <= i < k ==> !Stale(cfg, msgs[i], pass)
    ensures Originals(cfg, msgs, head, k + 1, pass)
            == Originals(cfg, msgs, head, lo, pass) + Archived(cfg, msgs[k], pass)
  {
    NothingStaleBetween(cfg, msgs, head, lo, k, pass);
  }

  lemma {:induction false} NextListed(cfg: Config, msgs: Transcript, head: nat, start: nat, pass: Pass, idx: seq<nat>,
          a: nat)
    requires head <= start <= |msgs| && ListsStale(cfg, msgs, head, start, pass, idx) && a < |idx|
    ensures idx[a] < start && DoneBefore(head, idx, a) <= start
    ensures Originals(cfg, msgs, head, idx[a] + 1, pass)
            == Originals(cfg, msgs, head, DoneBefore(head, idx, a), pass) + Archived(cfg, msgs[idx[a]], pass)
  {
    NoneListedBetween(cfg, msgs, head, start, pass, idx, a);
    OriginalsExtend(cfg, msgs, head, DoneBefore(head, idx, a), idx[a], pass);
  }

  /** What is collected once the first a listed results have been looked at. */
  predicate Collected(cfg: Config, msgs: Transcript, head: nat, start: nat, pass: Pass, idx: seq<nat>, a: nat,
          originals: Transcript)
  {
    && a <= |idx| && DoneBefore(head, idx, a) <= start <= |msgs|
    && originals == Originals(cfg, msgs, head, DoneBefore(head, idx, a), pass)
  }

  lemma {:induction false} CollectNext(cfg: Config, msgs: Transcript, head: nat, start: nat, pass: Pass,
          idx: seq<nat>, a: nat, originals: Transcript)
    requires head <= start <= |msgs| && ListsStale(cfg, msgs, head, start, pass, idx) && a < |idx|
    requires Collected(cfg, msgs, head, start, pass, idx, a, originals)
    ensures idx[a] < |msgs|
    ensures var m := msgs[idx[a]];
            var archived := pass.Prune? && SNIPPED_MARKER <= m.content;
            Collected(cfg, msgs, head, start, pass, idx, a + 1, if archived then originals else originals + [m])
  {
    NextListed(cfg, msgs, head, start, pass, idx, a);
    assert Stale(cfg, msgs[idx[a]], pass);
    assert originals + [] == originals;
  }

  lemma {:induction false} CollectedAll(cfg: Config, msgs: Transcript, head: nat, start: nat, pass: Pass,
          idx: seq<nat>, originals: Transcript)
    requires head <= start <= |msgs| && ListsStale(cfg, msgs, head, start, pass, idx)
    requires Collected(cfg, msgs, head, start, pass, idx, |idx|, originals)
    ensures originals == Originals(cfg, msgs, head, start, pass)
  {
    NoneListedBetween(cfg, msgs, head, start, pass, idx, |idx|);
    NothingStaleBetween(cfg, msgs, head, DoneBefore(head, idx, |idx|), start, pass);
  }

  method CollectOriginals(cfg: Config, msgs: Transcript, head: nat, start: nat, pass: Pass, idx: seq<nat>)
    returns (originals: Transcript)
    requires head <= start <= |msgs| && ListsStale(cfg, msgs, head, start, pass, idx)
    ensures originals == Originals(cfg, msgs, head, start, pass)
  {
    originals := [];
    for a := 0 to |idx|
      invariant Collected(cfg, msgs, head, start, pass, idx, a, originals)
    {
      CollectNext(cfg, msgs, head, start, pass, idx, a, originals);
      if !(pass.Prune? && SNIPPED_MARKER <= msgs[idx[a]].content) {
        originals := originals + [msgs[idx[a]]];
      }
    }
    CollectedAll(cfg, msgs, head, start, pass, idx, originals);
  }

  lemma {:induction false} RewritingChanges(cfg: Config, w: Wording, m: Message, pass: Pass, path: string)
    requires Stale(cfg, m, pass)
    ensures Rewritten(w, m, pass, path).content != m.content
  {
    var content := Rewritten(w, m, pass, path).content;
    assert pass.Snip? ==> content[..|SNIPPED_MARKER|] == SNIPPED_MARKER;
    assert pass.Prune? ==> content[..|PRUNED_MARKER|] == PRUNED_MARKER;
  }

  predicate RewrittenAmong(w: Wording, msgs: Transcript, next: Transcript, pass: Pass, path: string, done: seq<nat>) {
    |next| == |msgs|
    && forall k :: 0 <= k < |msgs| ==> next[k] == if k in done then Rewritten(w, msgs[k], pass, path) else msgs[k]
  }

  lemma {:induction false} OneMoreRewritten(w: Wording, msgs: Transcript, next: Transcript, pass: Pass, path: string,
          done: seq<nat>, i: nat)
    requires RewrittenAmong(w, msgs, next, pass, path, done) && i < |msgs| && i !in done
    ensures next[i] == msgs[i]
    ensures RewrittenAmong(w, msgs, next[i := Rewritten(w, msgs[i], pass, path)], pass, path, done + [i])
  {
  }

  lemma {:induction false} AllRewritten(cfg: Config, w: Wording, msgs: Transcript, head: nat, start: nat, pass: Pass,
          idx: seq<nat>, path: string, next: Transcript)
    requires head <= start <= |msgs|
    requires ListsStale(cfg, msgs, head, start, pass, idx)
    requires RewrittenAmong(w, msgs, next, pass, path, idx)
    ensures next == Maintained(cfg, w, msgs, head, start, pass, path)
  {
  }

  method RewriteResults(cfg: Config, w: Wording, msgs: Transcript, head: nat, start: nat, pass: Pass, idx: seq<nat>,
          path: string)
    returns (next: Transcript, results: nat)
    requires head <= start <= |msgs| && ListsStale(cfg, msgs, head, start, pass, idx)
    ensures next == Maintained(cfg, w, msgs, head, start, pass, path) && results == |idx|
  {
    next, results := msgs, 0;
    for a := 0 to |idx|
      invariant results == a && RewrittenAmong(w, msgs, next, pass, path, idx[..a])
    {
      var i := idx[a];
      assert idx[..a + 1] == idx[..a] + [i] && i !in idx[..a];
      OneMoreRewritten(w, msgs, next, pass, path, idx[..a], i);
      RewritingChanges(cfg, w, msgs[i], pass, path);
      var m := Rewritten(w, next[i], pass, path);
      if m.content == next[i].content {
        continue;
      }
      next := next[i := m];
      results := results + 1;
    }
    assert idx[..|idx|] == idx;
    AllRewritten(cfg, w, msgs, head, start, pass, idx, path, next);
  }

  /** Where a pass looks: between the boundaries of a plan, or, for a prune of a history
      without one, everything between the first and the recent messages. */
  function Boundaries(cfg: Config, msgs: Transcript, pass: Pass): (r: Option<(nat, nat)>)
    ensures r.Some? ==> r.value.0 <= r.value.1 <= |msgs|
  {
    if cfg.window == 0 then None
    else if PinnedPrefix(cfg, msgs) < PlanStart(cfg, msgs) then Some((PinnedPrefix(cfg, msgs), PlanStart(cfg, msgs)))
    else if pass.Prune? && |msgs| >= cfg.recentKeep + 1 then Some((1, |msgs| - cfg.recentKeep))
    else None
  }

  /** Something stale to rewrite, and its originals archived if they have to be. */
  predicate Maintains(cfg: Config, msgs: Transcript, pass: Pass, archives: bool, archiveOk: bool) {
    match Boundaries(cfg, msgs, pass)
    case None => false
    case Some((head, start)) =>
      (exists k :: head <= k < start && Stale(cfg, msgs[k], pass))
      && (archives && Originals(cfg, msgs, head, start, pass) != [] ==> archiveOk)
  }

  method PassBoundaries(cfg: Config, msgs: Transcript, pass: Pass) returns (found: bool, head: nat, start: nat)
    ensures found <==> Boundaries(cfg, msgs, pass).Some?
    ensures found ==> Boundaries(cfg, msgs, pass) == Some((head, start))
  {
    head, start, found := 0, 0, false;
    if cfg.window == 0 {
      return;
    }
    head, start, found := PlanCompaction(cfg, msgs, 1);
    if !found && pass.Prune? && |msgs| >= cfg.recentKeep + 1 {
      head, start, found := 1, |msgs| - cfg.recentKeep, true;
    }
  }

  /** maintainStaleToolResults: rewrites exactly the stale results, archiving the originals
      that no snip has archived, or changes nothing. */
  method MaintainStaleToolResults(cfg: Config, w: Wording, agent: Agent, pass: Pass, archives: bool, archiveOk: bool,
          path: string)
    returns (results: nat)
    modifies agent
    ensures results > 0 <==> Maintains(cfg, old(agent.messages), pass, archives, archiveOk)
    ensures results == 0 ==>
              && agent.messages == old(agent.messages) && agent.version == old(agent.version)
              && agent.rewriteVersion == old(agent.rewriteVersion) && agent.archive == old(agent.archive)
    ensures results > 0 ==>
              && agent.version == old(agent.version) + 2 && agent.rewriteVersion == old(agent.rewriteVersion) + 1
              && var (head, start) := Boundaries(cfg, old(agent.messages), pass).value;
                 var originals := Originals(cfg, old(agent.messages), head, start, pass);
                 && agent.archive == old(agent.archive) + (if archives && originals != [] then [originals] else [])
                 && agent.messages == Maintained(cfg, w, old(agent.messages), head, start, pass,
                                                 if archives && originals != [] then path else "")
  {
    results := 0;
    var msgs := agent.messages;
    var found, head, start := PassBoundaries(cfg, msgs, pass);
    if !found {
      return;
    }
    var idx := StaleResults(cfg, msgs, head, start, pass);
    if idx == [] {
      return;
    }
    assert head <= idx[0] < start && Stale(cfg, msgs[idx[0]], pass);
    var ok, used := ArchiveOriginals(cfg, agent, msgs, head, start, pass, idx, archives, archiveOk, path);
    if !ok {
      return;
    }
    var next;
    next, results := RewriteResults(cfg, w, msgs, head, start, pass, idx, used);
    agent.Rewrite(next);
  }

  /** What a pass archives before it rewrites, and the path its placeholders will name. */
  method ArchiveOriginals(cfg: Config, agent: Agent, msgs: Transcript, head: nat, start: nat, pass: Pass,
          idx: seq<nat>, archives: bool, archiveOk: bool, path: string)
    returns (ok: bool, used: string)
    requires head <= start <= |msgs|
    requires ListsStale(cfg, msgs, head, start, pass, idx)
    modifies agent`archive
    ensures var originals := Originals(cfg, msgs, head, start, pass);
            if archives && originals != [] then
              ok == archiveOk && used == path && agent.archive == old(agent.archive) + if ok then [originals] else []
            else ok && used == "" && agent.archive == old(agent.archive)
  {
    if archives {
      var originals := CollectOriginals(cfg, msgs, head, start, pass, idx);
      if originals != [] {
        if archiveOk {
          agent.archive := agent.archive + [originals];
        }
        return archiveOk, path;
      }
    }
    return true, "";
  }

  lemma {:induction false} MaintenanceKeepsPairing(cfg: Config, w: Wording, msgs: Transcript, head: nat, start: nat,
          pass: Pass, path: string)
    requires Paired(msgs)
    ensures Paired(Maintained(cfg, w, msgs, head, start, pass, path))
  {
    ShapeDecidesPairing(msgs, Maintained(cfg, w, msgs, head, start, pass, path));
  }

  /** A second pass over the same boundaries finds nothing left to do. */
  lemma {:induction false} MaintenanceIsIdempotent(cfg: Config, w: Wording, msgs: Transcript, head: nat, start: nat,
          pass: Pass, path: string, path': string)
    ensures var once := Maintained(cfg, w, msgs, head, start, pass, path);
            Maintained(cfg, w, once, head, start, pass, path') == once
  {
    MarkersDiffer();
  }

  /** A snip in between never changes which results a prune elides. If error results are
      exempt, a snipped text must not read as an error, as it does not for the source's
      test, which looks for an error prefix. */
  lemma {:induction false} PruneSeesThroughSnip(cfg: Config, w: Wording, msgs: Transcript, head: nat, start: nat,
          path: string, k: nat)
    requires k < |msgs|
    requires cfg.keepErrors ==> forall s: string :: SNIPPED_MARKER <= s ==> !cfg.isErrorText(s)
    ensures Stale(cfg, Maintained(cfg, w, msgs, head, start, Snip, path)[k], Prune) <==> Stale(cfg, msgs[k], Prune)
  {
    MarkersDiffer();
  }

  /** What a pass rewrites between its boundaries: tool results of at least 1024 bytes that
      carry no marker; a prune also those a snip has marked, of any size; and no error that
      the policy keeps. What it writes begins with its own marker. */
  lemma {:induction false} MaintainsExactly(cfg: Config, w: Wording, msgs: Transcript, head: nat, start: nat,
          pass: Pass, path: string, k: nat)
    requires k < |msgs|
    ensures var m := msgs[k];
            var m' := Maintained(cfg, w, msgs, head, start, pass, path)[k];
            var pruned, snipped := PRUNED_MARKER <= m.content, SNIPPED_MARKER <= m.content;
            && m' == m.(content := m'.content)
            && (m'.content != m.content <==>
                  && head <= k < start && m.role.Tool? && !(cfg.keepErrors && cfg.isErrorText(m.content))
                  && !pruned && (if pass.Snip? then !snipped && |m.content| >= 1024
                                 else snipped || |m.content| >= 1024))
            && (m'.content != m.content ==>
                  (if pass.Snip? then SNIPPED_MARKER else PRUNED_MARKER) <= m'.content)
  {
    if head <= k < start && Stale(cfg, msgs[k], pass) {
      RewritingChanges(cfg, w, msgs[k], pass, path);
    }
  }
}
