/** Where a compaction pass cuts, told by the messages alone: what it leaves in front,
    what it leaves behind, and what survives in between (pinnedPrefixLen, tailStart,
    planCompaction and partitionFold in internal/agent/compact.go). */
module CompactionPlans {
  import opened Transcripts
  import opened Pairing
  import opened Compaction
  import opened Maintenance
  import opened CompactionTheorems

  // ---------------------------------------------------------------- what a digest is

  /** A user message that opens with the summary tag behind blanks and line breaks. */
  lemma {:induction false} DigestExactly(m: Message)
    ensures IsCompactionSummary(m) <==>
              && m.role.User?
              && exists n :: 0 <= n <= |m.content| && (forall k :: 0 <= k < n ==> m.content[k] in {' ', '\n'})
                             && "<compaction-summary>" <= m.content[n..]
  {
    OpensBehindBlanks(m.content);
  }

  lemma {:induction false} OpensBehindBlanks(s: string)
    ensures SUMMARY_TAG_OPEN <= TrimLeft(s) <==>
              exists n :: 0 <= n <= |s| && (forall k :: 0 <= k < n ==> s[k] in {' ', '\n'})
                          && SUMMARY_TAG_OPEN <= s[n..]
  {
    if s != "" && (s[0] == '\n' || s[0] == ' ') {
      var rest := s[1..];
      OpensBehindBlanks(rest);
      if n :| 0 <= n <= |rest| && (forall k :: 0 <= k < n ==> rest[k] in {' ', '\n'})
              && SUMMARY_TAG_OPEN <= rest[n..] {
        assert s[n + 1..] == rest[n..];
        assert forall k :: 0 < k <= n ==> s[k] == rest[k - 1];
      }
      if n :| 0 <= n <= |s| && (forall k :: 0 <= k < n ==> s[k] in {' ', '\n'}) && SUMMARY_TAG_OPEN <= s[n..] {
        assert n > 0 by {
          assert s[0..] == s;
        }
        assert rest[n - 1..] == s[n..];
        assert forall k :: 0 <= k < n - 1 ==> rest[k] == s[k + 1];
      }
    } else {
      assert s[0..] == s;
    }
  }

  // ---------------------------------------------------------------- in front

  /** The first n messages are a leading system prompt, a small first user turn behind it
      and digests behind those, as far as each is there. */
  predicate Front(cfg: Config, msgs: Transcript, n: nat) {
    && n <= |msgs|
    && forall k :: 0 <= k < n ==>
         || (k == 0 && msgs[k].role.System?)
         || IsCompactionSummary(msgs[k])
         || (msgs[k].role.User? && PinnableUserTurn(cfg, msgs[k]) && (k == 0 || (k == 1 && msgs[0].role.System?)))
  }

  /** A plan pins the longest such front. */
  lemma {:induction false} FrontExactly(cfg: Config, msgs: Transcript, n: nat)
    ensures Front(cfg, msgs, n) <==> n <= PinnedPrefix(cfg, msgs)
  {
  }

  // ---------------------------------------------------------------- behind

  /** The tail from cut on, where the floor is two messages or as many as configured: just
      the floor without a known window; with one, the longest tail that costs at most half
      the window and at most 16384, but for the floor, and never all that lies behind the
      front. */
  predicate LongestTail(cfg: Config, msgs: Transcript, head: nat, cut: nat)
    requires cut <= |msgs|
  {
    var kept, floor := |msgs| - cut, if cfg.recentKeep > 2 then cfg.recentKeep else 2;
    if cfg.window == 0 then kept == floor
    else
      && (kept <= floor || (2 * Cost(cfg, msgs[cut..]) <= cfg.window && Cost(cfg, msgs[cut..]) <= 16384))
      && (cut > head + 1 ==>
            && kept >= floor
            && (2 * Cost(cfg, msgs[cut - 1..]) > cfg.window || Cost(cfg, msgs[cut - 1..]) > 16384))
  }

  /** A plan to fold msgs between head and start: the longest front, and the longest tail,
      drawn back from cut off the results in front of it. */
  predicate Plans(cfg: Config, msgs: Transcript, head: nat, start: nat, cut: nat) {
    && head < start <= cut <= |msgs|
    && Front(cfg, msgs, head) && !Front(cfg, msgs, head + 1)
    && LongestTail(cfg, msgs, head, cut)
    && (forall k :: start < k <= cut && k < |msgs| ==> msgs[k].role.Tool?)
    && (start < |msgs| ==> !msgs[start].role.Tool?)
  }

  lemma {:induction false} CostGrows(cfg: Config, msgs: Transcript, i: nat, j: nat)
    requires i <= j <= |msgs|
    ensures Cost(cfg, msgs[i..]) >= Cost(cfg, msgs[j..])
    decreases j - i
  {
    if i < j {
      assert msgs[i..][1..] == msgs[i + 1..];
      CostGrows(cfg, msgs, i + 1, j);
    }
  }

  lemma {:induction false} LongestTailIsUnique(cfg: Config, msgs: Transcript, head: nat, a: nat, b: nat)
    requires head < a <= b <= |msgs| && LongestTail(cfg, msgs, head, a) && LongestTail(cfg, msgs, head, b)
    ensures a == b
  {
    if a < b {
      CostGrows(cfg, msgs, a, b - 1);
    }
  }

  lemma {:induction false} AlignedExactly(cfg: Config, msgs: Transcript, head: nat, start: nat, cut: nat)
    requires Plans(cfg, msgs, head, start, cut)
    ensures AlignedOff(msgs, head, cut) == start
  {
  }

  /** There is no other plan: wherever one of this shape exists, it is the one a pass acts
      on, and a pass that finds none has none. */
  lemma {:induction false} PlanExactly(cfg: Config, msgs: Transcript, head: nat, start: nat, cut: nat)
    requires Plans(cfg, msgs, head, start, cut)
    ensures head == PinnedPrefix(cfg, msgs) && start == PlanStart(cfg, msgs)
  {
    FrontExactly(cfg, msgs, head);
    FrontExactly(cfg, msgs, head + 1);
    AlignedExactly(cfg, msgs, head, start, cut);
    if cfg.window > 0 {
      WindowCutIsLongest(cfg, msgs, head);
      var found := WindowCut(cfg, msgs, head);
      LongestTailIsUnique(cfg, msgs, head, if found < cut then found else cut, if found < cut then cut else found);
    }
  }

  /** Where the tail starts before alignment when the window is known. */
  function WindowCut(cfg: Config, msgs: Transcript, head: nat): (cut: nat)
    ensures cut <= |msgs|
  {
    var budget := if cfg.window / 2 < DEFAULT_TAIL_TOKENS then cfg.window / 2 else DEFAULT_TAIL_TOKENS;
    CutFrom(cfg, msgs, head, budget, TailFloor(cfg), |msgs|)
  }

  lemma {:induction false} WindowCutIsLongest(cfg: Config, msgs: Transcript, head: nat)
    requires cfg.window > 0
    ensures LongestTail(cfg, msgs, head, WindowCut(cfg, msgs, head))
    ensures head < |msgs| ==> head < WindowCut(cfg, msgs, head)
  {
    var budget := if cfg.window / 2 < DEFAULT_TAIL_TOKENS then cfg.window / 2 else DEFAULT_TAIL_TOKENS;
    CutIsLongestFit(cfg, msgs, head, budget, TailFloor(cfg), |msgs|);
    if head < |msgs| {
      CutStaysBehind(cfg, msgs, head, budget, TailFloor(cfg), |msgs|);
    }
  }

  lemma {:induction false} CutStaysBehind(cfg: Config, msgs: Transcript, head: nat, budget: nat, minKeep: nat,
          cut: nat)
    requires head < cut <= |msgs|
    ensures head < CutFrom(cfg, msgs, head, budget, minKeep, cut)
    decreases cut
  {
    if !(cut <= head + 1 || (|msgs| - cut >= minKeep && Cost(cfg, msgs[cut - 1..]) > budget)) {
      CutStaysBehind(cfg, msgs, head, budget, minKeep, cut - 1);
    }
  }

  lemma {:induction false} PlanTail(cfg: Config, msgs: Transcript) returns (cut: nat)
    requires PinnedPrefix(cfg, msgs) < PlanStart(cfg, msgs)
    ensures PlanStart(cfg, msgs) <= cut <= |msgs| && LongestTail(cfg, msgs, PinnedPrefix(cfg, msgs), cut)
    ensures PlanStart(cfg, msgs) == AlignedOff(msgs, PinnedPrefix(cfg, msgs), cut)
  {
    var head := PinnedPrefix(cfg, msgs);
    if cfg.window > 0 {
      cut := WindowCut(cfg, msgs, head);
      WindowCutIsLongest(cfg, msgs, head);
    } else {
      cut := |msgs| - TailFloor(cfg);
    }
  }

  lemma {:induction false} TailIsNotShort(cfg: Config, msgs: Transcript, head: nat, start: nat, cut: nat)
    requires head < start <= cut <= |msgs| && LongestTail(cfg, msgs, head, cut)
    ensures (|msgs| - start >= cfg.recentKeep && |msgs| - start >= 2) || |msgs| - start >= |msgs| - head - 1
  {
  }

  lemma {:induction false} PlanExists(cfg: Config, msgs: Transcript) returns (cut: nat)
    requires PinnedPrefix(cfg, msgs) < PlanStart(cfg, msgs)
    ensures Plans(cfg, msgs, PinnedPrefix(cfg, msgs), PlanStart(cfg, msgs), cut)
  {
    FrontExactly(cfg, msgs, PinnedPrefix(cfg, msgs));
    FrontExactly(cfg, msgs, PinnedPrefix(cfg, msgs) + 1);
    cut := PlanTail(cfg, msgs);
  }

  /** What one pass of Compact leaves when it folds: the whole front in place, the digest,
      and behind it the longest tail that fits, verbatim. The tail holds at least the
      floor, or all but one of the messages behind the front. */
  lemma {:induction false} CompactKeepsEnds(cfg: Config, msgs: Transcript, force: bool, summary: string)
    returns (head: nat, start: nat, cut: nat)
    requires Folds(cfg, msgs, force)
    ensures Plans(cfg, msgs, head, start, cut)
    ensures var next := Compacted(cfg, msgs, PinnedPrefix(cfg, msgs), PlanStart(cfg, msgs), summary);
            next == msgs[..head] + Kept(cfg, msgs[head..start]) + [DigestMessage(summary)] + msgs[start..]
    ensures (|msgs| - start >= cfg.recentKeep && |msgs| - start >= 2) || |msgs| - start >= |msgs| - head - 1
  {
    head, start := PinnedPrefix(cfg, msgs), PlanStart(cfg, msgs);
    cut := PlanExists(cfg, msgs);
    TailIsNotShort(cfg, msgs, head, start, cut);
  }

  // ---------------------------------------------------------------- in between

  /** What survives between the front and the digest: digests, small user turns, and every
      call group in which, since the latest digest, an error result or a marked user turn
      is to be kept. */
  lemma {:induction false} KeptExactly(cfg: Config, region: Transcript, k: nat)
    requires Paired(region) && k < |region|
    ensures KeptFlags(cfg, region)[k] <==>
              || IsCompactionSummary(region[k])
              || (region[k].role.User? && PinnableUserTurn(cfg, region[k]))
              || (exists s :: 0 <= s < |region| && Leader(region, s) == Leader(region, k)
                       && (forall d :: s <= d < |region| ==> !IsCompactionSummary(region[d]))
                       && ((cfg.keepErrors && region[s].role.Tool? && cfg.isErrorText(region[s].content))
                          || (cfg.keepUserMarked && region[s].role.User? && cfg.isMarkedText(region[s].content))))
  {
    KeepPolicyExactly(cfg, region, k);
  }

  lemma {:induction false} FilterIsEmptyExactly(s: Transcript, flags: seq<bool>)
    requires |s| == |flags|
    ensures Filter(s, flags) == [] <==> forall k :: 0 <= k < |s| ==> !flags[k]
  {
    if s != [] {
      FilterIsEmptyExactly(s[1..], flags[1..]);
      assert forall k :: 0 < k < |s| ==> flags[k] == flags[1..][k - 1];
      assert forall k :: 0 <= k < |s| - 1 ==> flags[1..][k] == flags[k + 1];
    }
  }

  /** Something between head and start does not survive. */
  predicate SomeFold(cfg: Config, msgs: Transcript, head: nat, start: nat)
    requires head <= start <= |msgs|
  {
    var region := msgs[head..start];
    exists k :: 0 <= k < |region| && !KeptFlags(cfg, region)[k]
  }

  /** Where there is a plan, a pass folds exactly when something in it does not survive and
      folding that is forced or pays. */
  lemma {:induction false} FoldsExactly(cfg: Config, msgs: Transcript, force: bool, head: nat, start: nat, cut: nat)
    requires Plans(cfg, msgs, head, start, cut)
    ensures Folds(cfg, msgs, force) <==>
              SomeFold(cfg, msgs, head, start) && (force || cfg.worthFolding(Folded(cfg, msgs[head..start])))
  {
    PlanExactly(cfg, msgs, head, start, cut);
    var region := msgs[head..start];
    var flags := KeptFlags(cfg, region);
    FilterIsEmptyExactly(region, Not(flags));
    assert forall k :: 0 <= k < |region| ==> Not(flags)[k] == !flags[k];
    assert (forall k :: 0 <= k < |region| ==> !Not(flags)[k]) <==> !SomeFold(cfg, msgs, head, start);
  }

  /** Where a snip or prune looks: inside the plan, if the window is known and there is one;
      else only a prune does, behind the first message and before the recent ones. */
  lemma {:induction false} BoundariesExactly(cfg: Config, msgs: Transcript, pass: Pass, head: nat, start: nat, cut: nat)
    ensures cfg.window > 0 && Plans(cfg, msgs, head, start, cut) ==> Boundaries(cfg, msgs, pass) == Some((head, start))
    ensures cfg.window == 0 ==> Boundaries(cfg, msgs, pass).None?
    ensures cfg.window > 0 && (forall h, s, c :: !Plans(cfg, msgs, h, s, c)) ==>
              Boundaries(cfg, msgs, pass) ==
                if pass.Prune? && |msgs| > cfg.recentKeep then Some((1, |msgs| - cfg.recentKeep)) else None
  {
    if Plans(cfg, msgs, head, start, cut) {
      PlanExactly(cfg, msgs, head, start, cut);
    }
    if PinnedPrefix(cfg, msgs) < PlanStart(cfg, msgs) {
      var found := PlanExists(cfg, msgs);
    }
  }

  // ---------------------------------------------------------------- over runs

  /** Every fold of the run is where the agent's own plan puts it. */
  predicate PlannedRun(cfg: Config, w: Wording, c: Conversation, es: seq<Event>)
    requires LegalRun(cfg, w, c, es)
  {
    es == []
    || (var init, last := es[..|es| - 1], es[|es| - 1];
        var msgs := After(cfg, w, c, init).session;
        && PlannedRun(cfg, w, c, init)
        && (last.Fold? ==> last.head == PinnedPrefix(cfg, msgs) && last.start == PlanStart(cfg, msgs)))
  }

  lemma {:induction false} StepKeepsFront(cfg: Config, w: Wording, c: Conversation, e: Event, n: nat)
    requires Legal(cfg, c, e) && Front(cfg, c.session, n)
    requires e.Fold? ==> e.head == PinnedPrefix(cfg, c.session)
    ensures var next := Next(cfg, w, c, e).session; n <= |next| && next[..n] == c.session[..n]
  {
    FrontExactly(cfg, c.session, n);
  }

  /** The front of a conversation stays in place, verbatim, over every run of turns, of
      planned folds and of maintenance passes: a leading system prompt, the small first
      user turn behind it, and the digests behind those. */
  lemma {:induction false} FrontForever(cfg: Config, w: Wording, c: Conversation, es: seq<Event>, k: nat, n: nat)
    requires LegalRun(cfg, w, c, es) && PlannedRun(cfg, w, c, es)
    requires k <= |es| && LegalRun(cfg, w, c, es[..k]) && Front(cfg, After(cfg, w, c, es[..k]).session, n)
    ensures var at, end := After(cfg, w, c, es[..k]).session, After(cfg, w, c, es).session;
            n <= |end| && end[..n] == at[..n]
    decreases |es|
  {
    if k == |es| {
      assert es[..k] == es;
    } else {
      var init := es[..|es| - 1];
      assert init[..k] == es[..k];
      FrontForever(cfg, w, c, init, k, n);
      var at, mid := After(cfg, w, c, es[..k]).session, After(cfg, w, c, init);
      SameFront(cfg, at, mid.session, n);
      StepKeepsFront(cfg, w, mid, es[|es| - 1], n);
    }
  }

  lemma {:induction false} SameFront(cfg: Config, a: Transcript, b: Transcript, n: nat)
    requires Front(cfg, a, n) && n <= |b| && b[..n] == a[..n]
    ensures Front(cfg, b, n)
  {
    assert forall k :: 0 <= k < n ==> b[k] == b[..n][k] == a[..n][k] == a[k];
  }

  /** In particular the system prompt stays first. */
  lemma {:induction false} SystemPromptForever(cfg: Config, w: Wording, c: Conversation, es: seq<Event>, k: nat)
    requires LegalRun(cfg, w, c, es) && PlannedRun(cfg, w, c, es) && k <= |es| && LegalRun(cfg, w, c, es[..k])
    requires LeadsWithSystem(After(cfg, w, c, es[..k]).session)
    ensures var at, end := After(cfg, w, c, es[..k]).session, After(cfg, w, c, es).session;
            LeadsWithSystem(end) && end[0] == at[0]
  {
    FrontForever(cfg, w, c, es, k, 1);
    var at, end := After(cfg, w, c, es[..k]).session, After(cfg, w, c, es).session;
    assert end[0] == end[..1][0] == at[..1][0] == at[0];
  }
}
