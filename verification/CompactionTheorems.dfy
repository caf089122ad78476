/** What compaction keeps: pairing, every message, and the protected turns, over one
    pass and over any run of turns, folds and maintenance passes. */
module CompactionTheorems {
  import opened Transcripts
  import opened Pairing
  import opened Compaction
  import opened Maintenance

  // ---------------------------------------------------------------- the keep policy

  lemma {:induction false} CallerIsLeader(region: Transcript, i: nat, n: nat)
    requires Paired(region) && i < |region| && region[i].role.Tool? && Leader(region, i) < n <= i
    ensures NearestCaller(region, n, region[i].toolCallId) == Leader(region, i)
  {
    ResultsHaveCallers(region, i);
    if n - 1 > Leader(region, i) {
      CallerIsLeader(region, i, n - 1);
    }
  }

  lemma {:induction false} LeaderOfRun(s: Transcript, j: nat, k: nat)
    requires j <= k < |s| && !s[j].role.Tool? && forall i :: j < i <= k ==> s[i].role.Tool?
    ensures Leader(s, k) == j
  {
    if j < k {
      LeaderOfRun(s, j, k - 1);
    }
  }

  lemma {:induction false} GroupIsLeaderClass(region: Transcript, j: nat, k: nat)
    requires Paired(region) && j < |region| && k < |region| && region[j].role.Assistant? && region[j].calls != []
    ensures InGroup(region, j, k) <==> Leader(region, k) == j
  {
    if j < k < RunEnd(region, j + 1) {
      LeaderOfRun(region, j, k);
      ResultsHaveCallers(region, k);
    }
  }

  /** The flag of k asks whether a seed before i leads or follows the same call. */
  ghost predicate Reached(cfg: Config, region: Transcript, i: nat, k: nat)
    requires i <= |region| && k < |region|
  {
    Seeded(cfg, region, k) || exists s :: 0 <= s < i && Seeded(cfg, region, s) && Leader(region, s) == Leader(region, k)
  }

  lemma {:induction false} ReachedStep(cfg: Config, region: Transcript, i: nat, k: nat)
    requires Paired(region) && i < |region| && k < |region|
    ensures Reached(cfg, region, i + 1, k)
            <==> Reached(cfg, region, i, k) || (Reached(cfg, region, i, i) && Leader(region, i) == Leader(region, k))
  {
  }

  lemma {:induction false} SpreadReaches(region: Transcript, keep: seq<bool>, i: nat, k: nat)
    requires Paired(region) && |keep| == |region| && i < |region| && k < |region| && keep[i]
    requires region[i].role.Tool? || (region[i].role.User? || region[i].role.System?)
    ensures Spread(region, keep, i)[k] <==> keep[k] || Leader(region, k) == Leader(region, i)
  {
    var j := Leader(region, i);
    if region[i].role.Tool? {
      ResultsHaveCallers(region, i);
      CallerIsLeader(region, i, i);
      GroupIsLeaderClass(region, j, k);
    } else if Leader(region, k) == i {
      ResultsHaveCallers(region, k);
    }
  }

  lemma {:induction false} SpreadOne(region: Transcript, keep: seq<bool>, i: nat, k: nat)
    requires Paired(region)
    requires |keep| == |region|
    requires i < |region|
    requires k < |region|
    requires keep[i] ==> !region[i].role.Assistant?
    ensures Spread(region, keep, i)[k] <==> keep[k] || (keep[i] && Leader(region, k) == Leader(region, i))
  {
    if keep[i] {
      SpreadReaches(region, keep, i, k);
    }
  }

  /** No assistant message is seeded, and none leads a group seeded before it. */
  lemma {:induction false} AssistantIsNotReached(cfg: Config, region: Transcript, i: nat)
    requires i < |region| && Reached(cfg, region, i, i)
    ensures !region[i].role.Assistant?
  {
  }

  /** Spreading, message by message, in terms of call groups. */
  predicate Marked(cfg: Config, region: Transcript, i: nat, k: nat)
    requires i <= |region| && k < |region|
    decreases i
  {
    if i == 0 then Seeded(cfg, region, k)
    else
      || Marked(cfg, region, i - 1, k)
      || (Marked(cfg, region, i - 1, i - 1) && Leader(region, i - 1) == Leader(region, k))
  }

  lemma {:induction false} MarkedIsReached(cfg: Config, region: Transcript, i: nat, k: nat)
    requires Paired(region) && i <= |region| && k < |region|
    ensures Marked(cfg, region, i, k) <==> Reached(cfg, region, i, k)
    decreases i
  {
    if i > 0 {
      MarkedIsReached(cfg, region, i - 1, k);
      MarkedIsReached(cfg, region, i - 1, i - 1);
      ReachedStep(cfg, region, i - 1, k);
    }
  }

  lemma {:induction false} AssistantIsNotMarked(cfg: Config, region: Transcript, i: nat)
    requires Paired(region) && i < |region| && Marked(cfg, region, i, i)
    ensures !region[i].role.Assistant?
  {
    MarkedIsReached(cfg, region, i, i);
    AssistantIsNotReached(cfg, region, i);
  }

  lemma {:induction false} SpreadToMarks(cfg: Config, region: Transcript, i: nat, k: nat)
    requires Paired(region) && i <= |region| && k < |region|
    ensures SpreadTo(cfg, region, i)[k] <==> Marked(cfg, region, i, k)
    decreases i
  {
    if i > 0 {
      SpreadToMarks(cfg, region, i - 1, k);
      SpreadToMarks(cfg, region, i - 1, i - 1);
      var keep := SpreadTo(cfg, region, i - 1);
      if keep[i - 1] {
        AssistantIsNotMarked(cfg, region, i - 1);
      }
      SpreadOne(region, keep, i - 1, k);
    }
  }

  /** The keep policy on a paired region, in one line: a message is kept exactly when a
      message of its own call group, since the latest digest, is an error result or a
      user-marked turn. No order of marking shows through. */
  lemma {:induction false} KeepPolicyExactly(cfg: Config, region: Transcript, k: nat)
    requires Paired(region) && k < |region|
    ensures KeepFlags(cfg, region)[k]
            <==> exists s :: 0 <= s < |region| && Seeded(cfg, region, s) && Leader(region, s) == Leader(region, k)
  {
    SpreadToMarks(cfg, region, |region|, k);
    MarkedIsReached(cfg, region, |region|, k);
  }

  lemma {:induction false} SameGroupSameFate(cfg: Config, region: Transcript, j: nat, k: nat)
    requires Paired(region) && j < |region| && k < |region| && Leader(region, j) == Leader(region, k)
    ensures KeepFlags(cfg, region)[j] == KeepFlags(cfg, region)[k]
  {
    KeepPolicyExactly(cfg, region, j);
    KeepPolicyExactly(cfg, region, k);
  }

  lemma {:induction false} ResultSharesFate(cfg: Config, region: Transcript, k: nat)
    requires Paired(region) && 0 < k < |region| && region[k].role.Tool?
    ensures KeptFlags(cfg, region)[k] == KeptFlags(cfg, region)[k - 1]
  {
    assert Leader(region, k) == Leader(region, k - 1);
    SameGroupSameFate(cfg, region, k - 1, k);
    ResultsHaveCallers(region, k);
  }

  lemma {:induction false} KeptFlagsTethered(cfg: Config, region: Transcript)
    requires Paired(region)
    ensures Tethered(region, KeptFlags(cfg, region))
  {
    forall k | 0 < k < |region| && region[k].role.Tool?
      ensures KeptFlags(cfg, region)[k] == KeptFlags(cfg, region)[k - 1]
    {
      ResultSharesFate(cfg, region, k);
    }
  }

  // ---------------------------------------------------------------- one fold

  lemma {:induction false} PrefixEndsBeforeNoTool(msgs: Transcript, head: nat)
    requires Paired(msgs) && head < |msgs|
    requires forall k :: 0 <= k < head ==> msgs[k].role.System? || msgs[k].role.User?
    ensures !msgs[head].role.Tool?
  {
    ResultsHaveCallers(msgs, head);
  }

  /** A sound plan cuts a paired history into three paired parts. */
  lemma {:induction false} PlanSplits(msgs: Transcript, head: nat, start: nat)
    requires Paired(msgs) && SoundPlan(msgs, head, start)
    ensures Paired(msgs[..head]) && Paired(msgs[head..start]) && Paired(msgs[start..])
  {
    PrefixEndsBeforeNoTool(msgs, head);
    var front := msgs[..start];
    CutAt(msgs, start);
    PairedSplit(front, msgs[start..]);
    CutAt(front, head);
    assert front[..head] == msgs[..head] && front[head..] == msgs[head..start];
    PairedSplit(front[..head], front[head..]);
  }

  lemma {:induction false} CutAt(s: Transcript, n: nat)
    requires n <= |s|
    ensures s == s[..n] + s[n..]
  {
  }

  /** Compaction never separates a result from its call. */
  lemma {:induction false} FoldKeepsPairing(cfg: Config, msgs: Transcript, head: nat, start: nat, summary: string)
    requires Paired(msgs) && SoundPlan(msgs, head, start)
    ensures Paired(Compacted(cfg, msgs, head, start, summary))
  {
    PlanSplits(msgs, head, start);
    var region := msgs[head..start];
    KeptFlagsTethered(cfg, region);
    FilterKeepsPairing(region, KeptFlags(cfg, region));
    PairedAppend(msgs[..head], Kept(cfg, region));
    JoinAround(msgs[..head] + Kept(cfg, region), DigestMessage(summary), msgs[start..]);
  }

  /** kept and fold are two in-order halves of s. */
  predicate Interleaved(s: Transcript, kept: Transcript, fold: Transcript) {
    if s == [] then kept == [] && fold == []
    else
      || (kept != [] && kept[0] == s[0] && Interleaved(s[1..], kept[1..], fold))
      || (fold != [] && fold[0] == s[0] && Interleaved(s[1..], kept, fold[1..]))
  }

  lemma {:induction false} FilterInterleaves(s: Transcript, flags: seq<bool>)
    requires |s| == |flags|
    ensures Interleaved(s, Filter(s, flags), Filter(s, Not(flags)))
  {
    if s != [] {
      var rest, kept, fold := s[1..], Filter(s[1..], flags[1..]), Filter(s[1..], Not(flags[1..]));
      assert Not(flags)[1..] == Not(flags[1..]);
      FilterInterleaves(rest, flags[1..]);
      if flags[0] {
        assert Filter(s, flags) == [s[0]] + kept && Filter(s, Not(flags)) == [] + fold == fold;
        assert Filter(s, flags)[1..] == kept;
      } else {
        assert Filter(s, flags) == [] + kept == kept && Filter(s, Not(flags)) == [s[0]] + fold;
        assert Filter(s, Not(flags))[1..] == fold;
      }
    }
  }

  lemma {:induction false} InterleavedConserves(s: Transcript, kept: Transcript, fold: Transcript)
    requires Interleaved(s, kept, fold)
    ensures multiset(s) == multiset(kept) + multiset(fold)
    decreases |s|
  {
    if s != [] {
      assert s == [s[0]] + s[1..];
      if kept != [] && kept[0] == s[0] && Interleaved(s[1..], kept[1..], fold) {
        InterleavedConserves(s[1..], kept[1..], fold);
        assert kept == [kept[0]] + kept[1..];
      } else {
        InterleavedConserves(s[1..], kept, fold[1..]);
        assert fold == [fold[0]] + fold[1..];
      }
    }
  }

  /** Conservation: the split keeps order, and the new session plus the fold hold every
      old message exactly as often, plus the one digest. */
  lemma {:induction false} FoldConserves(cfg: Config, msgs: Transcript, head: nat, start: nat, summary: string)
    requires head <= start <= |msgs|
    ensures var region := msgs[head..start];
            && Interleaved(region, Kept(cfg, region), Folded(cfg, region))
            && multiset(msgs) + multiset{DigestMessage(summary)}
               == multiset(Compacted(cfg, msgs, head, start, summary)) + multiset(Folded(cfg, region))
  {
    var region := msgs[head..start];
    SplitConserves(cfg, region);
    InThreeParts(msgs, head, start);
    PartsConserve(msgs, Compacted(cfg, msgs, head, start, summary), msgs[..head], region, msgs[start..],
        Kept(cfg, region), Folded(cfg, region), DigestMessage(summary));
  }

  lemma {:induction false} InThreeParts(msgs: Transcript, head: nat, start: nat)
    requires head <= start <= |msgs|
    ensures msgs == msgs[..head] + msgs[head..start] + msgs[start..]
  {
  }

  lemma {:induction false} PartsConserve(msgs: Transcript, next: Transcript, a: Transcript, region: Transcript,
          z: Transcript, kept: Transcript, fold: Transcript, digest: Message)
    requires msgs == a + region + z && next == a + kept + [digest] + z
    requires multiset(region) == multiset(kept) + multiset(fold)
    ensures multiset(msgs) + multiset{digest} == multiset(next) + multiset(fold)
  {
    MultisetOfParts(a, region, z, kept, fold, digest);
  }

  lemma {:induction false} SplitConserves(cfg: Config, region: Transcript)
    ensures Interleaved(region, Kept(cfg, region), Folded(cfg, region))
    ensures multiset(region) == multiset(Kept(cfg, region)) + multiset(Folded(cfg, region))
  {
    FilterInterleaves(region, KeptFlags(cfg, region));
    InterleavedConserves(region, Kept(cfg, region), Folded(cfg, region));
  }

  lemma {:induction false} MultisetOfParts(a: Transcript, region: Transcript, z: Transcript, kept: Transcript,
          fold: Transcript, digest: Message)
    requires multiset(region) == multiset(kept) + multiset(fold)
    ensures multiset(a + region + z) + multiset{digest} == multiset(a + kept + [digest] + z) + multiset(fold)
  {
    assert multiset(a + region + z) == multiset(a) + multiset(region) + multiset(z);
    assert multiset(a + kept + [digest] + z) == multiset(a) + multiset(kept) + multiset{digest} + multiset(z);
  }

  // ---------------------------------------------------------------- protected turns

  /** A digest, or a user turn small enough to keep verbatim. */
  predicate IsProtected(cfg: Config, m: Message) {
    IsCompactionSummary(m) || (m.role.User? && PinnableUserTurn(cfg, m))
  }

  function Protected(cfg: Config, s: Transcript): Transcript {
    if s == [] then [] else (if IsProtected(cfg, s[0]) then [s[0]] else []) + Protected(cfg, s[1..])
  }

  lemma {:induction false} ProtectedAppend(cfg: Config, a: Transcript, b: Transcript)
    ensures Protected(cfg, a + b) == Protected(cfg, a) + Protected(cfg, b)
  {
    if a == [] {
      assert a + b == b;
    } else {
      assert (a + b)[1..] == a[1..] + b;
      ProtectedAppend(cfg, a[1..], b);
    }
  }

  lemma {:induction false} FilterKeepsProtected(cfg: Config, s: Transcript, flags: seq<bool>)
    requires |s| == |flags| && forall k :: 0 <= k < |s| && IsProtected(cfg, s[k]) ==> flags[k]
    ensures Protected(cfg, Filter(s, flags)) == Protected(cfg, s)
  {
    if s != [] {
      FilterKeepsProtected(cfg, s[1..], flags[1..]);
      ProtectedAppend(cfg, if flags[0] then [s[0]] else [], Filter(s[1..], flags[1..]));
    }
  }

  lemma {:induction false} DigestIsProtected(cfg: Config, summary: string)
    ensures IsProtected(cfg, DigestMessage(summary))
    ensures Protected(cfg, [DigestMessage(summary)]) == [DigestMessage(summary)]
  {
    var content := DigestMessage(summary).content;
    assert content[0] == '<';
    assert TrimLeft(content) == content;
    assert SUMMARY_TAG_OPEN <= content;
  }

  /** A fold leaves the protected turns and digests verbatim and in order and adds its own
      digest between those of the region and those of the tail. */
  lemma {:induction false} FoldKeepsProtected(cfg: Config, msgs: Transcript, head: nat, start: nat, summary: string)
    requires head <= start <= |msgs|
    ensures Protected(cfg, Compacted(cfg, msgs, head, start, summary))
            == Protected(cfg, msgs[..start]) + [DigestMessage(summary)] + Protected(cfg, msgs[start..])
  {
    var region := msgs[head..start];
    var digest := [DigestMessage(summary)];
    FilterKeepsProtected(cfg, region, KeptFlags(cfg, region));
    DigestIsProtected(cfg, summary);
    assert msgs[..start] == msgs[..head] + region;
    ProtectedAppend(cfg, msgs[..head], region);
    ProtectedAppend(cfg, msgs[..head], Kept(cfg, region));
    ProtectedAppend(cfg, msgs[..head] + Kept(cfg, region), digest);
    ProtectedAppend(cfg, msgs[..head] + Kept(cfg, region) + digest, msgs[start..]);
  }

  predicate Subsequence(a: Transcript, b: Transcript) {
    a == [] || (b != [] && ((a[0] == b[0] && Subsequence(a[1..], b[1..])) || Subsequence(a, b[1..])))
  }

  lemma {:induction false} SubsequenceReflexive(a: Transcript)
    ensures Subsequence(a, a)
  {
    if a != [] {
      SubsequenceReflexive(a[1..]);
    }
  }

  lemma {:induction false} SubsequenceOfTail(a: Transcript, b: Transcript)
    requires a != [] && Subsequence(a, b)
    ensures Subsequence(a[1..], b)
    decreases |b|
  {
    if a[0] == b[0] && Subsequence(a[1..], b[1..]) {
      SubsequenceGrows(a[1..], b[1..], b[0]);
      assert [b[0]] + b[1..] == b;
    } else {
      SubsequenceOfTail(a, b[1..]);
      SubsequenceGrows(a[1..], b[1..], b[0]);
      assert [b[0]] + b[1..] == b;
    }
  }

  lemma {:induction false} SubsequenceGrows(a: Transcript, b: Transcript, m: Message)
    requires Subsequence(a, b)
    ensures Subsequence(a, [m] + b)
  {
    assert ([m] + b)[1..] == b;
  }

  lemma {:induction false} SubsequenceTransitive(a: Transcript, b: Transcript, c: Transcript)
    requires Subsequence(a, b) && Subsequence(b, c)
    ensures Subsequence(a, c)
    decreases |c|
  {
    if a != [] {
      if b[0] == c[0] && Subsequence(b[1..], c[1..]) {
        if a[0] == b[0] && Subsequence(a[1..], b[1..]) {
          SubsequenceTransitive(a[1..], b[1..], c[1..]);
        } else {
          SubsequenceTransitive(a, b[1..], c[1..]);
        }
      } else {
        SubsequenceTransitive(a, b, c[1..]);
      }
    }
  }

  lemma {:induction false} SubsequencePrepended(a: Transcript, b: Transcript, m: Message)
    requires Subsequence(a, b)
    ensures Subsequence([m] + a, [m] + b)
  {
    assert ([m] + a)[1..] == a && ([m] + b)[1..] == b;
  }

  lemma {:induction false} PrefixedIsSuper(x: Transcript, b: Transcript)
    ensures Subsequence(b, x + b)
    decreases |x|
  {
    if x == [] {
      assert x + b == b;
      SubsequenceReflexive(b);
    } else {
      PrefixedIsSuper(x[1..], b);
      SubsequenceGrows(b, x[1..] + b, x[0]);
      assert [x[0]] + (x[1..] + b) == x + b;
    }
  }

  lemma {:induction false} InsertionIsSuper(a: Transcript, x: Transcript, b: Transcript)
    ensures Subsequence(a + b, a + x + b)
    decreases |a|
  {
    if a == [] {
      assert a + b == b && a + x + b == x + b;
      PrefixedIsSuper(x, b);
    } else {
      InsertionIsSuper(a[1..], x, b);
      SubsequencePrepended(a[1..] + b, a[1..] + x + b, a[0]);
      HeadOut(a, b);
      HeadOut(a, x);
      HeadOut(a + x, b);
      assert (a + x)[1..] == a[1..] + x;
    }
  }

  lemma {:induction false} HeadOut(a: Transcript, b: Transcript)
    requires a != []
    ensures a + b == [a[0]] + (a[1..] + b)
  {
  }

  // ---------------------------------------------------------------- runs

  /** What happens to one conversation: complete turns are added, sound plans are folded,
      stale results are snipped or pruned. */
  datatype Event =
    | Say(turn: Transcript)
    | Fold(head: nat, start: nat, summary: string)
    | Maintain(head: nat, start: nat, pass: Pass, path: string)

  /** The session, and every original archived so far. */
  datatype Conversation = Conversation(session: Transcript, archived: Transcript)

  predicate Legal(cfg: Config, c: Conversation, e: Event) {
    match e
    case Say(turn) => Paired(turn)
    case Fold(head, start, _) => SoundPlan(c.session, head, start)
    case Maintain(_, start, _, _) => start <= |c.session|
  }

  function Next(cfg: Config, w: Wording, c: Conversation, e: Event): Conversation
    requires Legal(cfg, c, e)
  {
    match e
    case Say(turn) => c.(session := c.session + turn)
    case Fold(head, start, summary) =>
      Conversation(Compacted(cfg, c.session, head, start, summary), c.archived + Folded(cfg, c.session[head..start]))
    case Maintain(head, start, pass, path) =>
      Conversation(Maintained(cfg, w, c.session, head, start, pass, path), c.archived
          + Originals(cfg, c.session, head, start, pass))
  }

  predicate LegalRun(cfg: Config, w: Wording, c: Conversation, es: seq<Event>)
    decreases |es|, 0
  {
    es == [] || (LegalRun(cfg, w, c, es[..|es| - 1]) && Legal(cfg, After(cfg, w, c, es[..|es| - 1]), es[|es| - 1]))
  }

  function After(cfg: Config, w: Wording, c: Conversation, es: seq<Event>): Conversation
    requires LegalRun(cfg, w, c, es)
    decreases |es|, 1
  {
    if es == [] then c else Next(cfg, w, After(cfg, w, c, es[..|es| - 1]), es[|es| - 1])
  }

  lemma {:induction false} RewriteKeepsProtected(cfg: Config, a: Transcript, b: Transcript)
    requires |a| == |b| && forall k :: 0 <= k < |a| ==> a[k] == b[k] || (a[k].role.Tool? && b[k].role.Tool?)
    ensures Protected(cfg, a) == Protected(cfg, b)
  {
    if a != [] {
      RewriteKeepsProtected(cfg, a[1..], b[1..]);
    }
  }

  lemma {:induction false} SayKeepsProtected(cfg: Config, s: Transcript, turn: Transcript)
    ensures Subsequence(Protected(cfg, s), Protected(cfg, s + turn))
  {
    var was, more := Protected(cfg, s), Protected(cfg, turn);
    ProtectedAppend(cfg, s, turn);
    InsertionIsSuper(was, more, []);
    assert was + [] == was && was + more + [] == was + more;
  }

  lemma {:induction false} StepKeepsProtected(cfg: Config, w: Wording, c: Conversation, e: Event)
    requires Legal(cfg, c, e)
    ensures Subsequence(Protected(cfg, c.session), Protected(cfg, Next(cfg, w, c, e).session))
  {
    match e
    case Say(turn) =>
      SayKeepsProtected(cfg, c.session, turn);
    case Fold(head, start, summary) =>
      FoldKeepsProtected(cfg, c.session, head, start, summary);
      assert c.session == c.session[..start] + c.session[start..];
      ProtectedAppend(cfg, c.session[..start], c.session[start..]);
      InsertionIsSuper(Protected(cfg, c.session[..start]), [DigestMessage(summary)],
          Protected(cfg, c.session[start..]));
    case Maintain(head, start, pass, path) =>
      RewriteKeepsProtected(cfg, c.session, Maintained(cfg, w, c.session, head, start, pass, path));
      SubsequenceReflexive(Protected(cfg, c.session));
  }

  /** Durability: through any run, the protected turns and digests a conversation ever
      held stay in it verbatim and in order. */
  lemma {:induction false} ProtectedForever(cfg: Config, w: Wording, c: Conversation, es: seq<Event>, k: nat)
    requires LegalRun(cfg, w, c, es) && k <= |es| && LegalRun(cfg, w, c, es[..k])
    ensures Subsequence(Protected(cfg, After(cfg, w, c, es[..k]).session), Protected(cfg, After(cfg, w, c, es).session))
    decreases |es|
  {
    if k == |es| {
      assert es[..k] == es;
      SubsequenceReflexive(Protected(cfg, After(cfg, w, c, es).session));
    } else {
      var init := es[..|es| - 1];
      assert init[..k] == es[..k];
      ProtectedForever(cfg, w, c, init, k);
      var mid := After(cfg, w, c, init);
      StepKeepsProtected(cfg, w, mid, es[|es| - 1]);
      SubsequenceTransitive(Protected(cfg, After(cfg, w, c, es[..k]).session), Protected(cfg, mid.session),
          Protected(cfg, After(cfg, w, c, es).session));
    }
  }

  /** Pairing holds in every conversation that any run reaches. */
  lemma {:induction false} PairedForever(cfg: Config, w: Wording, c: Conversation, es: seq<Event>)
    requires LegalRun(cfg, w, c, es) && Paired(c.session)
    ensures Paired(After(cfg, w, c, es).session)
    decreases |es|
  {
    if es != [] {
      PairedForever(cfg, w, c, es[..|es| - 1]);
      var mid := After(cfg, w, c, es[..|es| - 1]).session;
      match es[|es| - 1]
      case Say(turn) => PairedAppend(mid, turn);
      case Fold(head, start, summary) => FoldKeepsPairing(cfg, mid, head, start, summary);
      case Maintain(head, start, pass, path) => MaintenanceKeepsPairing(cfg, w, mid, head, start, pass, path);
    }
  }

  lemma {:induction false} OriginalsHold(cfg: Config, msgs: Transcript, head: nat, start: nat, pass: Pass, k: nat)
    requires head <= k < start <= |msgs| && NeedsArchive(cfg, msgs[k], pass)
    ensures msgs[k] in Originals(cfg, msgs, head, start, pass)
  {
    if k < start - 1 {
      OriginalsHold(cfg, msgs, head, start - 1, pass, k);
    }
  }

  /** In the session, or among the archived originals. */
  predicate Held(c: Conversation, m: Message) {
    m in c.session || m in c.archived
  }

  lemma {:induction false} FoldHolds(cfg: Config, msgs: Transcript, head: nat, start: nat, summary: string, m: Message)
    requires head <= start <= |msgs| && m in msgs
    ensures m in Compacted(cfg, msgs, head, start, summary) || m in Folded(cfg, msgs[head..start])
  {
    FoldConserves(cfg, msgs, head, start, summary);
    assert m in multiset(msgs) + multiset{DigestMessage(summary)};
  }

  lemma {:induction false} MaintainHolds(cfg: Config, w: Wording, msgs: Transcript, head: nat, start: nat, pass: Pass,
          path: string, m: Message)
    requires start <= |msgs| && m in msgs && !(m.role.Tool? && SNIPPED_MARKER <= m.content)
    ensures m in Maintained(cfg, w, msgs, head, start, pass, path) || m in Originals(cfg, msgs, head, start, pass)
  {
    var k :| 0 <= k < |msgs| && msgs[k] == m;
    if head <= k < start && Stale(cfg, m, pass) {
      OriginalsHold(cfg, msgs, head, start, pass, k);
    } else {
      assert Maintained(cfg, w, msgs, head, start, pass, path)[k] == m;
    }
  }

  /** A prune forgets this result: it carries the snip marker, so its original is taken to
      be archived, but no archive holds it, and each place it stands in is pruned. */
  predicate Forgets(cfg: Config, c: Conversation, e: Event, m: Message) {
    && e.Maintain? && e.pass.Prune?
    && m.role.Tool? && SNIPPED_MARKER <= m.content && !(cfg.keepErrors && cfg.isErrorText(m.content))
    && m !in c.archived
    && forall k :: 0 <= k < |c.session| && c.session[k] == m ==> e.head <= k < e.start
  }

  lemma {:induction false} OriginalsNeedArchive(cfg: Config, msgs: Transcript, head: nat, start: nat, pass: Pass,
          m: Message)
    requires start <= |msgs| && m in Originals(cfg, msgs, head, start, pass)
    ensures NeedsArchive(cfg, m, pass)
  {
    if m in Originals(cfg, msgs, head, start - 1, pass) {
      OriginalsNeedArchive(cfg, msgs, head, start - 1, pass, m);
    }
  }

  lemma {:induction false} ForgottenIsGone(cfg: Config, w: Wording, c: Conversation, e: Event, m: Message)
    requires Legal(cfg, c, e) && Forgets(cfg, c, e, m)
    ensures !Held(Next(cfg, w, c, e), m)
  {
    SnippedIsNotPruned(m.content);
    assert Stale(cfg, m, e.pass);
    var next := Maintained(cfg, w, c.session, e.head, e.start, e.pass, e.path);
    forall k | 0 <= k < |next| ensures next[k] != m {
      if c.session[k] == m {
        RewritingChanges(cfg, w, m, e.pass, e.path);
      } else if e.head <= k < e.start && Stale(cfg, c.session[k], e.pass) {
        MarkersDiffer();
        assert next[k].content == PRUNED_MARKER + w.pruned(c.session[k], e.path);
      }
    }
    if m in Originals(cfg, c.session, e.head, e.start, e.pass) {
      OriginalsNeedArchive(cfg, c.session, e.head, e.start, e.pass, m);
      assert false;
    }
  }

  lemma {:induction false} UnforgottenStays(cfg: Config, w: Wording, c: Conversation, e: Event, m: Message)
    requires Legal(cfg, c, e) && e.Maintain? && m in c.session && !Forgets(cfg, c, e, m)
    requires m.role.Tool? && SNIPPED_MARKER <= m.content
    ensures Held(Next(cfg, w, c, e), m)
  {
    MarkersDiffer();
    if m !in c.archived {
      var next := Maintained(cfg, w, c.session, e.head, e.start, e.pass, e.path);
      if !e.pass.Prune? || (cfg.keepErrors && cfg.isErrorText(m.content)) {
        var k :| 0 <= k < |c.session| && c.session[k] == m;
        assert next[k] == m;
      } else {
        var k :| 0 <= k < |c.session| && c.session[k] == m && !(e.head <= k < e.start);
        assert next[k] == m;
      }
    }
  }

  /** Conservation, exactly: a step drops a message from session and archive if and only
      if it is a prune that forgets it. */
  lemma {:induction false} LostExactly(cfg: Config, w: Wording, c: Conversation, e: Event, m: Message)
    requires Legal(cfg, c, e) && Held(c, m)
    ensures !Held(Next(cfg, w, c, e), m) <==> Forgets(cfg, c, e, m)
  {
    if Forgets(cfg, c, e, m) {
      ForgottenIsGone(cfg, w, c, e, m);
    } else if !(m.role.Tool? && SNIPPED_MARKER <= m.content) {
      StepHolds(cfg, w, c, e, m);
    } else if m in c.session {
      match e
      case Say(turn) =>
      case Fold(head, start, summary) => FoldHolds(cfg, c.session, head, start, summary, m);
      case Maintain(_, _, _, _) => UnforgottenStays(cfg, w, c, e, m);
    }
  }

  /** The event puts this message into the conversation. */
  ghost predicate Brings(cfg: Config, w: Wording, c: Conversation, e: Event, m: Message)
    requires Legal(cfg, c, e)
  {
    match e
    case Say(turn) => m in turn
    case Fold(_, _, summary) => m == DigestMessage(summary)
    case Maintain(head, start, pass, path) =>
      exists k :: head <= k < start && Stale(cfg, c.session[k], pass) && m == Rewritten(w, c.session[k], pass, path)
  }

  lemma {:induction false} FoldBringsExactly(cfg: Config, msgs: Transcript, head: nat, start: nat, summary: string,
          m: Message)
    requires head <= start <= |msgs| && m !in msgs
    ensures m in Compacted(cfg, msgs, head, start, summary) || m in Folded(cfg, msgs[head..start])
            <==> m == DigestMessage(summary)
  {
    var next, fold := Compacted(cfg, msgs, head, start, summary), Folded(cfg, msgs[head..start]);
    FoldConserves(cfg, msgs, head, start, summary);
    assert m in multiset(next) + multiset(fold) <==> m in multiset(msgs) + multiset{DigestMessage(summary)};
  }

  lemma {:induction false} OriginalsAreOld(cfg: Config, msgs: Transcript, head: nat, start: nat, pass: Pass, m: Message)
    requires start <= |msgs| && m in Originals(cfg, msgs, head, start, pass)
    ensures m in msgs
  {
    if m in Originals(cfg, msgs, head, start - 1, pass) {
      OriginalsAreOld(cfg, msgs, head, start - 1, pass, m);
    }
  }

  lemma {:induction false} MaintainBringsExactly(cfg: Config, w: Wording, c: Conversation, e: Event, m: Message)
    requires Legal(cfg, c, e) && e.Maintain? && !Held(c, m)
    ensures Held(Next(cfg, w, c, e), m) <==> Brings(cfg, w, c, e, m)
  {
    var next := Maintained(cfg, w, c.session, e.head, e.start, e.pass, e.path);
    if m in Originals(cfg, c.session, e.head, e.start, e.pass) {
      OriginalsAreOld(cfg, c.session, e.head, e.start, e.pass, m);
    }
    if m in next {
      var k :| 0 <= k < |next| && next[k] == m;
      assert c.session[k] in c.session;
      assert e.head <= k < e.start && Stale(cfg, c.session[k], e.pass);
    }
    if Brings(cfg, w, c, e, m) {
      var k :| e.head <= k < e.start && Stale(cfg, c.session[k], e.pass)
               && m == Rewritten(w, c.session[k], e.pass, e.path);
      assert next[k] == m;
    }
  }

  lemma {:induction false} NoPruneBringsForgotten(cfg: Config, w: Wording, c: Conversation, e: Event, m: Message)
    requires Legal(cfg, c, e) && Forgets(cfg, c, e, m)
    ensures !Brings(cfg, w, c, e, m)
  {
    MarkersDiffer();
    forall k | e.head <= k < e.start ensures m != Rewritten(w, c.session[k], e.pass, e.path) {
      assert Rewritten(w, c.session[k], e.pass, e.path).content == PRUNED_MARKER + w.pruned(c.session[k], e.path);
    }
  }

  /** What one step holds: what it does not forget, and what it brings. */
  lemma {:induction false} HeldExactly(cfg: Config, w: Wording, c: Conversation, e: Event, m: Message)
    requires Legal(cfg, c, e)
    ensures Held(Next(cfg, w, c, e), m) <==> (Held(c, m) && !Forgets(cfg, c, e, m)) || Brings(cfg, w, c, e, m)
  {
    if Held(c, m) {
      LostExactly(cfg, w, c, e, m);
      if Forgets(cfg, c, e, m) {
        NoPruneBringsForgotten(cfg, w, c, e, m);
      }
    } else {
      match e
      case Say(turn) =>
      case Fold(head, start, summary) => FoldBringsExactly(cfg, c.session, head, start, summary, m);
      case Maintain(_, _, _, _) => MaintainBringsExactly(cfg, w, c, e, m);
    }
    if Held(c, m) && Brings(cfg, w, c, e, m) {
      assert !Forgets(cfg, c, e, m);
    }
  }

  lemma {:induction false} LegalPrefix(cfg: Config, w: Wording, c: Conversation, es: seq<Event>, k: nat)
    requires LegalRun(cfg, w, c, es) && k <= |es|
    ensures LegalRun(cfg, w, c, es[..k])
    ensures k < |es| ==> Legal(cfg, After(cfg, w, c, es[..k]), es[k])
    decreases |es|
  {
    if k < |es| {
      var init := es[..|es| - 1];
      assert init[..k] == es[..k];
      LegalPrefix(cfg, w, c, init, k);
      if k == |init| {
        assert es[..k] == init;
      } else {
        assert init[k] == es[k];
      }
    } else {
      assert es[..k] == es;
    }
  }

  ghost predicate ForgetsAt(cfg: Config, w: Wording, c: Conversation, es: seq<Event>, k: nat, m: Message)
    requires LegalRun(cfg, w, c, es) && k < |es|
  {
    LegalPrefix(cfg, w, c, es, k);
    Forgets(cfg, After(cfg, w, c, es[..k]), es[k], m)
  }

  ghost predicate BringsAt(cfg: Config, w: Wording, c: Conversation, es: seq<Event>, k: nat, m: Message)
    requires LegalRun(cfg, w, c, es) && k < |es|
  {
    LegalPrefix(cfg, w, c, es, k);
    Brings(cfg, w, After(cfg, w, c, es[..k]), es[k], m)
  }

  /** Which steps of a run forget a message, and which bring it. */
  ghost function ForgetsAlong(cfg: Config, w: Wording, c: Conversation, es: seq<Event>, m: Message): (f: seq<bool>)
    requires LegalRun(cfg, w, c, es)
    ensures |f| == |es| && forall j :: 0 <= j < |es| ==> f[j] == ForgetsAt(cfg, w, c, es, j, m)
  {
    seq(|es|, j requires 0 <= j < |es| => ForgetsAt(cfg, w, c, es, j, m))
  }

  ghost function BringsAlong(cfg: Config, w: Wording, c: Conversation, es: seq<Event>, m: Message): (b: seq<bool>)
    requires LegalRun(cfg, w, c, es)
    ensures |b| == |es| && forall j :: 0 <= j < |es| ==> b[j] == BringsAt(cfg, w, c, es, j, m)
  {
    seq(|es|, j requires 0 <= j < |es| => BringsAt(cfg, w, c, es, j, m))
  }

  /** From step k on there is one that forgets, and none after it brings again. */
  ghost predicate Forgotten(forgets: seq<bool>, brings: seq<bool>, k: nat)
    requires |forgets| == |brings|
  {
    exists j :: k <= j < |forgets| && forgets[j] && forall i :: j < i < |brings| ==> !brings[i]
  }

  lemma {:induction false} ForgottenSnoc(forgets: seq<bool>, brings: seq<bool>, k: nat, f: bool, b: bool)
    requires |forgets| == |brings| && k <= |forgets|
    ensures Forgotten(forgets + [f], brings + [b], k) <==> f || (Forgotten(forgets, brings, k) && !b)
  {
    var n := |forgets|;
    if f {
      assert (forgets + [f])[n];
    }
    if Forgotten(forgets, brings, k) && !b {
      var j :| k <= j < n && forgets[j] && forall i :: j < i < n ==> !brings[i];
      assert (forgets + [f])[j];
      assert forall i :: j < i < n + 1 ==> !(brings + [b])[i];
    }
    if Forgotten(forgets + [f], brings + [b], k) && !f {
      var j :| k <= j < n + 1 && (forgets + [f])[j] && forall i :: j < i < n + 1 ==> !(brings + [b])[i];
      assert j < n && forgets[j] && !(brings + [b])[n];
      forall i | j < i < n ensures !brings[i] {
        assert !(brings + [b])[i];
      }
    }
  }

  lemma {:induction false} SameStep(cfg: Config, w: Wording, c: Conversation, es: seq<Event>, j: nat, m: Message)
    requires LegalRun(cfg, w, c, es) && j < |es| - 1
    ensures ForgetsAt(cfg, w, c, es[..|es| - 1], j, m) == ForgetsAt(cfg, w, c, es, j, m)
    ensures BringsAt(cfg, w, c, es[..|es| - 1], j, m) == BringsAt(cfg, w, c, es, j, m)
  {
    assert es[..|es| - 1][..j] == es[..j] && es[..|es| - 1][j] == es[j];
  }

  lemma {:induction false} SameUpToLast(a: seq<bool>, init: seq<bool>)
    requires |a| == |init| + 1 && forall j :: 0 <= j < |init| ==> a[j] == init[j]
    ensures a == init + [a[|init|]]
  {
  }

  lemma {:induction false} AlongSnoc(cfg: Config, w: Wording, c: Conversation, es: seq<Event>, m: Message)
    requires es != [] && LegalRun(cfg, w, c, es)
    ensures var init, last := es[..|es| - 1], |es| - 1;
            && ForgetsAlong(cfg, w, c, es, m) == ForgetsAlong(cfg, w, c, init, m) + [ForgetsAt(cfg, w, c, es, last, m)]
            && BringsAlong(cfg, w, c, es, m) == BringsAlong(cfg, w, c, init, m) + [BringsAt(cfg, w, c, es, last, m)]
  {
    var init, last := es[..|es| - 1], |es| - 1;
    var f, b := ForgetsAlong(cfg, w, c, es, m), BringsAlong(cfg, w, c, es, m);
    forall j | 0 <= j < last
      ensures f[j] == ForgetsAlong(cfg, w, c, init, m)[j] && b[j] == BringsAlong(cfg, w, c, init, m)[j]
    {
      SameStep(cfg, w, c, es, j, m);
    }
    SameUpToLast(f, ForgetsAlong(cfg, w, c, init, m));
    SameUpToLast(b, BringsAlong(cfg, w, c, init, m));
  }

  lemma {:induction false} LastStep(cfg: Config, w: Wording, c: Conversation, es: seq<Event>, m: Message)
    requires es != [] && LegalRun(cfg, w, c, es)
    ensures var before, last := After(cfg, w, c, es[..|es| - 1]), |es| - 1;
            && Held(After(cfg, w, c, es), m) == ((Held(before, m) && !ForgetsAt(cfg, w, c, es, last, m))
                                                 || BringsAt(cfg, w, c, es, last, m))
            && !(ForgetsAt(cfg, w, c, es, last, m) && BringsAt(cfg, w, c, es, last, m))
  {
    var before, e := After(cfg, w, c, es[..|es| - 1]), es[|es| - 1];
    HeldExactly(cfg, w, before, e, m);
    if Forgets(cfg, before, e, m) {
      NoPruneBringsForgotten(cfg, w, before, e, m);
    }
  }

  /** Conservation, exactly and over any run: what was once held is gone at the end if and
      only if some later step forgets it and none after that brings it again. */
  lemma {:induction false} GoneExactly(cfg: Config, w: Wording, c: Conversation, es: seq<Event>, k: nat, m: Message)
    requires LegalRun(cfg, w, c, es) && k <= |es| && LegalRun(cfg, w, c, es[..k])
    requires Held(After(cfg, w, c, es[..k]), m)
    ensures !Held(After(cfg, w, c, es), m) <==>
              Forgotten(ForgetsAlong(cfg, w, c, es, m), BringsAlong(cfg, w, c, es, m), k)
    decreases |es|
  {
    if k == |es| {
      assert es[..k] == es;
    } else {
      var init, last := es[..|es| - 1], |es| - 1;
      assert init[..k] == es[..k];
      GoneExactly(cfg, w, c, init, k, m);
      AlongSnoc(cfg, w, c, es, m);
      ForgottenSnoc(ForgetsAlong(cfg, w, c, init, m), BringsAlong(cfg, w, c, init, m), k,
          ForgetsAt(cfg, w, c, es, last, m), BringsAt(cfg, w, c, es, last, m));
      LastStep(cfg, w, c, es, m);
    }
  }

  /** A turn whose one call is answered by this result. */
  function TurnOf(m: Message, question: string, arguments: string): Transcript {
    [Message(User, question, "", "", []),
     Message(Assistant, "", "", "", [ToolCall(m.toolCallId, m.name, arguments)]), m]
  }

  lemma {:induction false} TurnIsPaired(m: Message, question: string, arguments: string)
    requires m.role.Tool? && m.calls == []
    ensures Paired(TurnOf(m, question, arguments))
  {
    var t := TurnOf(m, question, arguments);
    RunEndIs(t, 1, 1);
    assert t[1..] == [t[1], m];
    RunEndIs([t[1], m], 1, 2);
    assert [t[1], m][1..2] == [m] && [t[1], m][2..] == [] && t[1..1] == [];
    assert [m][0].toolCallId == t[1].calls[0].id;
  }

  /** So every result that arrives with the marker, and is no kept error, can be lost: once
      its turn is said, a prune over it. */
  lemma {:induction false} MarkedResultIsLost(cfg: Config, w: Wording, m: Message, question: string, arguments: string,
          path: string)
    requires m.role.Tool? && m.calls == []
    requires SNIPPED_MARKER <= m.content && !(cfg.keepErrors && cfg.isErrorText(m.content))
    ensures var c, e := Conversation(TurnOf(m, question, arguments), []), Maintain(2, 3, Prune, path);
            Paired(c.session) && Legal(cfg, c, e) && Held(c, m) && !Held(Next(cfg, w, c, e), m)
  {
    var c, e := Conversation(TurnOf(m, question, arguments), []), Maintain(2, 3, Prune, path);
    TurnIsPaired(m, question, arguments);
    assert c.session[2] == m;
    LostExactly(cfg, w, c, e, m);
  }

  lemma {:induction false} StepHolds(cfg: Config, w: Wording, c: Conversation, e: Event, m: Message)
    requires Legal(cfg, c, e) && Held(c, m) && !(m.role.Tool? && SNIPPED_MARKER <= m.content)
    ensures Held(Next(cfg, w, c, e), m)
  {
    if m in c.session {
      match e
      case Say(turn) =>
      case Fold(head, start, summary) => FoldHolds(cfg, c.session, head, start, summary, m);
      case Maintain(head, start, pass, path) => MaintainHolds(cfg, w, c.session, head, start, pass, path, m);
    }
  }

  /** Nothing is lost: with an archive, every message that was ever in the conversation is
      still in it or archived whole, except tool results that already began with the
      snip marker. */
  lemma {:induction false} NothingLost(cfg: Config, w: Wording, c: Conversation, es: seq<Event>, k: nat, m: Message)
    requires LegalRun(cfg, w, c, es) && k <= |es| && LegalRun(cfg, w, c, es[..k])
    requires Held(After(cfg, w, c, es[..k]), m) && !(m.role.Tool? && SNIPPED_MARKER <= m.content)
    ensures Held(After(cfg, w, c, es), m)
    decreases |es|
  {
    if k == |es| {
      assert es[..k] == es;
    } else {
      var init := es[..|es| - 1];
      assert init[..k] == es[..k];
      NothingLost(cfg, w, c, init, k, m);
      StepHolds(cfg, w, After(cfg, w, c, init), es[|es| - 1], m);
    }
  }

  // ---------------------------------------------------------------- summarize from / up to

  function SummarizedUpTo(msgs: Transcript, head: nat, to: nat, digest: Message): Transcript
    requires head <= to <= |msgs|
  {
    msgs[..head] + [digest] + msgs[to..]
  }

  lemma {:induction false} JoinAround(a: Transcript, digest: Message, b: Transcript)
    requires Paired(a) && Paired(b) && !digest.role.Tool? && (digest.role.Assistant? ==> digest.calls == [])
    ensures Paired(a + [digest] + b)
  {
    assert [digest][1..] == [];
    PairedAppend(a, [digest]);
    PairedAppend(a + [digest], b);
  }

  lemma {:induction false} OrphanBreaks(s: Transcript, k: nat)
    requires k + 1 < |s| && s[k].role.User? && s[k + 1].role.Tool?
    ensures !Paired(s)
  {
    if Paired(s) {
      ResultsHaveCallers(s, k + 1);
    }
  }

  /** SummarizeUpTo keeps pairing exactly when it cuts in front of no tool result; a turn
      boundary is such a place. */
  lemma {:induction false} SummarizeUpToExactly(msgs: Transcript, head: nat, to: nat, digest: Message)
    requires Paired(msgs) && head < to <= |msgs| && digest.role.User?
    requires forall k :: 0 <= k < head ==> msgs[k].role.System?
    ensures Paired(SummarizedUpTo(msgs, head, to, digest)) <==> to == |msgs| || !msgs[to].role.Tool?
  {
    if to < |msgs| && msgs[to].role.Tool? {
      OrphanBreaks(SummarizedUpTo(msgs, head, to, digest), head);
    } else {
      PlanSplits(msgs, head, to);
      JoinAround(msgs[..head], digest, msgs[to..]);
    }
  }

  /** SummarizeFrom at a turn boundary keeps what it keeps paired. */
  lemma {:induction false} SummarizeFromKeepsPairing(msgs: Transcript, from: nat, digest: Message)
    requires Paired(msgs) && from < |msgs| && !msgs[from].role.Tool? && digest.role.User?
    ensures Paired(msgs[..from] + [digest])
  {
    assert msgs == msgs[..from] + msgs[from..];
    PairedSplit(msgs[..from], msgs[from..]);
    JoinAround(msgs[..from], digest, []);
    assert msgs[..from] + [digest] + [] == msgs[..from] + [digest];
  }
}
