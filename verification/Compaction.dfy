/** Folding the older middle of a conversation into a digest: planning, the keep policy,
    the split, and one compaction pass (internal/agent/compact.go). */
module Compaction {
  import opened Transcripts
  import opened Pairing

  const SUMMARY_TAG_OPEN: string := "<compaction-summary>"
  const SUMMARY_TAG_CLOSE: string := "</compaction-summary>"
  const DEFAULT_TAIL_TOKENS: nat := 16384
  const MIN_RECENT_KEEP: nat := 2
  const MIN_COMPACT_MESSAGES: nat := 2

  /** Window and keep policy of one agent, with what the model leaves abstract: the token
      estimate of a message at a fixed tokens-per-char ratio, the pinning budget it is held
      against, the tests on message text, and the fold economics. */
  datatype Config = Config(window: nat, recentKeep: nat, keepErrors: bool, keepUserMarked: bool, pinBudget: nat,
                           cost: Message -> nat, isErrorText: string -> bool, isMarkedText: string -> bool,
                           worthFolding: Transcript -> bool)

  function TrimLeft(s: string): string {
    if s != "" && (s[0] == '\n' || s[0] == ' ') then TrimLeft(s[1..]) else s
  }

  predicate IsCompactionSummary(m: Message) {
    m.role.User? && SUMMARY_TAG_OPEN <= TrimLeft(m.content)
  }

  predicate PinnableUserTurn(cfg: Config, m: Message) {
    cfg.cost(m) <= cfg.pinBudget
  }

  predicate ShouldKeep(cfg: Config, m: Message) {
    (cfg.keepErrors && m.role.Tool? && cfg.isErrorText(m.content))
    || (cfg.keepUserMarked && m.role.User? && cfg.isMarkedText(m.content))
  }

  function Cost(cfg: Config, s: Transcript): nat {
    if s == [] then 0 else cfg.cost(s[0]) + Cost(cfg, s[1..])
  }

  function TailFloor(cfg: Config): nat {
    if cfg.recentKeep > MIN_RECENT_KEEP then cfg.recentKeep else MIN_RECENT_KEEP
  }

  // ---------------------------------------------------------------- planning

  function DigestRunEnd(msgs: Transcript, i: nat): (n: nat)
    requires i <= |msgs|
    ensures i <= n <= |msgs|
    ensures forall k :: i <= k < n ==> IsCompactionSummary(msgs[k])
    ensures n < |msgs| ==> !IsCompactionSummary(msgs[n])
    decreases |msgs| - i
  {
    if i < |msgs| && IsCompactionSummary(msgs[i]) then DigestRunEnd(msgs, i + 1) else i
  }

  /** The leading messages kept verbatim: a system prompt, a small first user turn and the
      run of digests after them. */
  function PinnedPrefix(cfg: Config, msgs: Transcript): (i: nat)
    ensures i <= |msgs|
    ensures forall k :: 0 <= k < i ==> msgs[k].role.System? || msgs[k].role.User?
    ensures forall k :: 0 <= k < i && msgs[k].role.User? ==>
            IsCompactionSummary(msgs[k]) || PinnableUserTurn(cfg, msgs[k])
  {
    var afterSystem := if msgs != [] && msgs[0].role.System? then 1 else 0;
    var pinsUser := afterSystem < |msgs| && msgs[afterSystem].role.User? && !IsCompactionSummary(msgs[afterSystem])
        && PinnableUserTurn(cfg, msgs[afterSystem]);
    DigestRunEnd(msgs, if pinsUser then afterSystem + 1 else afterSystem)
  }

  method PinnedPrefixLen(cfg: Config, msgs: Transcript) returns (i: nat)
    ensures i == PinnedPrefix(cfg, msgs)
  {
    i := 0;
    if i < |msgs| && msgs[i].role.System? {
      i := i + 1;
    }
    if i < |msgs| && msgs[i].role.User? && !IsCompactionSummary(msgs[i]) && PinnableUserTurn(cfg, msgs[i]) {
      i := i + 1;
    }
    while i < |msgs| && IsCompactionSummary(msgs[i])
      invariant i <= |msgs| && DigestRunEnd(msgs, i) == PinnedPrefix(cfg, msgs)
    {
      i := i + 1;
    }
  }

  /** The longest tail behind head that stays within budget, but for its last minKeep
      messages, going back from cut. */
  function CutFrom(cfg: Config, msgs: Transcript, head: nat, budget: nat, minKeep: nat, cut: nat): (r: nat)
    requires cut <= |msgs|
    ensures r <= cut && (head <= cut ==> head <= r)
    decreases cut
  {
    if cut <= head + 1 || (|msgs| - cut >= minKeep && Cost(cfg, msgs[cut - 1..]) > budget) then cut
    else CutFrom(cfg, msgs, head, budget, minKeep, cut - 1)
  }

  /** Before alignment the tail has at most minKeep messages or fits the budget, and one
      message more would break both, unless it reaches back to the pinned prefix. */
  lemma {:induction false} CutIsLongestFit(cfg: Config, msgs: Transcript, head: nat, budget: nat, minKeep: nat,
          cut: nat)
    requires cut <= |msgs| && (|msgs| - cut <= minKeep || Cost(cfg, msgs[cut..]) <= budget)
    ensures var r := CutFrom(cfg, msgs, head, budget, minKeep, cut);
            && (|msgs| - r <= minKeep || Cost(cfg, msgs[r..]) <= budget)
            && (r > head + 1 ==> |msgs| - r >= minKeep && Cost(cfg, msgs[r - 1..]) > budget)
    decreases cut
  {
    if !(cut <= head + 1 || (|msgs| - cut >= minKeep && Cost(cfg, msgs[cut - 1..]) > budget)) {
      CutIsLongestFit(cfg, msgs, head, budget, minKeep, cut - 1);
    }
  }

  method TailCut(cfg: Config, msgs: Transcript, head: nat, budget: nat, minKeep: nat) returns (cut: nat)
    ensures cut == CutFrom(cfg, msgs, head, budget, minKeep, |msgs|)
  {
    cut := |msgs|;
    var acc := 0;
    var i := |msgs| - 1;
    assert msgs[cut..] == [];
    while i > head
      invariant -1 <= i && cut == i + 1 <= |msgs|
      invariant acc == Cost(cfg, msgs[cut..])
      invariant CutFrom(cfg, msgs, head, budget, minKeep, |msgs|) == CutFrom(cfg, msgs, head, budget, minKeep, cut)
    {
      var c := cfg.cost(msgs[i]);
      assert msgs[i..][1..] == msgs[i + 1..];
      if |msgs| - i > minKeep && acc + c > budget {
        return;
      }
      acc := acc + c;
      cut := i;
      i := i - 1;
    }
  }

  /** Alignment backs a cut off the results in front of it, no further than head. */
  function AlignedOff(msgs: Transcript, head: nat, cut: nat): (start: nat)
    requires cut <= |msgs|
    ensures start <= cut && (head <= cut ==> head <= start)
    ensures start <= head || start == |msgs| || !msgs[start].role.Tool?
    ensures forall k :: start < k <= cut && k < |msgs| ==> msgs[k].role.Tool?
  {
    if cut > head && cut < |msgs| && msgs[cut].role.Tool? then AlignedOff(msgs, head, cut - 1) else cut
  }

  method AlignOffTools(msgs: Transcript, head: nat, cut: nat) returns (start: nat)
    requires cut <= |msgs|
    ensures start == AlignedOff(msgs, head, cut)
  {
    start := cut;
    while start > head && start < |msgs| && msgs[start].role.Tool?
      invariant start <= cut && AlignedOff(msgs, head, start) == AlignedOff(msgs, head, cut)
    {
      start := start - 1;
    }
  }

  function PlanStart(cfg: Config, msgs: Transcript): (start: nat)
    ensures PinnedPrefix(cfg, msgs) <= start <= |msgs|
  {
    var head := PinnedPrefix(cfg, msgs);
    if cfg.window > 0 then
      var budget := if cfg.window / 2 < DEFAULT_TAIL_TOKENS then cfg.window / 2 else DEFAULT_TAIL_TOKENS;
      AlignedOff(msgs, head, CutFrom(cfg, msgs, head, budget, TailFloor(cfg), |msgs|))
    else if |msgs| < TailFloor(cfg) + head then head
    else AlignedOff(msgs, head, |msgs| - TailFloor(cfg))
  }

  /** A plan that a pass may act on: the prefix holds no calls and no results, and the
      tail does not begin with a result. */
  predicate SoundPlan(msgs: Transcript, head: nat, start: nat) {
    && head < start <= |msgs|
    && (forall k :: 0 <= k < head ==> msgs[k].role.System? || msgs[k].role.User?)
    && (start < |msgs| ==> !msgs[start].role.Tool?)
  }

  lemma {:induction false} PlanIsSound(cfg: Config, msgs: Transcript)
    ensures PinnedPrefix(cfg, msgs) < PlanStart(cfg, msgs) ==>
            SoundPlan(msgs, PinnedPrefix(cfg, msgs), PlanStart(cfg, msgs))
  {
  }

  method PlanCompaction(cfg: Config, msgs: Transcript, min: nat) returns (head: nat, start: nat, ok: bool)
    ensures head == PinnedPrefix(cfg, msgs) && start == PlanStart(cfg, msgs) && (ok <==> start - head >= min)
  {
    head := PinnedPrefixLen(cfg, msgs);
    if cfg.window > 0 {
      var budget := if cfg.window / 2 < DEFAULT_TAIL_TOKENS then cfg.window / 2 else DEFAULT_TAIL_TOKENS;
      var cut := TailCut(cfg, msgs, head, budget, TailFloor(cfg));
      start := AlignOffTools(msgs, head, cut);
    } else if |msgs| < TailFloor(cfg) + head {
      start := head;
    } else {
      start := AlignOffTools(msgs, head, |msgs| - TailFloor(cfg));
    }
    ok := start - head >= min;
  }

  // ---------------------------------------------------------------- the keep policy

  /** Messages since the latest digest are the only ones the policy applies to. */
  function PolicyStart(region: Transcript): (p: nat)
    ensures p <= |region|
    ensures forall k :: p <= k < |region| ==> !IsCompactionSummary(region[k])
    ensures p > 0 ==> IsCompactionSummary(region[p - 1])
  {
    if region == [] then 0
    else if IsCompactionSummary(region[|region| - 1]) then |region|
    else
      var init := region[..|region| - 1];
      assert forall k :: 0 <= k < |init| ==> init[k] == region[k];
      PolicyStart(init)
  }

  predicate Seeded(cfg: Config, region: Transcript, k: nat)
    requires k < |region|
  {
    k >= PolicyStart(region) && ShouldKeep(cfg, region[k])
  }

  /** The assistant message at j and the results of its own calls right after it. */
  predicate InGroup(region: Transcript, j: nat, k: nat)
    requires j < |region| && k < |region|
  {
    region[j].role.Assistant? && region[j].calls != []
    && (k == j || (j < k < RunEnd(region, j + 1) && Calls(region[j], region[k].toolCallId)))
  }

  function KeepGroup(region: Transcript, keep: seq<bool>, j: nat): (r: seq<bool>)
    requires |keep| == |region| && j < |region|
    ensures |r| == |keep|
  {
    seq(|keep|, k requires 0 <= k < |keep| => keep[k] || InGroup(region, j, k))
  }

  /** The nearest earlier assistant message with a call of that id. */
  function NearestCaller(region: Transcript, before: nat, id: string): (j: int)
    requires before <= |region|
    ensures -1 <= j < before && (j >= 0 ==> region[j].role.Assistant? && Calls(region[j], id))
  {
    if before == 0 then -1
    else if region[before - 1].role.Assistant? && Calls(region[before - 1], id) then before - 1
    else NearestCaller(region, before - 1, id)
  }

  function Spread(region: Transcript, keep: seq<bool>, i: nat): (r: seq<bool>)
    requires |keep| == |region| && i < |region|
    ensures |r| == |keep|
  {
    if !keep[i] then keep
    else match region[i].role
      case Tool => var j := NearestCaller(region, i, region[i].toolCallId);
        if j >= 0 then KeepGroup(region, keep, j) else keep
      case Assistant => KeepGroup(region, keep, i)
      case _ => keep
  }

  /** The flags after the first i messages have been spread, in order, each seeing what
      the earlier ones marked. */
  function SpreadTo(cfg: Config, region: Transcript, i: nat): (r: seq<bool>)
    requires i <= |region|
    ensures |r| == |region|
  {
    if i == 0 then seq(|region|, k requires 0 <= k < |region| => Seeded(cfg, region, k))
    else Spread(region, SpreadTo(cfg, region, i - 1), i - 1)
  }

  function KeepFlags(cfg: Config, region: Transcript): (r: seq<bool>)
    ensures |r| == |region|
  {
    SpreadTo(cfg, region, |region|)
  }

  method FindToolCaller(region: Transcript, toolIndex: nat, id: string) returns (j: int)
    requires toolIndex <= |region|
    ensures j == NearestCaller(region, toolIndex, id)
  {
    var i := toolIndex - 1;
    while i >= 0
      invariant -1 <= i < toolIndex
      invariant NearestCaller(region, toolIndex, id) == NearestCaller(region, i + 1, id)
    {
      if region[i].role.Assistant? {
        for c := 0 to |region[i].calls|
          invariant forall d :: 0 <= d < c ==> region[i].calls[d].id != id
        {
          if region[i].calls[c].id == id {
            return i;
          }
        }
      }
      i := i - 1;
    }
    return -1;
  }

  method KeepToolCallGroup(region: Transcript, keep: array<bool>, assistantIndex: int)
    requires keep.Length == |region|
    modifies keep
    ensures keep[..] == if 0 <= assistantIndex < |region| then KeepGroup(region, old(keep[..]), assistantIndex)
            else old(keep[..])
  {
    if assistantIndex < 0 || assistantIndex >= |region| {
      return;
    }
    var m := region[assistantIndex];
    if !m.role.Assistant? || m.calls == [] {
      return;
    }
    keep[assistantIndex] := true;
    var j := assistantIndex + 1;
    while j < |region| && region[j].role.Tool?
      invariant assistantIndex < j <= RunEnd(region, assistantIndex + 1) == RunEnd(region, j)
      invariant forall k :: 0 <= k < |region| ==>
                keep[k] == (old(keep[k]) || (k < j && InGroup(region, assistantIndex, k)))
    {
      if Calls(m, region[j].toolCallId) {
        keep[j] := true;
      }
      j := j + 1;
    }
  }

  method FindPolicyStart(region: Transcript) returns (policyStart: nat)
    ensures policyStart == PolicyStart(region)
  {
    policyStart := 0;
    for i := 0 to |region|
      invariant policyStart <= i && (forall k :: policyStart <= k < i ==> !IsCompactionSummary(region[k]))
      invariant policyStart > 0 ==> IsCompactionSummary(region[policyStart - 1])
    {
      if IsCompactionSummary(region[i]) {
        policyStart := i + 1;
      }
    }
  }

  method KeepIndexes(cfg: Config, region: Transcript) returns (keep: array<bool>)
    ensures fresh(keep) && keep[..] == KeepFlags(cfg, region)
  {
    keep := new bool[|region|](_ => false);
    var policyStart := FindPolicyStart(region);
    for i := 0 to |region|
      invariant forall k :: 0 <= k < |region| ==> keep[k] == (k < i && Seeded(cfg, region, k))
    {
      if i >= policyStart && ShouldKeep(cfg, region[i]) {
        keep[i] := true;
      }
    }
    assert keep[..] == SpreadTo(cfg, region, 0);
    for i := 0 to |region|
      invariant keep[..] == SpreadTo(cfg, region, i)
    {
      if keep[i] {
        match region[i].role {
          case Tool =>
            var j := FindToolCaller(region, i, region[i].toolCallId);
            if j >= 0 {
              KeepToolCallGroup(region, keep, j);
            }
          case Assistant =>
            KeepToolCallGroup(region, keep, i);
          case _ =>
        }
      }
    }
  }

  /** What survives a fold of the region verbatim. */
  function KeptFlags(cfg: Config, region: Transcript): (r: seq<bool>)
    ensures |r| == |region|
  {
    var policy := KeepFlags(cfg, region);
    seq(|region|, k requires 0 <= k < |region| =>
      policy[k] || IsCompactionSummary(region[k]) || (region[k].role.User? && PinnableUserTurn(cfg, region[k])))
  }

  function Not(flags: seq<bool>): (r: seq<bool>)
    ensures |r| == |flags|
  {
    seq(|flags|, k requires 0 <= k < |flags| => !flags[k])
  }

  function Kept(cfg: Config, region: Transcript): Transcript {
    Filter(region, KeptFlags(cfg, region))
  }

  function Folded(cfg: Config, region: Transcript): Transcript {
    Filter(region, Not(KeptFlags(cfg, region)))
  }

  lemma {:induction false} FilterSnoc(s: Transcript, flags: seq<bool>, m: Message, on: bool)
    requires |s| == |flags|
    ensures Filter(s + [m], flags + [on]) == Filter(s, flags) + if on then [m] else []
  {
    FilterAppend(s, flags, [m], [on]);
  }

  method PartitionFold(cfg: Config, region: Transcript) returns (kept: Transcript, fold: Transcript)
    ensures kept == Kept(cfg, region) && fold == Folded(cfg, region)
  {
    var policyKeep := KeepIndexes(cfg, region);
    var flags := KeptFlags(cfg, region);
    kept, fold := [], [];
    for i := 0 to |region|
      invariant policyKeep[..] == KeepFlags(cfg, region)
      invariant kept == Filter(region[..i], flags[..i]) && fold == Filter(region[..i], Not(flags)[..i])
    {
      assert policyKeep[..][i] == policyKeep[i];
      assert region[..i + 1] == region[..i] + [region[i]] && flags[..i + 1] == flags[..i] + [flags[i]]
          && Not(flags)[..i + 1] == Not(flags)[..i] + [!flags[i]];
      FilterSnoc(region[..i], flags[..i], region[i], flags[i]);
      FilterSnoc(region[..i], Not(flags)[..i], region[i], !flags[i]);
      if policyKeep[i] || IsCompactionSummary(region[i]) || (region[i].role.User? && PinnableUserTurn(cfg, region[i])) {
        kept := kept + [region[i]];
      } else {
        fold := fold + [region[i]];
      }
    }
    assert region[..|region|] == region && flags[..|region|] == flags && Not(flags)[..|region|] == Not(flags);
  }

  // ---------------------------------------------------------------- one pass

  function DigestMessage(summary: string): Message {
    var intro := "Summary of earlier conversation (older messages were compacted to save context):";
    Message(User, SUMMARY_TAG_OPEN + "\n" + intro + "\n" + summary + "\n" + SUMMARY_TAG_CLOSE, "", "", [])
  }

  function Compacted(cfg: Config, msgs: Transcript, head: nat, start: nat, summary: string): Transcript
    requires head <= start <= |msgs|
  {
    msgs[..head] + Kept(cfg, msgs[head..start]) + [DigestMessage(summary)] + msgs[start..]
  }

  /** The session of one agent and the originals its passes have archived. */
  class Agent {
    var messages: Transcript
    var version: nat
    var rewriteVersion: nat
    var archive: seq<Transcript>

    constructor (msgs: Transcript)
      ensures messages == msgs && version == 0 && rewriteVersion == 0 && archive == []
    {
      messages, version, rewriteVersion, archive := msgs, 0, 0, [];
    }

    method Add(m: Message)
      modifies this`messages, this`version
      ensures messages == old(messages) + [m] && version == old(version) + 1
    {
      messages, version := messages + [m], version + 1;
    }

    /** Session.Replace followed by IncrementRewrite. */
    method Rewrite(ms: Transcript)
      modifies this`messages, this`version, this`rewriteVersion
      ensures messages == ms && version == old(version) + 2 && rewriteVersion == old(rewriteVersion) + 1
    {
      messages, version := ms, version + 1;
      rewriteVersion, version := rewriteVersion + 1, version + 1;
    }

    /** compact: summary is what the summarizer or the mechanical fallback returns;
        archives tells whether an archive directory is set, archiveOk whether it can be
        written. Either nothing changes or the folded part of the plan is archived and
        replaced by a digest. */
    method Compact(cfg: Config, force: bool, summary: string, archives: bool, archiveOk: bool) returns (folded: bool)
      modifies this
      ensures folded <==> Folds(cfg, old(messages), force) && (archives ==> archiveOk)
      ensures !folded ==>
              messages == old(messages) && version == old(version) && rewriteVersion == old(rewriteVersion)
              && archive == old(archive)
      ensures folded ==> var head, start := PinnedPrefix(cfg, old(messages)), PlanStart(cfg, old(messages));
                && messages == Compacted(cfg, old(messages), head, start, summary)
                && archive == old(archive) + (if archives then [Folded(cfg, old(messages)[head..start])] else [])
                && version == old(version) + 2 && rewriteVersion == old(rewriteVersion) + 1
    {
      var ok, next, fold := PlanFold(cfg, messages, summary);
      if !ok || fold == [] || (!force && !cfg.worthFolding(fold)) || (archives && !archiveOk) {
        return false;
      }
      if archives {
        archive := archive + [fold];
      }
      Rewrite(next);
      folded := true;
    }
  }

  /** The plan covers something, some of it is not kept, and folding it pays or is forced. */
  predicate Folds(cfg: Config, msgs: Transcript, force: bool) {
    && PinnedPrefix(cfg, msgs) < PlanStart(cfg, msgs)
    && var fold := Folded(cfg, msgs[PinnedPrefix(cfg, msgs)..PlanStart(cfg, msgs)]);
       fold != [] && (force || cfg.worthFolding(fold))
  }

  /** A pass on values: first asks for two messages to fold, then settles for one. */
  method PlanFold(cfg: Config, msgs: Transcript, summary: string) returns (ok: bool, next: Transcript, fold: Transcript)
    ensures ok <==> PinnedPrefix(cfg, msgs) < PlanStart(cfg, msgs)
    ensures ok ==> var head, start := PinnedPrefix(cfg, msgs), PlanStart(cfg, msgs);
              next == Compacted(cfg, msgs, head, start, summary) && fold == Folded(cfg, msgs[head..start])
  {
    next, fold := msgs, [];
    var head, start;
    head, start, ok := PlanCompaction(cfg, msgs, MIN_COMPACT_MESSAGES);
    if !ok {
      head, start, ok := PlanCompaction(cfg, msgs, 1);
    }
    if ok {
      var kept;
      kept, fold := PartitionFold(cfg, msgs[head..start]);
      next := msgs[..head] + kept + [DigestMessage(summary)] + msgs[start..];
    }
  }
}
