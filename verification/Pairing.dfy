/** Tool-call pairing of a transcript: each tool result sits in the run of results right
    after the assistant message that called it, and each call is answered there. */
module Pairing {
  import opened Transcripts

  predicate Calls(m: Message, id: string) {
    exists k :: 0 <= k < |m.calls| && m.calls[k].id == id
  }

  /** Where the run of tool results starting at i ends. */
  function RunEnd(s: Transcript, i: nat): (n: nat)
    requires i <= |s|
    ensures i <= n <= |s| && (forall k :: i <= k < n ==> s[k].role.Tool?) && (n < |s| ==> !s[n].role.Tool?)
    decreases |s| - i
  {
    if i < |s| && s[i].role.Tool? then RunEnd(s, i + 1) else i
  }

  predicate HasResult(results: Transcript, id: string) {
    exists k :: 0 <= k < |results| && results[k].toolCallId == id
  }

  /** The results right after a message answer exactly its calls. */
  predicate Answered(m: Message, results: Transcript) {
    if m.role.Assistant? then
      && (forall k :: 0 <= k < |results| ==> Calls(m, results[k].toolCallId))
      && (forall c :: 0 <= c < |m.calls| ==> HasResult(results, m.calls[c].id))
    else results == []
  }

  /** A transcript is a sequence of blocks, each a message with its results. */
  predicate Paired(s: Transcript) {
    s == [] || (!s[0].role.Tool? && var n := RunEnd(s, 1); Answered(s[0], s[1..n]) && Paired(s[n..]))
  }

  /** The nearest message at or before k that is no tool result. */
  function Leader(s: Transcript, k: nat): (j: nat)
    requires k < |s|
    ensures j <= k && (forall i :: j < i <= k ==> s[i].role.Tool?) && (j > 0 ==> !s[j].role.Tool?)
  {
    if k > 0 && s[k].role.Tool? then Leader(s, k - 1) else k
  }

  predicate ResultHasCaller(s: Transcript, k: nat)
    requires k < |s|
  {
    s[k].role.Tool? ==> s[Leader(s, k)].role.Assistant? && Calls(s[Leader(s, k)], s[k].toolCallId)
  }

  predicate CallAnswered(s: Transcript, j: nat, id: string)
    requires j < |s|
  {
    exists k :: j < k < |s| && s[k].role.Tool? && Leader(s, k) == j && s[k].toolCallId == id
  }

  lemma {:induction false} LeaderInFirstBlock(s: Transcript, k: nat)
    requires s != [] && k < |s| && forall i :: 1 <= i <= k ==> s[i].role.Tool?
    ensures Leader(s, k) == 0
  {
    if k > 0 {
      LeaderInFirstBlock(s, k - 1);
    }
  }

  lemma {:induction false} LeaderInRest(s: Transcript, from: nat, k: nat)
    requires from <= k < |s| && !s[from].role.Tool?
    ensures Leader(s, k) == from + Leader(s[from..], k - from)
  {
    if k > from && s[k].role.Tool? {
      LeaderInRest(s, from, k - 1);
    }
  }

  lemma {:induction false} ResultsHaveCallers(s: Transcript, k: nat)
    requires Paired(s) && k < |s|
    ensures ResultHasCaller(s, k)
    decreases |s|
  {
    var n := RunEnd(s, 1);
    if k < n {
      LeaderInFirstBlock(s, k);
      if k > 0 {
        assert s[1..n][k - 1] == s[k];
      }
    } else {
      LeaderInRest(s, n, k);
      ResultsHaveCallers(s[n..], k - n);
    }
  }

  lemma {:induction false} FirstCallsAreAnswered(s: Transcript, n: nat, c: nat)
    requires s != []
    requires s[0].role.Assistant?
    requires c < |s[0].calls|
    requires 1 <= n <= |s|
    requires forall i :: 1 <= i < n ==> s[i].role.Tool?
    requires Answered(s[0], s[1..n])
    ensures CallAnswered(s, 0, s[0].calls[c].id)
  {
    var results, id := s[1..n], s[0].calls[c].id;
    var k :| 0 <= k < |results| && results[k].toolCallId == id;
    LeaderInFirstBlock(s, k + 1);
    assert s[k + 1] == results[k];
  }

  lemma {:induction false} CallsAreAnswered(s: Transcript, j: nat, c: nat)
    requires Paired(s) && j < |s| && s[j].role.Assistant? && c < |s[j].calls|
    ensures CallAnswered(s, j, s[j].calls[c].id)
    decreases |s|
  {
    var n := RunEnd(s, 1);
    if j == 0 {
      FirstCallsAreAnswered(s, n, c);
    } else {
      var rest := s[n..];
      CallsAreAnswered(rest, j - n, c);
      var k :| j - n < k < |rest| && rest[k].role.Tool? && Leader(rest, k) == j - n
          && rest[k].toolCallId == s[j].calls[c].id;
      LeaderInRest(s, n, k + n);
    }
  }

  /** What pairing means message by message: every result has its caller at the head of
      its run, and every call of an assistant message has a result in the run after it. */
  ghost predicate PairedByMessage(s: Transcript) {
    && (forall k :: 0 <= k < |s| ==> ResultHasCaller(s, k))
    && (forall j, c :: 0 <= j < |s| && s[j].role.Assistant? && 0 <= c < |s[j].calls| ==>
       CallAnswered(s, j, s[j].calls[c].id))
  }

  lemma {:induction false} RestPairedByMessage(s: Transcript, n: nat)
    requires PairedByMessage(s) && n < |s| && !s[n].role.Tool?
    ensures PairedByMessage(s[n..])
  {
    var rest := s[n..];
    forall k | 0 <= k < |rest| ensures ResultHasCaller(rest, k) {
      LeaderInRest(s, n, k + n);
      assert ResultHasCaller(s, k + n);
    }
    forall j, c | 0 <= j < |rest| && rest[j].role.Assistant? && 0 <= c < |rest[j].calls|
      ensures CallAnswered(rest, j, rest[j].calls[c].id)
    {
      assert CallAnswered(s, j + n, s[j + n].calls[c].id);
      var k :| j + n < k < |s| && s[k].role.Tool? && Leader(s, k) == j + n && s[k].toolCallId == rest[j].calls[c].id;
      LeaderInRest(s, n, k);
      assert rest[k - n] == s[k];
    }
  }

  lemma {:induction false} FirstBlockAnswered(s: Transcript)
    requires PairedByMessage(s) && s != []
    ensures !s[0].role.Tool? && Answered(s[0], s[1..RunEnd(s, 1)])
  {
    var n := RunEnd(s, 1);
    var results := s[1..n];
    assert ResultHasCaller(s, 0);
    forall k | 0 <= k < |results| ensures s[0].role.Assistant? && Calls(s[0], results[k].toolCallId) {
      LeaderInFirstBlock(s, k + 1);
      assert ResultHasCaller(s, k + 1);
    }
    if s[0].role.Assistant? {
      forall c | 0 <= c < |s[0].calls|
        ensures exists k :: 0 <= k < |results| && results[k].toolCallId == s[0].calls[c].id
      {
        assert CallAnswered(s, 0, s[0].calls[c].id);
        var k :| 0 < k < |s| && s[k].role.Tool? && Leader(s, k) == 0 && s[k].toolCallId == s[0].calls[c].id;
        assert forall i :: 0 < i <= k ==> s[i].role.Tool?;
        assert k < n;
        assert 0 <= k - 1 < |results| && results[k - 1].toolCallId == s[0].calls[c].id;
      }
    } else if results != [] {
      assert false;
    }
  }

  /** The block view and the message view of pairing are the same. */
  lemma {:induction false} PairedMeans(s: Transcript)
    ensures Paired(s) <==> PairedByMessage(s)
    decreases |s|
  {
    if Paired(s) {
      forall k | 0 <= k < |s| ensures ResultHasCaller(s, k) { ResultsHaveCallers(s, k); }
      forall j, c | 0 <= j < |s| && s[j].role.Assistant? && 0 <= c < |s[j].calls|
        ensures CallAnswered(s, j, s[j].calls[c].id)
      {
        CallsAreAnswered(s, j, c);
      }
    }
    if PairedByMessage(s) && s != [] {
      FirstBlockAnswered(s);
      var n := RunEnd(s, 1);
      if n < |s| {
        RestPairedByMessage(s, n);
        PairedMeans(s[n..]);
      }
    }
  }

  lemma {:induction false} RunEndIs(s: Transcript, i: nat, n: nat)
    requires i <= n <= |s| && (forall k :: i <= k < n ==> s[k].role.Tool?) && (n < |s| ==> !s[n].role.Tool?)
    ensures RunEnd(s, i) == n
    decreases n - i
  {
    if i < n {
      RunEndIs(s, i + 1, n);
    }
  }

  /** The first block of a history that another one follows. */
  lemma {:induction false} FirstBlockOfAppend(a: Transcript, b: Transcript)
    requires a != [] && (b == [] || !b[0].role.Tool?)
    ensures var n := RunEnd(a, 1);
            RunEnd(a + b, 1) == n && (a + b)[0] == a[0] && (a + b)[1..n] == a[1..n] && (a + b)[n..] == a[n..] + b
  {
    var s, n := a + b, RunEnd(a, 1);
    assert forall k :: 0 <= k < n ==> s[k] == a[k];
    assert n < |s| ==> s[n] == if n < |a| then a[n] else b[0];
    RunEndIs(s, 1, n);
  }

  lemma {:induction false} PairedAppend(a: Transcript, b: Transcript)
    requires Paired(a) && Paired(b)
    ensures Paired(a + b)
    decreases |a|
  {
    if a == [] {
      assert a + b == b;
    } else {
      FirstBlockOfAppend(a, b);
      PairedAppend(a[RunEnd(a, 1)..], b);
    }
  }

  /** Cutting in front of a message that is no tool result severs nothing. */
  lemma {:induction false} PairedSplit(a: Transcript, b: Transcript)
    requires Paired(a + b) && (b == [] || !b[0].role.Tool?)
    ensures Paired(a) && Paired(b)
    decreases |a|
  {
    if a == [] {
      assert a + b == b;
    } else {
      var s := a + b;
      var n := RunEnd(s, 1);
      assert b != [] ==> s[|a|] == b[0];
      assert n <= |a|;
      forall k | 1 <= k < n ensures a[k].role.Tool? { assert a[k] == s[k]; }
      RunEndIs(a, 1, n);
      assert s[1..n] == a[1..n];
      assert s[n..] == a[n..] + b;
      PairedSplit(a[n..], b);
    }
  }

  predicate SameShape(a: Transcript, b: Transcript) {
    |a| == |b| && forall k :: 0 <= k < |a| ==>
        a[k].role == b[k].role && a[k].toolCallId == b[k].toolCallId && a[k].calls == b[k].calls
  }

  lemma {:induction false} ShapeKeepsAnswers(m: Message, a: Transcript, m': Message, b: Transcript)
    requires m.role == m'.role && m.calls == m'.calls && SameShape(a, b) && Answered(m, a)
    ensures Answered(m', b)
  {
    if m.role.Assistant? {
      forall k | 0 <= k < |b| ensures Calls(m', b[k].toolCallId) {
        assert Calls(m, a[k].toolCallId);
      }
      forall c | 0 <= c < |m'.calls| ensures HasResult(b, m'.calls[c].id) {
        var id := m.calls[c].id;
        assert HasResult(a, id);
        var k :| 0 <= k < |a| && a[k].toolCallId == id;
        assert a[k].role == b[k].role && b[k].toolCallId == id;
      }
    } else {
      assert |b| == |a| == 0 && b == [];
    }
  }

  lemma {:induction false} ShapeDecidesPairing(a: Transcript, b: Transcript)
    requires SameShape(a, b) && Paired(a)
    ensures Paired(b)
    decreases |a|
  {
    if a != [] {
      var n := RunEnd(a, 1);
      forall k | 1 <= k < n ensures b[k].role.Tool? { assert a[k].role == b[k].role; }
      assert n < |a| ==> a[n].role == b[n].role;
      RunEndIs(b, 1, n);
      ShapeKeepsAnswers(a[0], a[1..n], b[0], b[1..n]);
      ShapeDecidesPairing(a[n..], b[n..]);
    }
  }

  // ---------------------------------------------------------------- filtering

  function Filter(s: Transcript, flags: seq<bool>): (r: Transcript)
    requires |s| == |flags|
  {
    if s == [] then [] else (if flags[0] then [s[0]] else []) + Filter(s[1..], flags[1..])
  }

  lemma {:induction false} FilterAppend(a: Transcript, fa: seq<bool>, b: Transcript, fb: seq<bool>)
    requires |a| == |fa| && |b| == |fb|
    ensures Filter(a + b, fa + fb) == Filter(a, fa) + Filter(b, fb)
  {
    if a == [] {
      assert a + b == b && fa + fb == fb;
    } else {
      FilterAppend(a[1..], fa[1..], b, fb);
      var s, f := a + b, fa + fb;
      assert s[0] == a[0] && f[0] == fa[0] && s[1..] == a[1..] + b && f[1..] == fa[1..] + fb;
      var head := if fa[0] then [a[0]] else [];
      calc {
        Filter(s, f);
        head + Filter(s[1..], f[1..]);
        head + (Filter(a[1..], fa[1..]) + Filter(b, fb));
        Filter(a, fa) + Filter(b, fb);
      }
    }
  }

  lemma {:induction false} FilterUniform(s: Transcript, flags: seq<bool>, on: bool)
    requires |s| == |flags| && forall k :: 0 <= k < |s| ==> flags[k] == on
    ensures Filter(s, flags) == if on then s else []
  {
    if s != [] {
      FilterUniform(s[1..], flags[1..], on);
    }
  }

  /** Every tool result shares the flag of the message before it. */
  predicate Tethered(s: Transcript, flags: seq<bool>)
    requires |s| == |flags|
  {
    forall k :: 0 < k < |s| && s[k].role.Tool? ==> flags[k] == flags[k - 1]
  }

  lemma {:induction false} FlagOfBlock(s: Transcript, flags: seq<bool>, k: nat)
    requires |s| == |flags| && Tethered(s, flags) && k < |s| && forall i :: 1 <= i <= k ==> s[i].role.Tool?
    ensures flags[k] == flags[0]
  {
    if k > 0 {
      FlagOfBlock(s, flags, k - 1);
    }
  }

  /** A filter that treats each result like the message before it keeps pairing. */
  lemma {:induction false} FilterKeepsPairing(s: Transcript, flags: seq<bool>)
    requires |s| == |flags| && Paired(s) && Tethered(s, flags)
    ensures Paired(Filter(s, flags))
    decreases |s|
  {
    if s != [] {
      var n := RunEnd(s, 1);
      var block, rest := s[..n], s[n..];
      forall k | 0 <= k < n ensures flags[..n][k] == flags[0] {
        FlagOfBlock(s, flags, k);
      }
      assert s == block + rest && flags == flags[..n] + flags[n..];
      FilterAppend(block, flags[..n], rest, flags[n..]);
      FilterUniform(block, flags[..n], flags[0]);
      assert Tethered(rest, flags[n..]);
      FilterKeepsPairing(rest, flags[n..]);
      if flags[0] {
        PairedSplit(block, rest);
        PairedAppend(block, Filter(rest, flags[n..]));
      } else {
        assert [] + Filter(rest, flags[n..]) == Filter(rest, flags[n..]);
      }
    }
  }
}
