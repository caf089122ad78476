/** Dispatching one model turn's tool calls: partition into batches, parallel execution
    of read-only runs, and cancellation (internal/agent/agent.go). */
module ToolBatch {
  import opened Transcripts

  const MAX_PARALLEL: nat := 8

  /** Known tools, and whether each is read-only. */
  type Registry = map<string, bool>

  predicate Parallelisable(r: Registry, name: string) {
    name != "complete_step" && name != "todo_write" && name in r && r[name]
  }

  datatype Batch = Batch(start: nat, end: nat, parallel: bool)

  /** A serial batch is one call that may not run in parallel, a parallel one a run of
      calls that may. */
  ghost predicate Sound(r: Registry, calls: seq<ToolCall>, b: Batch) {
    && b.start < b.end <= |calls|
    && (forall i :: b.start <= i < b.end ==> (b.parallel <==> Parallelisable(r, calls[i].name)))
    && (!b.parallel ==> b.end == b.start + 1)
  }

  predicate Adjoin(a: Batch, b: Batch) {
    a.end == b.start && !(a.parallel && b.parallel)
  }

  /** Batches tile the calls up to n in order, and no two parallel ones touch. */
  ghost predicate Tiles(r: Registry, calls: seq<ToolCall>, batches: seq<Batch>, n: nat) {
    && n == (if batches == [] then 0 else batches[|batches| - 1].end)
    && (batches != [] ==> batches[0].start == 0)
    && (forall b :: 0 <= b < |batches| ==> Sound(r, calls, batches[b]))
    && (forall b :: 0 <= b < |batches| - 1 ==> Adjoin(batches[b], batches[b + 1]))
  }

  lemma {:induction false} TilesSnoc(r: Registry, calls: seq<ToolCall>, batches: seq<Batch>, n: nat, b: Batch)
    requires Tiles(r, calls, batches, n) && Sound(r, calls, b) && b.start == n
    requires batches != [] ==> Adjoin(batches[|batches| - 1], b)
    ensures Tiles(r, calls, batches + [b], b.end)
  {
    var all := batches + [b];
    forall k | 0 <= k < |all| - 1 ensures Adjoin(all[k], all[k + 1]) {
      if k < |batches| - 1 { assert Adjoin(batches[k], batches[k + 1]); }
    }
  }

  /** Where the maximal run of parallelisable calls beginning at i ends. */
  method RunOfReads(r: Registry, calls: seq<ToolCall>, i: nat) returns (end: nat)
    requires i < |calls| && Parallelisable(r, calls[i].name)
    ensures i < end <= |calls| && forall k :: i <= k < end ==> Parallelisable(r, calls[k].name)
    ensures end < |calls| ==> !Parallelisable(r, calls[end].name)
  {
    end := i + 1;
    while end < |calls| && Parallelisable(r, calls[end].name)
      invariant i < end <= |calls|
      invariant forall k :: i <= k < end ==> Parallelisable(r, calls[k].name)
    {
      end := end + 1;
    }
  }

  method PartitionToolCalls(r: Registry, calls: seq<ToolCall>) returns (batches: seq<Batch>)
    ensures Tiles(r, calls, batches, |calls|)
  {
    batches := [];
    var i := 0;
    while i < |calls|
      invariant i <= |calls| && Tiles(r, calls, batches, i)
      invariant batches != [] && batches[|batches| - 1].parallel && i < |calls| ==> !Parallelisable(r, calls[i].name)
    {
      var batch;
      if Parallelisable(r, calls[i].name) {
        var end := RunOfReads(r, calls, i);
        batch := Batch(i, end, true);
      } else {
        batch := Batch(i, i + 1, false);
      }
      TilesSnoc(r, calls, batches, i, batch);
      batches, i := batches + [batch], batch.end;
    }
  }

  /** A cancellation may arrive between any two looks at it, and never goes away. */
  class Context {
    var cancelled: bool

    constructor ()
    {
      cancelled := *;
    }

    method Err() returns (done: bool)
      modifies this
      ensures done == cancelled && (old(cancelled) ==> cancelled)
    {
      if * {
        cancelled := true;
      }
      done := cancelled;
    }
  }

  datatype Step = Start(call: nat) | Finish(call: nat)

  type Trace = seq<Step>

  function Starts(t: Trace): seq<nat> {
    if t == [] then [] else Starts(t[..|t| - 1]) + match t[|t| - 1] case Start(i) => [i] case Finish(_) => []
  }

  function Upto(n: nat): (s: seq<nat>)
    ensures |s| == n && forall k :: 0 <= k < n ==> s[k] == k
  {
    seq(n, k => k)
  }

  function Running(t: Trace): int {
    if t == [] then 0 else Running(t[..|t| - 1]) + match t[|t| - 1] case Start(_) => 1 case Finish(_) => -1
  }

  predicate Done(t: Trace, i: nat) {
    Finish(i) in t
  }

  /** A call finishes once, and after it has started. */
  predicate Matched(t: Trace) {
    t == []
    || (var init, last := t[..|t| - 1], t[|t| - 1];
        Matched(init) && (last.Finish? ==> Start(last.call) in init && last !in init))
  }

  /** At every start, each earlier call has finished unless the two and all between them
      may run in parallel. */
  ghost predicate Ordered(r: Registry, calls: seq<ToolCall>, t: Trace) {
    forall p, j, k ::
      && 0 <= p < |t| && t[p].Start? && 0 <= j <= k <= t[p].call < |calls| && j < t[p].call
      && !Parallelisable(r, calls[k].name)
      ==> Done(t[..p], j)
  }

  ghost predicate Bounded(t: Trace) {
    forall p :: 0 <= p <= |t| ==> Running(t[..p]) <= 8
  }

  /** The calls below ran have started, each once and in order, and all but the flying ones
      have finished, each once and after its start. */
  ghost predicate Counted(t: Trace, ran: nat, flying: set<nat>) {
    Starts(t) == Upto(ran) && Matched(t) && forall i: nat :: Done(t, i) <==> i < ran && i !in flying
  }

  /** The trace of the first n calls: each started once, in order, each finished once and
      after its start, every serial call alone, never more than eight at a time. */
  ghost predicate RanInOrder(r: Registry, calls: seq<ToolCall>, t: Trace, n: nat) {
    && Counted(t, n, {}) && Running(t) == 0 && Ordered(r, calls, t) && Bounded(t)
  }

  lemma {:induction false} StartedExactly(t: Trace, i: nat)
    ensures Start(i) in t <==> i in Starts(t)
  {
    if t != [] {
      StartedExactly(t[..|t| - 1], i);
    }
  }

  lemma {:induction false} StepKeepsMatch(t: Trace, s: Step)
    requires Matched(t) && (s.Finish? ==> Start(s.call) in t && s !in t)
    ensures Matched(t + [s])
  {
    assert (t + [s])[..|t|] == t;
  }

  lemma {:induction false} MatchedAt(t: Trace, p: nat)
    requires Matched(t) && p < |t| && t[p].Finish?
    ensures Start(t[p].call) in t[..p] && t[p] !in t[..p]
  {
    if p < |t| - 1 {
      MatchedAt(t[..|t| - 1], p);
      assert t[..|t| - 1][..p] == t[..p];
    }
  }

  lemma {:induction false} StepFacts(t: Trace, s: Step)
    ensures Starts(t + [s]) == Starts(t) + match s case Start(i) => [i] case Finish(_) => []
    ensures Running(t + [s]) == Running(t) + match s case Start(_) => 1 case Finish(_) => -1
    ensures forall i :: Done(t + [s], i) <==> Done(t, i) || s == Finish(i)
  {
    assert (t + [s])[..|t|] == t;
  }

  lemma {:induction false} StepKeepsBound(t: Trace, s: Step)
    requires Bounded(t) && Running(t + [s]) <= 8
    ensures Bounded(t + [s])
  {
    forall p | 0 <= p <= |t + [s]| ensures Running((t + [s])[..p]) <= 8 {
      if p <= |t| { assert (t + [s])[..p] == t[..p]; } else { assert (t + [s])[..p] == t + [s]; }
    }
  }

  lemma {:induction false} StepKeepsOrder(r: Registry, calls: seq<ToolCall>, t: Trace, s: Step)
    requires Ordered(r, calls, t)
    requires s.Start? ==>
             forall j, k :: 0 <= j <= k <= s.call < |calls| && j < s.call && !Parallelisable(r, calls[k].name) ==>
                 Done(t, j)
    ensures Ordered(r, calls, t + [s])
  {
    var u := t + [s];
    forall p, j, k | 0 <= p < |u| && u[p].Start? && 0 <= j <= k <= u[p].call < |calls| && j < u[p].call
        && !Parallelisable(r, calls[k].name) ensures Done(u[..p], j) {
      if p < |t| { assert u[..p] == t[..p] && u[p] == t[p]; } else { assert u[..p] == t; }
    }
  }

  lemma {:induction false} StartCounts(t: Trace, ran: nat, flying: set<nat>)
    requires Counted(t, ran, flying)
    ensures Counted(t + [Start(ran)], ran + 1, flying + {ran})
  {
    StepFacts(t, Start(ran));
    StepKeepsMatch(t, Start(ran));
    assert Upto(ran) + [ran] == Upto(ran + 1);
  }

  lemma {:induction false} FinishCounts(t: Trace, ran: nat, flying: set<nat>, i: nat)
    requires Counted(t, ran, flying) && i in flying && i < ran
    ensures Counted(t + [Finish(i)], ran, flying - {i})
  {
    StepFacts(t, Finish(i));
    StartedExactly(t, i);
    assert Upto(ran)[i] == i;
    StepKeepsMatch(t, Finish(i));
  }

  /** While a parallel batch runs. */
  ghost predicate InFlight(r: Registry, calls: seq<ToolCall>, t: Trace, start: nat, ran: nat, flying: set<nat>) {
    && Counted(t, ran, flying) && Running(t) == |flying| <= 8 && Ordered(r, calls, t) && Bounded(t)
    && (forall i :: i in flying ==> start <= i < ran)
  }

  lemma {:induction false} LaunchKeepsFlight(r: Registry, calls: seq<ToolCall>, t: Trace, start: nat, ran: nat,
          flying: set<nat>)
    requires InFlight(r, calls, t, start, ran, flying) && start <= ran < |calls| && |flying| < MAX_PARALLEL
    requires forall i :: start <= i <= ran ==> Parallelisable(r, calls[i].name)
    ensures InFlight(r, calls, t + [Start(ran)], start, ran + 1, flying + {ran})
  {
    StepFacts(t, Start(ran));
    StepKeepsBound(t, Start(ran));
    StepKeepsOrder(r, calls, t, Start(ran));
    StartCounts(t, ran, flying);
  }

  lemma {:induction false} FinishKeepsFlight(r: Registry, calls: seq<ToolCall>, t: Trace, start: nat, ran: nat,
          flying: set<nat>, i: nat)
    requires InFlight(r, calls, t, start, ran, flying) && i in flying
    ensures InFlight(r, calls, t + [Finish(i)], start, ran, flying - {i})
  {
    StepFacts(t, Finish(i));
    StepKeepsBound(t, Finish(i));
    StepKeepsOrder(r, calls, t, Finish(i));
    FinishCounts(t, ran, flying, i);
  }

  /** Results as the batch loop fills them: a call's own outcome, or the cancelled one. */
  datatype Result = Unset | Ran(call: nat) | Cancelled

  /** The results slice while some calls of a parallel run are out. */
  predicate Filled(now: seq<Result>, was: seq<Result>, start: nat, ran: nat, flying: set<nat>) {
    && |now| == |was|
    && forall i :: 0 <= i < |now| ==> now[i] == if start <= i < ran && i !in flying then Ran(i) else was[i]
  }

  lemma {:induction false} LaunchKeepsFilled(now: seq<Result>, was: seq<Result>, start: nat, ran: nat, flying: set<nat>)
    requires Filled(now, was, start, ran, flying)
    ensures Filled(now, was, start, ran + 1, flying + {ran})
  {
  }

  lemma {:induction false} FinishFills(now: seq<Result>, was: seq<Result>, start: nat, ran: nat, flying: set<nat>,
          i: nat)
    requires Filled(now, was, start, ran, flying) && i in flying && start <= i < ran && i < |now|
    ensures Filled(now[i := Ran(i)], was, start, ran, flying - {i})
  {
  }

  /** runParallel: launch in order, at most eight at a time, each finishing whenever it
      does; wait for all launched before returning how far it got. */
  method RunParallel(r: Registry, calls: seq<ToolCall>, ctx: Context, start: nat, end: nat, before: Trace,
          results: array<Result>)
    returns (ranUntil: nat, trace: Trace)
    requires start < end <= |calls| == results.Length
    requires forall i :: start <= i < end ==> Parallelisable(r, calls[i].name)
    requires RanInOrder(r, calls, before, start)
    modifies ctx, results
    ensures start <= ranUntil <= end && RanInOrder(r, calls, trace, ranUntil)
    ensures forall i :: 0 <= i < results.Length ==> results[i] == if start <= i < ranUntil then Ran(i)
            else old(results[i])
    ensures !ctx.cancelled ==> ranUntil == end
    ensures old(ctx.cancelled) ==> ctx.cancelled
  {
    ranUntil, trace := start, before;
    var flying: set<nat> := {};
    var stopped := false;
    ghost var was := results[..];
    while (ranUntil < end && !stopped) || flying != {}
      invariant start <= ranUntil <= end && (stopped ==> ctx.cancelled) && (old(ctx.cancelled) ==> ctx.cancelled)
      invariant InFlight(r, calls, trace, start, ranUntil, flying)
      invariant Filled(results[..], was, start, ranUntil, flying)
      decreases end - ranUntil, !stopped, |flying|
    {
      var launch := *;
      if ranUntil < end && !stopped && |flying| < MAX_PARALLEL && (launch || flying == {}) {
        var done := ctx.Err();
        if done {
          stopped := true;
        } else {
          LaunchKeepsFlight(r, calls, trace, start, ranUntil, flying);
          LaunchKeepsFilled(results[..], was, start, ranUntil, flying);
          trace, flying, ranUntil := trace + [Start(ranUntil)], flying + {ranUntil}, ranUntil + 1;
        }
      } else {
        var i :| i in flying;
        FinishKeepsFlight(r, calls, trace, start, ranUntil, flying, i);
        FinishFills(results[..], was, start, ranUntil, flying, i);
        ghost var now := results[..];
        results[i] := Ran(i);
        assert results[..] == now[i := Ran(i)];
        trace, flying := trace + [Finish(i)], flying - {i};
      }
    }
  }

  method MarkCancelled(results: array<Result>, from: nat)
    requires from <= results.Length
    modifies results
    ensures forall i :: 0 <= i < results.Length ==> results[i] == if i < from then old(results[i]) else Cancelled
  {
    for j := from to results.Length
      invariant forall i :: 0 <= i < results.Length ==> results[i] == if from <= i < j then Cancelled
                else old(results[i])
    {
      results[j] := Cancelled;
    }
  }

  predicate RanUpTo(results: seq<Result>, ran: nat) {
    forall i :: 0 <= i < |results| ==> results[i] == if i < ran then Ran(i) else Unset
  }

  /** executeBatch: whatever the moment of cancellation, the calls that ran are a prefix in
      provider order, each other call has the one cancelled result, and a batch that was
      not cancelled ran every call. */
  method ExecuteBatch(r: Registry, calls: seq<ToolCall>, ctx: Context)
    returns (results: array<Result>, ran: nat, trace: Trace)
    modifies ctx
    ensures fresh(results) && results.Length == |calls| && ran <= |calls|
    ensures forall i :: 0 <= i < |calls| ==> results[i] == if i < ran then Ran(i) else Cancelled
    ensures RanInOrder(r, calls, trace, ran)
    ensures !ctx.cancelled ==> ran == |calls|
  {
    results := new Result[|calls|](_ => Unset);
    ran, trace := 0, [];
    var batches := PartitionToolCalls(r, calls);
    var b := 0;
    while b < |batches|
      invariant b <= |batches| && fresh(results) && results.Length == |calls|
      invariant ran == if b < |batches| then batches[b].start else |calls|
      invariant RanInOrder(r, calls, trace, ran)
      invariant RanUpTo(results[..], ran)
      decreases |batches| - b
    {
      var batch := batches[b];
      var done := ctx.Err();
      if done {
        MarkCancelled(results, batch.start);
        return;
      }
      if batch.parallel && batch.end - batch.start > 1 {
        ran, trace := RunParallel(r, calls, ctx, batch.start, batch.end, trace, results);
        done := ctx.Err();
        if done {
          MarkCancelled(results, ran);
          return;
        }
      } else {
        ran, trace := RunAlone(r, calls, ctx, batch.start, trace, results);
        if ran == batch.start {
          MarkCancelled(results, ran);
          return;
        }
        done := ctx.Err();
        if done {
          MarkCancelled(results, ran);
          return;
        }
      }
      b := b + 1;
    }
  }

  /** A call that is not run in parallel, unless the batch was cancelled before it. */
  method RunAlone(r: Registry, calls: seq<ToolCall>, ctx: Context, i: nat, before: Trace, results: array<Result>)
    returns (ran: nat, trace: Trace)
    requires i < |calls| == results.Length && RanInOrder(r, calls, before, i) && RanUpTo(results[..], i)
    modifies ctx, results
    ensures i <= ran <= i + 1 && RanInOrder(r, calls, trace, ran) && RanUpTo(results[..], ran)
    ensures ran == i ==> ctx.cancelled
    ensures old(ctx.cancelled) ==> ctx.cancelled
  {
    var done := ctx.Err();
    if done {
      return i, before;
    }
    trace := RunOne(r, calls, i, before);
    results[i] := Ran(i);
    ran := i + 1;
  }

  lemma {:induction false} StartsAlone(r: Registry, calls: seq<ToolCall>, before: Trace, i: nat)
    requires i < |calls| && RanInOrder(r, calls, before, i)
    ensures InFlight(r, calls, before + [Start(i)], i, i + 1, {i})
  {
    StepFacts(before, Start(i));
    StepKeepsBound(before, Start(i));
    StepKeepsOrder(r, calls, before, Start(i));
    StartCounts(before, i, {});
    assert {} + {i} == {i};
  }

  method RunOne(r: Registry, calls: seq<ToolCall>, i: nat, before: Trace) returns (trace: Trace)
    requires i < |calls| && RanInOrder(r, calls, before, i)
    ensures RanInOrder(r, calls, trace, i + 1)
  {
    StartsAlone(r, calls, before, i);
    FinishKeepsFlight(r, calls, before + [Start(i)], i, i + 1, {i}, i);
    trace := before + [Start(i)] + [Finish(i)];
    assert {i} - {i} == {};
  }

  // ---------------------------------------------------------------- told by registry and calls

  /** A tool that nobody knows, that writes, or that reads the turn's evidence. */
  predicate RunsAlone(r: Registry, name: string) {
    name !in r || !r[name] || name == "complete_step" || name == "todo_write"
  }

  /** Such a call has the run to itself: when it starts every earlier call has finished,
      and no later call starts before it has finished. */
  lemma {:induction false} SerialCallsRunAlone(r: Registry, calls: seq<ToolCall>, t: Trace, n: nat, i: nat)
    returns (s: nat, f: nat)
    requires RanInOrder(r, calls, t, n) && n <= |calls|
    requires i < n && RunsAlone(r, calls[i].name)
    ensures s < f < |t| && t[s] == Start(i) && t[f] == Finish(i)
    ensures forall j :: 0 <= j < i ==> Done(t[..s], j)
    ensures forall q, j :: 0 <= q < |t| && i < j < |calls| && t[q] == Start(j) ==> f < q
  {
    assert Done(t, i);
    f :| 0 <= f < |t| && t[f] == Finish(i);
    MatchedAt(t, f);
    s :| 0 <= s < f && t[s] == Start(i);
    forall q, j | 0 <= q < |t| && i < j < |calls| && t[q] == Start(j) ensures f < q {
      assert Done(t[..q], i);
      var g :| 0 <= g < q && t[g] == Finish(i);
      MatchedAt(t, g);
    }
  }

  /** Two calls that overlap are both read-only and known, and so is all between them. */
  lemma {:induction false} OverlapNeedsReads(r: Registry, calls: seq<ToolCall>, t: Trace, n: nat, q: nat, j: nat,
          i: nat)
    requires RanInOrder(r, calls, t, n) && n <= |calls|
    requires q < |t| && t[q] == Start(i) && j < i < n && !Done(t[..q], j)
    ensures forall k :: j <= k <= i ==> !RunsAlone(r, calls[k].name)
  {
  }

  ghost predicate SameBatch(batches: seq<Batch>, i: nat, j: nat) {
    exists b :: 0 <= b < |batches| && batches[b].start <= i < batches[b].end && batches[b].start <= j < batches[b].end
  }

  lemma {:induction false} BatchOf(r: Registry, calls: seq<ToolCall>, batches: seq<Batch>, n: nat, i: nat)
    returns (b: nat)
    requires Tiles(r, calls, batches, n) && i < n
    ensures b < |batches| && batches[b].start <= i < batches[b].end
  {
    b := |batches| - 1;
    while batches[b].start > i
      invariant b < |batches| && i < batches[b].end
    {
      assert Adjoin(batches[b - 1], batches[b]);
      b := b - 1;
    }
  }

  /** The partition, told by the registry: a call that runs alone is a batch of its own, and
      neighbours share a batch if and only if neither runs alone. */
  lemma {:induction false} PartitionExactly(r: Registry, calls: seq<ToolCall>, batches: seq<Batch>, i: nat)
    requires Tiles(r, calls, batches, |calls|) && i < |calls|
    ensures RunsAlone(r, calls[i].name) <==> Batch(i, i + 1, false) in batches
    ensures i + 1 < |calls| ==>
              (SameBatch(batches, i, i + 1) <==> !RunsAlone(r, calls[i].name) && !RunsAlone(r, calls[i + 1].name))
  {
    var b := BatchOf(r, calls, batches, |calls|, i);
    assert Sound(r, calls, batches[b]);
    if i + 1 < |calls| {
      if b + 1 < |batches| {
        assert Adjoin(batches[b], batches[b + 1]) && Sound(r, calls, batches[b + 1]);
      }
    }
  }
}
