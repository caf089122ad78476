/** The turn loop of the agent (Run in internal/agent/agent.go): its counters, its ways to
    end, and the conversation it leaves behind. */
module AgentRun {
  import opened Transcripts
  import opened Pairing
  import opened Compaction
  import CompactionTheorems
  import Maintenance
  import ToolBatch

  const MAX_FINAL_READINESS_BLOCKS: nat := 3
  const MAX_EMPTY_FINAL_BLOCKS: nat := 3
  const MAX_STREAM_RECOVERIES: nat := 3
  const MAX_EXECUTOR_HANDOFF_NUDGES: nat := 1

  /** What one model request comes back with, and how the host judges it: whether the text
      is a visible answer, whether readiness evidence is missing, whether an executor
      handoff was answered without acting. */
  datatype Reply =
    | StreamFailed(text: string, interrupted: bool, visible: bool)
    | Completed(text: string, calls: seq<ToolCall>, visible: bool, unready: bool, evades: bool)

  /** One round of the outside world: steers queued before the request, the reply, and
      steers queued while it streamed. */
  datatype Round = Round(arrived: seq<string>, reply: Reply, late: seq<string>)

  datatype Exit = Watched | Final | Failed | Unready | Empty | Cancelled | PausedAtBudget | PausedInGrace

  /** The loop's own accounts: how many steers were queued and which delivered so far, how many rounds since
      the grace round began went on only to deliver one (extra), and whether one is due
      for that reason now (owed). */
  datatype Books = Books(step: nat, blocks: nat, empties: nat, nudges: nat, recoveries: nat, used: bool, grace: bool,
                         waiting: seq<string>, steers: nat, consumed: seq<string>, extra: nat, owed: bool)

  datatype Course = Going(books: Books) | Over(exit: Exit, books: Books)

  function Opening(queue: seq<string>): Books {
    Books(0, 0, 0, 0, 0, false, false, queue, |queue|, [], 0, false)
  }

  predicate Continues(maxSteps: int, b: Books) {
    maxSteps <= 0 || b.step < maxSteps || b.grace
  }

  function Queued(b: Books, texts: seq<string>): Books {
    b.(waiting := b.waiting + texts, steers := b.steers + |texts|)
  }

  /** The top of a round: at most one waiting steer goes out with the request. */
  function Delivered(b: Books): Books {
    if b.waiting == [] then b
    else b.(waiting := b.waiting[1..], consumed := b.consumed + [b.waiting[0]], owed := false)
  }

  /** What an answer without tool calls leads to: another round after a readiness, empty
      answer or handoff nudge, a round to deliver a waiting steer, or the end. */
  function Answer(handoff: bool, b: Books, r: Reply): Course
    requires r.Completed?
  {
    if r.unready then
      var n := b.(blocks := b.blocks + 1);
      if n.blocks >= MAX_FINAL_READINESS_BLOCKS then Over(Unready, n) else Going(n)
    else if !r.visible then
      var n := b.(empties := b.empties + 1);
      if n.empties >= MAX_EMPTY_FINAL_BLOCKS then Over(Empty, n) else Going(n)
    else if handoff && !b.used && b.nudges < MAX_EXECUTOR_HANDOFF_NUDGES && r.evades
      then Going(b.(nudges := b.nudges + 1))
    else if b.waiting != [] then Going(b.(extra := b.extra + 1, owed := true))
    else Over(Final, b)
  }

  function LastRound(maxSteps: int, b: Books): bool {
    maxSteps > 0 && b.step + 1 >= maxSteps
  }

  /** A reply with tool calls, not cancelled: the grace round ends the run, the last round
      of the budget starts it. */
  function Tools(maxSteps: int, b: Books): Course {
    var n := b.(empties := 0, used := true);
    if b.grace then Over(PausedInGrace, n) else if LastRound(maxSteps, b) then Going(n.(grace := true, extra := 0))
    else Going(n)
  }

  /** One round, if no tool call is cancelled in it. */
  function RoundOf(maxSteps: int, handoff: bool, before: Books, round: Round): Course {
    var b := Queued(Delivered(Queued(before, round.arrived)), round.late);
    match round.reply
    case StreamFailed(_, interrupted, _) =>
      if interrupted && b.recoveries < MAX_STREAM_RECOVERIES then Going(b.(recoveries := b.recoveries + 1))
      else Over(Failed, b)
    case Completed(_, calls, _, _, _) =>
      var n := b.(recoveries := 0);
      match (if calls == [] then Answer(handoff, n, round.reply) else Tools(maxSteps, n))
      case Over(exit, o) => Over(exit, o)
      case Going(g) => Going(g.(step := g.step + 1))
  }

  /** The books of a run, halfway or at its end, in balance. */
  predicate Solvent(maxSteps: int, requests: nat, b: Books) {
    && b.step <= requests <= 4 * b.step + b.recoveries && b.recoveries <= MAX_STREAM_RECOVERIES
    && b.blocks < MAX_FINAL_READINESS_BLOCKS && b.empties < MAX_EMPTY_FINAL_BLOCKS
    && b.nudges <= MAX_EXECUTOR_HANDOFF_NUDGES
    && |b.consumed| + |b.waiting| == b.steers && b.extra <= |b.consumed| + (if b.owed then 1 else 0)
    && (b.owed ==> b.waiting != [])
    && (b.grace ==> b.used && 0 < maxSteps <= b.step)
    && (maxSteps > 0 ==> b.step <= maxSteps + (if b.grace then b.blocks + b.empties + b.extra else 0))
  }

  /** The top of a round keeps the balance and settles what is owed. */
  lemma {:induction false} DeliveryKeepsBalance(maxSteps: int, requests: nat, b: Books, round: Round)
    requires Solvent(maxSteps, requests, b)
    ensures var n := Queued(Delivered(Queued(b, round.arrived)), round.late);
            && Solvent(maxSteps, requests, n) && !n.owed && n.steers == b.steers + |round.arrived| + |round.late|
            && n.step == b.step && n.grace == b.grace
  {
  }

  lemma {:induction false} AnswerKeepsBalance(maxSteps: int, handoff: bool, requests: nat, b: Books, r: Reply)
    requires Solvent(maxSteps, requests, b) && Continues(maxSteps, b) && !b.owed && r.Completed?
    ensures var o := Answer(handoff, b.(recoveries := 0), r);
            && o.books.steers == b.steers && o.books.step == b.step
            && (o.Going? ==> Solvent(maxSteps, requests + 1, o.books.(step := b.step + 1)))
            && (o.Over? ==> o.exit.Unready? || o.exit.Empty? || (o.exit.Final? && |o.books.consumed| == o.books.steers))
  {
  }

  lemma {:induction false} ToolsKeepBalance(maxSteps: int, requests: nat, b: Books)
    requires Solvent(maxSteps, requests, b) && Continues(maxSteps, b) && !b.owed
    ensures var o := Tools(maxSteps, b.(recoveries := 0));
            && o.books.steers == b.steers && o.books.step == b.step
            && (o.Going? ==> Solvent(maxSteps, requests + 1, o.books.(step := b.step + 1)))
            && (o.Over? ==> o.exit.PausedInGrace? && 0 < maxSteps <= requests)
  {
  }

  lemma {:induction false} RoundKeepsBalance(maxSteps: int, handoff: bool, requests: nat, b: Books, round: Round)
    requires Solvent(maxSteps, requests, b) && Continues(maxSteps, b)
    ensures var o := RoundOf(maxSteps, handoff, b, round);
            && o.books.steers == b.steers + |round.arrived| + |round.late|
            && (o.Going? ==> Solvent(maxSteps, requests + 1, o.books))
            && (o.Over? ==> match o.exit
                            case Failed | Unready | Empty => true
                            case Final => |o.books.consumed| == o.books.steers
                            case PausedInGrace => 0 < maxSteps <= requests
                            case _ => false)
  {
    DeliveryKeepsBalance(maxSteps, requests, b, round);
    var n := Queued(Delivered(Queued(b, round.arrived)), round.late);
    if round.reply.Completed? {
      if round.reply.calls == [] {
        AnswerKeepsBalance(maxSteps, handoff, requests, n, round.reply);
      } else {
        ToolsKeepBalance(maxSteps, requests, n);
      }
    }
  }

  /** One more request fits the bound as long as the loop goes on. */
  lemma {:induction false} BalanceIsBounded(maxSteps: int, requests: nat, b: Books, steers: nat)
    requires Solvent(maxSteps, requests, b) && Continues(maxSteps, b) && maxSteps > 0 && b.steers <= steers
    ensures requests + 1 <= 4 * (maxSteps + 5 + steers)
  {
  }

  /** Steers the outside queues in the first n rounds. */
  function SteersOf(script: nat -> Round, n: nat): nat {
    if n == 0 then 0 else SteersOf(script, n - 1) + |script(n - 1).arrived| + |script(n - 1).late|
  }

  /** One round from these books to those. */
  predicate Goes(maxSteps: int, handoff: bool, b: Books, round: Round, b': Books) {
    Continues(maxSteps, b) && RoundOf(maxSteps, handoff, b, round) == Going(b')
  }

  predicate GoesAt(maxSteps: int, handoff: bool, script: nat -> Round, trace: seq<Books>, k: nat)
    requires k + 1 < |trace|
  {
    Goes(maxSteps, handoff, trace[k], script(k), trace[k + 1])
  }

  /** The books before each round of a run of this script. */
  ghost predicate Follows(maxSteps: int, handoff: bool, queue: seq<string>, script: nat -> Round, trace: seq<Books>) {
    trace != [] && trace[0] == Opening(queue)
    && forall k :: 0 <= k < |trace| - 1 ==> GoesAt(maxSteps, handoff, script, trace, k)
  }

  lemma {:induction false} FollowsOn(maxSteps: int, handoff: bool, queue: seq<string>, script: nat -> Round,
          trace: seq<Books>, b: Books)
    requires Follows(maxSteps, handoff, queue, script, trace)
    requires Goes(maxSteps, handoff, trace[|trace| - 1], script(|trace| - 1), b)
    ensures Follows(maxSteps, handoff, queue, script, trace + [b])
  {
    var more := trace + [b];
    forall k | 0 <= k < |more| - 1 ensures GoesAt(maxSteps, handoff, script, more, k) {
      if k < |trace| - 1 {
        assert GoesAt(maxSteps, handoff, script, trace, k);
      }
    }
  }

  /** How a run may end in books b: still watched, out of budget, cancelled while its last
      round executed tools, or as that round says. */
  predicate Ends(maxSteps: int, handoff: bool, b: Books, last: Round, exit: Exit, cancelled: bool) {
    match exit
    case Watched => Continues(maxSteps, b)
    case PausedAtBudget => !Continues(maxSteps, b)
    case Cancelled =>
      && Continues(maxSteps, b) && cancelled && last.reply.Completed? && last.reply.calls != []
      && RoundOf(maxSteps, handoff, b, last).Going?
    case _ => Continues(maxSteps, b) && var o := RoundOf(maxSteps, handoff, b, last); o.Over? && o.exit == exit
  }

  lemma {:induction false} GoingKeepsBalance(maxSteps: int, handoff: bool, requests: nat, b: Books, round: Round,
          b': Books)
    requires Solvent(maxSteps, requests, b) && Goes(maxSteps, handoff, b, round, b')
    ensures Solvent(maxSteps, requests + 1, b') && b'.steers == b.steers + |round.arrived| + |round.late|
  {
    RoundKeepsBalance(maxSteps, handoff, requests, b, round);
  }

  /** Up to its last round the books of a run balance and admit every steer queued. */
  lemma {:induction false} TraceBalances(maxSteps: int, handoff: bool, queue: seq<string>, script: nat -> Round,
          trace: seq<Books>, n: nat)
    requires Follows(maxSteps, handoff, queue, script, trace) && n < |trace|
    ensures Solvent(maxSteps, n, trace[n]) && trace[n].steers == |queue| + SteersOf(script, n)
  {
    if n > 0 {
      TraceBalances(maxSteps, handoff, queue, script, trace, n - 1);
      assert GoesAt(maxSteps, handoff, script, trace, n - 1);
      GoingKeepsBalance(maxSteps, handoff, n - 1, trace[n - 1], script(n - 1), trace[n]);
    }
  }

  /** Requests made by a run with this trace and end. */
  function Requests(exit: Exit, trace: seq<Books>): int {
    if exit.Watched? || exit.PausedAtBudget? then |trace| - 1 else |trace|
  }

  /** The bound: with a positive step budget a run makes at most 4 (maxSteps + 5 + S)
      requests, S the steers queued before its last round, whatever the provider answers;
      a final answer leaves no steer unread; and a pause comes no sooner than the budget
      allows. */
  lemma {:induction false} RunIsBounded(maxSteps: int, handoff: bool, queue: seq<string>, script: nat -> Round,
          trace: seq<Books>, exit: Exit, cancelled: bool)
    requires Follows(maxSteps, handoff, queue, script, trace)
    requires Ends(maxSteps, handoff, trace[|trace| - 1], script(|trace| - 1), exit, cancelled)
    ensures var n := Requests(exit, trace);
            && (maxSteps > 0 ==> n <= 4 * (maxSteps + 5 + |queue| + SteersOf(script, |trace| - 1)))
            && (exit.Final? ==> var o := RoundOf(maxSteps, handoff, trace[|trace| - 1], script(|trace| - 1)).books;
               |o.consumed| == o.steers)
            && (exit.PausedInGrace? || exit.PausedAtBudget? ==> 0 < maxSteps <= n)
  {
    var last := |trace| - 1;
    TraceBalances(maxSteps, handoff, queue, script, trace, last);
    if Continues(maxSteps, trace[last]) {
      RoundKeepsBalance(maxSteps, handoff, last, trace[last], script(last));
      if maxSteps > 0 {
        BalanceIsBounded(maxSteps, last, trace[last], trace[last].steers);
      }
    }
  }

  /** Termination: with a positive budget and at most s steers queued, no run gets to more
      than 4 (maxSteps + 5 + s) rounds. */
  lemma {:induction false} RunTerminates(maxSteps: int, handoff: bool, queue: seq<string>, script: nat -> Round,
          trace: seq<Books>, s: nat)
    requires maxSteps > 0
    requires Follows(maxSteps, handoff, queue, script, trace)
    requires |queue| + SteersOf(script, |trace| - 1) <= s
    ensures |trace| <= 4 * (maxSteps + 5 + s)
  {
    var last := |trace| - 1;
    TraceBalances(maxSteps, handoff, queue, script, trace, last);
    if Continues(maxSteps, trace[last]) {
      BalanceIsBounded(maxSteps, last, trace[last], s);
    }
  }

  // ---------------------------------------------------------------- the conversation

  /** What the host's upkeep between rounds depends on. */
  datatype Upkeep = Upkeep(cfg: Config, wording: Maintenance.Wording, archives: bool, archiveOk: bool, path: string,
          summary: string)

  function Said(role: Role, text: string): Message {
    Message(role, text, "", "", [])
  }

  lemma {:induction false} PlainKeepsPairing(s: Transcript, m: Message)
    requires Paired(s) && !m.role.Tool? && m.calls == []
    ensures Paired(s + [m])
  {
    assert Paired([m]);
    PairedAppend(s, [m]);
  }

  lemma {:induction false} OpenCallBreaksPairing(s: Transcript, m: Message)
    requires m.role.Assistant? && m.calls != []
    ensures !Paired(s + [m])
  {
    assert [m][1..RunEnd([m], 1)] == [] && !Answered(m, []) by {
      assert m.calls[0] == m.calls[0];
    }
    if Paired(s + [m]) {
      PairedSplit(s, [m]);
      assert false;
    }
  }

  method Say(agent: Agent, m: Message)
    requires !m.role.Tool? && m.calls == []
    modifies agent
    ensures agent.messages == old(agent.messages) + [m]
    ensures Paired(old(agent.messages)) ==> Paired(agent.messages)
  {
    if Paired(agent.messages) {
      PlainKeepsPairing(agent.messages, m);
    }
    agent.Add(m);
  }

  /** maybeCompact between rounds: whichever of snipping, pruning and folding the token
      count calls for. */
  method MaybeCompact(agent: Agent, u: Upkeep)
    modifies agent
    ensures Paired(old(agent.messages)) ==> Paired(agent.messages)
  {
    if * {
      Maintain(agent, u, Maintenance.Snip);
    } else if * {
      Maintain(agent, u, Maintenance.Prune);
      if * {
        var force := *;
        Fold(agent, u, force);
      }
    }
  }

  method Fold(agent: Agent, u: Upkeep, force: bool)
    modifies agent
    ensures Paired(old(agent.messages)) ==> Paired(agent.messages)
  {
    ghost var before := agent.messages;
    var folded := agent.Compact(u.cfg, force, u.summary, u.archives, u.archiveOk);
    if folded && Paired(before) {
      PlanIsSound(u.cfg, before);
      CompactionTheorems.FoldKeepsPairing(u.cfg, before, PinnedPrefix(u.cfg, before), PlanStart(u.cfg, before),
          u.summary);
    }
  }

  method Maintain(agent: Agent, u: Upkeep, pass: Maintenance.Pass)
    modifies agent
    ensures Paired(old(agent.messages)) ==> Paired(agent.messages)
  {
    ghost var before := agent.messages;
    var results := Maintenance.MaintainStaleToolResults(u.cfg, u.wording, agent, pass, u.archives, u.archiveOk, u.path);
    if results > 0 && Paired(before) {
      var (head, start) := Maintenance.Boundaries(u.cfg, before, pass).value;
      Maintenance.MaintenanceKeepsPairing(u.cfg, u.wording, before, head, start, pass, u.path);
      Maintenance.MaintenanceKeepsPairing(u.cfg, u.wording, before, head, start, pass, "");
    }
  }

  function ResultMessage(call: ToolCall, output: string): Message {
    Message(Tool, output, call.name, call.id, [])
  }

  lemma {:induction false} ResultsAnswer(s: Transcript, m: Message, results: Transcript)
    requires Paired(s) && m.role.Assistant? && |results| == |m.calls|
    requires forall i :: 0 <= i < |results| ==> results[i].role.Tool? && results[i].toolCallId == m.calls[i].id
    ensures Paired(s + [m] + results)
  {
    var block := [m] + results;
    RunEndIs(block, 1, |block|);
    assert block[1..|block|] == results && block[|block|..] == [];
    PairedAppend(s, block);
    assert s + [m] + results == s + block;
  }

  /** executeBatch and storing its results: whatever was cancelled when, each call of the
      assistant message just added gets its one result. */
  method ExecuteCalls(agent: Agent, ctx: ToolBatch.Context, r: ToolBatch.Registry, ghost before: Transcript, m: Message)
    requires m.role.Assistant? && agent.messages == before + [m]
    modifies agent, ctx
    ensures Paired(before) ==> Paired(agent.messages)
  {
    var results, ran, trace := ToolBatch.ExecuteBatch(r, m.calls, ctx);
    ghost var added: Transcript := [];
    for i := 0 to |m.calls|
      invariant agent.messages == before + [m] + added && |added| == i
      invariant forall k :: 0 <= k < i ==> added[k].role.Tool? && added[k].toolCallId == m.calls[k].id
      modifies agent
    {
      var output: string := *;
      if results[i].Cancelled? {
        output := "cancelled: context cancelled before execution";
      }
      agent.Add(ResultMessage(m.calls[i], output));
      added := added + [ResultMessage(m.calls[i], output)];
    }
    if Paired(before) {
      ResultsAnswer(before, m, added);
    }
  }

  method JudgeAnswer(agent: Agent, u: Upkeep, handoff: bool, b: Books, reply: Reply) returns (course: Course)
    requires reply.Completed? && reply.calls == []
    modifies agent
    ensures course == Answer(handoff, b, reply)
    ensures Paired(old(agent.messages)) ==> Paired(agent.messages)
  {
    var n := b;
    Say(agent, Said(Assistant, reply.text));
    if reply.unready {
      n := n.(blocks := n.blocks + 1);
      if n.blocks >= MAX_FINAL_READINESS_BLOCKS {
        return Over(Unready, n);
      }
      Retrying(agent, u, "Host final-answer readiness check failed.");
      return Going(n);
    }
    if !reply.visible {
      n := n.(empties := n.empties + 1);
      if n.empties >= MAX_EMPTY_FINAL_BLOCKS {
        return Over(Empty, n);
      }
      Retrying(agent, u, "The answer was empty.");
      return Going(n);
    }
    if handoff && !n.used && n.nudges < MAX_EXECUTOR_HANDOFF_NUDGES && reply.evades {
      n := n.(nudges := n.nudges + 1);
      Retrying(agent, u, "Use your tools.");
      return Going(n);
    }
    if n.waiting != [] {
      return Going(n.(extra := n.extra + 1, owed := true));
    }
    MaybeCompact(agent, u);
    return Over(Final, n);
  }

  method Retrying(agent: Agent, u: Upkeep, text: string)
    modifies agent
    ensures Paired(old(agent.messages)) ==> Paired(agent.messages)
  {
    Say(agent, Said(User, text));
    MaybeCompact(agent, u);
  }

  /** The last message is a request for tools that nobody answered. */
  predicate EndsInOpenCalls(s: Transcript) {
    s != [] && s[|s| - 1].role.Assistant? && s[|s| - 1].calls != []
  }

  function ButLast(s: Transcript): Transcript {
    if s == [] then [] else s[..|s| - 1]
  }

  /** What a step leaves of pairing: kept, or lost by one open request at the end. */
  ghost predicate PairingLeft(before: Transcript, after: Transcript, open: bool) {
    if open then EndsInOpenCalls(after) && !Paired(after) && (Paired(before) ==> Paired(ButLast(after)))
    else Paired(before) ==> Paired(after)
  }

  /** A reply with tool calls: store it, stop if this was the grace round, else execute. */
  method CallTools(agent: Agent, ctx: ToolBatch.Context, r: ToolBatch.Registry, u: Upkeep, text: string,
          calls: seq<ToolCall>, maxSteps: int, b: Books)
    returns (course: Course)
    requires calls != []
    modifies agent, ctx
    ensures course == Tools(maxSteps, b) || (course == Over(Cancelled, b) && ctx.cancelled && Tools(maxSteps, b).Going?)
    ensures PairingLeft(old(agent.messages), agent.messages, b.grace)
  {
    ghost var before := agent.messages;
    var m := Message(Assistant, text, "", "", calls);
    var n := b.(empties := 0, used := true);
    agent.Add(m);
    if n.grace {
      OpenCallBreaksPairing(before, m);
      assert ButLast(agent.messages) == before;
      return Over(PausedInGrace, n);
    }
    ExecuteCalls(agent, ctx, r, before, m);
    var done := ctx.Err();
    if done {
      return Over(Cancelled, b);
    }
    MaybeCompact(agent, u);
    if LastRound(maxSteps, b) {
      Say(agent, Said(User, "Do not call any more tools."));
      n := n.(grace := true, extra := 0);
    }
    course := Going(n);
  }

  method ConsumeSteer(agent: Agent, b: Books) returns (n: Books)
    modifies agent
    ensures n == Delivered(b) && (Paired(old(agent.messages)) ==> Paired(agent.messages))
    ensures agent.messages == old(agent.messages) + if b.waiting == [] then [] else [Said(User, b.waiting[0])]
  {
    n := b;
    if b.waiting != [] {
      Say(agent, Said(User, b.waiting[0]));
      n := b.(waiting := b.waiting[1..], consumed := b.consumed + [b.waiting[0]], owed := false);
    }
  }

  method RecoverStream(agent: Agent, text: string, visible: bool)
    modifies agent
    ensures Paired(old(agent.messages)) ==> Paired(agent.messages)
  {
    if visible {
      Say(agent, Said(Assistant, text));
    }
    Say(agent, Said(User, "The stream was interrupted."));
  }

  /** One pass through the loop body. */
  method GoRound(agent: Agent, ctx: ToolBatch.Context, r: ToolBatch.Registry, u: Upkeep, maxSteps: int, handoff: bool,
          before: Books, round: Round)
    returns (course: Course)
    modifies agent, ctx
    ensures course == RoundOf(maxSteps, handoff, before, round)
            || (course.Over? && course.exit.Cancelled? && ctx.cancelled
               && RoundOf(maxSteps, handoff, before, round).Going? && round.reply.Completed? && round.reply.calls != [])
    ensures PairingLeft(old(agent.messages), agent.messages, course.Over? && course.exit.PausedInGrace?)
  {
    var b := ConsumeSteer(agent, Queued(before, round.arrived));
    b := Queued(b, round.late);
    match round.reply {
      case StreamFailed(text, interrupted, visible) =>
        if !interrupted || b.recoveries >= MAX_STREAM_RECOVERIES {
          return Over(Failed, b);
        }
        RecoverStream(agent, text, visible);
        return Going(b.(recoveries := b.recoveries + 1));
      case Completed(text, calls, visible, unready, evades) =>
        b := b.(recoveries := 0);
        if calls == [] {
          course := JudgeAnswer(agent, u, handoff, b, round.reply);
        } else {
          course := CallTools(agent, ctx, r, u, text, calls, maxSteps, b);
        }
        if course.Going? {
          course := Going(course.books.(step := course.books.step + 1));
        }
    }
  }

  /** Run, watched for at most the given number of requests: round by round it follows the
      course of its script, it ends only as that says, and it leaves a conversation that
      was paired paired on every way out but the grace-round pause. */
  method Run(maxSteps: int, handoff: bool, u: Upkeep, r: ToolBatch.Registry, agent: Agent, ctx: ToolBatch.Context,
          input: string, queue: seq<string>, script: nat -> Round, rounds: nat)
      returns (exit: Exit, trace: seq<Books>)
    modifies agent, ctx
    ensures Follows(maxSteps, handoff, queue, script, trace)
    ensures |trace| <= rounds + 1
    ensures exit.Watched? ==> |trace| == rounds + 1
    ensures Ends(maxSteps, handoff, trace[|trace| - 1], script(|trace| - 1), exit, ctx.cancelled)
    ensures PairingLeft(old(agent.messages), agent.messages, exit.PausedInGrace?)
  {
    ghost var sound := Paired(agent.messages);
    Say(agent, Said(User, input));
    var b := Opening(queue);
    trace := [b];
    while maxSteps <= 0 || b.step < maxSteps || b.grace
      invariant 0 < |trace| <= rounds + 1 && b == trace[|trace| - 1] && Follows(maxSteps, handoff, queue, script, trace)
      invariant sound ==> Paired(agent.messages)
      decreases rounds + 1 - |trace|
    {
      if |trace| == rounds + 1 {
        return Watched, trace;
      }
      var course := GoRound(agent, ctx, r, u, maxSteps, handoff, b, script(|trace| - 1));
      if course.Over? {
        return course.exit, trace;
      }
      b := course.books;
      FollowsOn(maxSteps, handoff, queue, script, trace, b);
      trace := trace + [b];
    }
    exit := PausedAtBudget;
  }
}
