/** How and when a run ends, told by what the provider and the user did alone: the
    counters of the loop are what its script says, and each way out is taken exactly
    when the script calls for it (Run in internal/agent/agent.go). */
module RunExits {
  import opened Transcripts
  import opened AgentRun

  type Script = nat -> Round

  // ---------------------------------------------------------------- one round of a script

  predicate CallsTools(script: Script, k: nat) {
    script(k).reply.Completed? && script(k).reply.calls != []
  }

  predicate Answers(script: Script, k: nat) {
    script(k).reply.Completed? && script(k).reply.calls == []
  }

  predicate UnreadyAnswer(script: Script, k: nat) {
    Answers(script, k) && script(k).reply.unready
  }

  predicate EmptyAnswer(script: Script, k: nat) {
    Answers(script, k) && !script(k).reply.unready && !script(k).reply.visible
  }

  predicate GoodAnswer(script: Script, k: nat) {
    Answers(script, k) && !script(k).reply.unready && script(k).reply.visible
  }

  // ---------------------------------------------------------------- what came before round n

  function Completions(script: Script, n: nat): nat {
    if n == 0 then 0 else Completions(script, n - 1) + if script(n - 1).reply.Completed? then 1 else 0
  }

  function UnreadyAnswers(script: Script, n: nat): nat {
    if n == 0 then 0 else UnreadyAnswers(script, n - 1) + if UnreadyAnswer(script, n - 1) then 1 else 0
  }

  /** Since the last round that called tools. */
  function EmptyAnswers(script: Script, n: nat): nat {
    if n == 0 || CallsTools(script, n - 1) then 0
    else EmptyAnswers(script, n - 1) + if EmptyAnswer(script, n - 1) then 1 else 0
  }

  /** In a row, right before round n. */
  function StreamFailures(script: Script, n: nat): nat {
    if n == 0 || script(n - 1).reply.Completed? then 0 else StreamFailures(script, n - 1) + 1
  }

  predicate UsedTools(script: Script, n: nat) {
    exists k :: 0 <= k < n && CallsTools(script, k)
  }

  /** A good answer to a handoff that evades it, before any tool was called. */
  predicate EvadesAt(script: Script, k: nat) {
    GoodAnswer(script, k) && script(k).reply.evades && !UsedTools(script, k)
  }

  predicate Nudged(script: Script, n: nat) {
    exists k :: 0 <= k < n && EvadesAt(script, k)
  }

  /** Some earlier round called tools and spent the budget. */
  predicate InGrace(maxSteps: int, script: Script, n: nat) {
    maxSteps > 0 && exists k :: 0 <= k < n && CallsTools(script, k) && Completions(script, k + 1) >= maxSteps
  }

  /** Steers the model has not read when round n begins: each round delivers one, if any
      is there when its request goes out. */
  function Unread(queue: seq<string>, script: Script, n: nat): nat {
    if n == 0 then |queue|
    else
      var there := Unread(queue, script, n - 1) + |script(n - 1).arrived|;
      (if there > 0 then there - 1 else 0) + |script(n - 1).late|
  }

  // ---------------------------------------------------------------- the ways out

  predicate GoesOn(maxSteps: int, script: Script, n: nat) {
    maxSteps <= 0 || Completions(script, n) < maxSteps || InGrace(maxSteps, script, n)
  }

  /** A good answer, with nothing left to read, that is not an evasion still to be nudged. */
  predicate FinalAt(handoff: bool, queue: seq<string>, script: Script, n: nat) {
    GoodAnswer(script, n) && Unread(queue, script, n + 1) == 0
    && !(handoff && EvadesAt(script, n) && !Nudged(script, n))
  }

  predicate UnreadyAt(script: Script, n: nat) {
    UnreadyAnswer(script, n) && UnreadyAnswers(script, n + 1) >= 3
  }

  predicate EmptyAt(script: Script, n: nat) {
    EmptyAnswer(script, n) && EmptyAnswers(script, n + 1) >= 3
  }

  /** A failure that is no interruption, or the fourth in a row. */
  predicate FailedAt(script: Script, n: nat) {
    script(n).reply.StreamFailed? && (!script(n).reply.interrupted || StreamFailures(script, n) >= 3)
  }

  predicate PausedAt(maxSteps: int, script: Script, n: nat) {
    CallsTools(script, n) && InGrace(maxSteps, script, n)
  }

  // ---------------------------------------------------------------- the counters are the script's

  /** The books before round n of a script. */
  predicate BooksOf(maxSteps: int, handoff: bool, queue: seq<string>, script: Script, n: nat, b: Books) {
    && b.step == Completions(script, n)
    && b.blocks == UnreadyAnswers(script, n)
    && b.empties == EmptyAnswers(script, n)
    && b.recoveries == StreamFailures(script, n)
    && (b.used <==> UsedTools(script, n))
    && (b.nudges > 0 <==> handoff && Nudged(script, n))
    && (b.grace <==> InGrace(maxSteps, script, n))
    && |b.waiting| == Unread(queue, script, n)
  }

  lemma {:induction false} OneRoundMore(maxSteps: int, script: Script, n: nat)
    ensures UsedTools(script, n + 1) <==> UsedTools(script, n) || CallsTools(script, n)
    ensures Nudged(script, n + 1) <==> Nudged(script, n) || EvadesAt(script, n)
    ensures InGrace(maxSteps, script, n + 1) <==>
              InGrace(maxSteps, script, n)
              || (maxSteps > 0 && CallsTools(script, n) && Completions(script, n + 1) >= maxSteps)
  {
  }

  lemma {:induction false} WaitingIsUnread(queue: seq<string>, script: Script, n: nat, b: Books)
    requires |b.waiting| == Unread(queue, script, n)
    ensures var after := Queued(Delivered(Queued(b, script(n).arrived)), script(n).late);
            |after.waiting| == Unread(queue, script, n + 1)
            && after == b.(waiting := after.waiting, steers := after.steers, consumed := after.consumed,
                           owed := after.owed)
  {
  }

  lemma {:induction false} AnswerAdvances(maxSteps: int, handoff: bool, queue: seq<string>, script: Script, n: nat,
          b: Books, b': Books)
    requires BooksOf(maxSteps, handoff, queue, script, n, b) && Goes(maxSteps, handoff, b, script(n), b')
    requires Answers(script, n)
    ensures BooksOf(maxSteps, handoff, queue, script, n + 1, b')
  {
    OneRoundMore(maxSteps, script, n);
    WaitingIsUnread(queue, script, n, b);
  }

  lemma {:induction false} BooksAdvance(maxSteps: int, handoff: bool, queue: seq<string>, script: Script, n: nat,
          b: Books, b': Books)
    requires BooksOf(maxSteps, handoff, queue, script, n, b) && Goes(maxSteps, handoff, b, script(n), b')
    ensures BooksOf(maxSteps, handoff, queue, script, n + 1, b')
  {
    if Answers(script, n) {
      AnswerAdvances(maxSteps, handoff, queue, script, n, b, b');
    } else {
      OneRoundMore(maxSteps, script, n);
      WaitingIsUnread(queue, script, n, b);
    }
  }

  lemma {:induction false} TraceIsOfScript(maxSteps: int, handoff: bool, queue: seq<string>, script: Script,
          trace: seq<Books>, n: nat)
    requires Follows(maxSteps, handoff, queue, script, trace) && n < |trace|
    ensures BooksOf(maxSteps, handoff, queue, script, n, trace[n])
  {
    if n > 0 {
      TraceIsOfScript(maxSteps, handoff, queue, script, trace, n - 1);
      assert GoesAt(maxSteps, handoff, script, trace, n - 1);
      BooksAdvance(maxSteps, handoff, queue, script, n - 1, trace[n - 1], trace[n]);
    }
  }

  // ---------------------------------------------------------------- every exit, exactly

  lemma {:induction false} AnswerEndsExactly(maxSteps: int, handoff: bool, queue: seq<string>, script: Script, n: nat,
          b: Books)
    requires BooksOf(maxSteps, handoff, queue, script, n, b) && Answers(script, n)
    ensures var o := RoundOf(maxSteps, handoff, b, script(n));
            && (o.Over? && o.exit.Final? <==> FinalAt(handoff, queue, script, n))
            && (o.Over? && o.exit.Unready? <==> UnreadyAt(script, n))
            && (o.Over? && o.exit.Empty? <==> EmptyAt(script, n))
            && (o.Over? ==> o.exit in {Final, Unready, Empty})
  {
    WaitingIsUnread(queue, script, n, b);
  }

  /** A round ends the run in these cases, and in no other. */
  lemma {:induction false} RoundEndsExactly(maxSteps: int, handoff: bool, queue: seq<string>, script: Script, n: nat,
          b: Books)
    requires BooksOf(maxSteps, handoff, queue, script, n, b)
    ensures var o := RoundOf(maxSteps, handoff, b, script(n));
            && (o.Over? && o.exit.Final? <==> FinalAt(handoff, queue, script, n))
            && (o.Over? && o.exit.Unready? <==> UnreadyAt(script, n))
            && (o.Over? && o.exit.Empty? <==> EmptyAt(script, n))
            && (o.Over? && o.exit.Failed? <==> FailedAt(script, n))
            && (o.Over? && o.exit.PausedInGrace? <==> PausedAt(maxSteps, script, n))
            && (o.Over? ==> o.exit in {Final, Unready, Empty, Failed, PausedInGrace})
  {
    if Answers(script, n) {
      AnswerEndsExactly(maxSteps, handoff, queue, script, n, b);
    }
  }

  /** No way out of round n but being cancelled. */
  predicate NoEndAt(maxSteps: int, handoff: bool, queue: seq<string>, script: Script, n: nat) {
    && !FinalAt(handoff, queue, script, n) && !UnreadyAt(script, n) && !EmptyAt(script, n) && !FailedAt(script, n)
    && !PausedAt(maxSteps, script, n)
  }

  /** Every round before the last one leads on, and the last one, counted n, decides the
      exit: final on a good answer with nothing unread that is no evasion to be nudged,
      given up at the third unready and at the third empty answer, failed on a failure that
      is final or the fourth in a row, paused when tools are called after a round that
      called tools and spent the budget, or out of budget without such a round. */
  lemma {:induction false} RunEndsExactly(maxSteps: int, handoff: bool, queue: seq<string>, script: Script,
          trace: seq<Books>, exit: Exit, cancelled: bool)
    requires Follows(maxSteps, handoff, queue, script, trace)
    requires Ends(maxSteps, handoff, trace[|trace| - 1], script(|trace| - 1), exit, cancelled)
    ensures forall k :: 0 <= k < |trace| - 1 ==>
              GoesOn(maxSteps, script, k) && NoEndAt(maxSteps, handoff, queue, script, k)
    ensures var n := |trace| - 1;
            && (exit.PausedAtBudget? <==> !GoesOn(maxSteps, script, n))
            && (GoesOn(maxSteps, script, n) && !exit.Watched? && !exit.Cancelled? ==>
                  && (exit.Final? <==> FinalAt(handoff, queue, script, n))
                  && (exit.Unready? <==> UnreadyAt(script, n))
                  && (exit.Empty? <==> EmptyAt(script, n))
                  && (exit.Failed? <==> FailedAt(script, n))
                  && (exit.PausedInGrace? <==> PausedAt(maxSteps, script, n))
                  && !NoEndAt(maxSteps, handoff, queue, script, n))
            && (exit.Cancelled? ==>
                  cancelled && CallsTools(script, n) && GoesOn(maxSteps, script, n)
                  && NoEndAt(maxSteps, handoff, queue, script, n))
  {
    forall k | 0 <= k < |trace| - 1
      ensures GoesOn(maxSteps, script, k) && NoEndAt(maxSteps, handoff, queue, script, k)
    {
      TraceIsOfScript(maxSteps, handoff, queue, script, trace, k);
      assert GoesAt(maxSteps, handoff, script, trace, k);
      RoundEndsExactly(maxSteps, handoff, queue, script, k, trace[k]);
    }
    var n := |trace| - 1;
    TraceIsOfScript(maxSteps, handoff, queue, script, trace, n);
    RoundEndsExactly(maxSteps, handoff, queue, script, n, trace[n]);
  }

  // ---------------------------------------------------------------- steers

  /** The steers queued before round n, in order. */
  function QueuedBefore(queue: seq<string>, script: Script, n: nat): seq<string> {
    if n == 0 then queue else QueuedBefore(queue, script, n - 1) + script(n - 1).arrived + script(n - 1).late
  }

  lemma {:induction false} DeliveryKeepsOrder(b: Books, round: Round)
    ensures var n := Queued(Delivered(Queued(b, round.arrived)), round.late);
            n.consumed + n.waiting == b.consumed + b.waiting + round.arrived + round.late
  {
    var q := Queued(b, round.arrived);
    if q.waiting != [] {
      assert q.waiting == [q.waiting[0]] + q.waiting[1..];
    }
  }

  lemma {:induction false} AnswerKeepsQueue(handoff: bool, b: Books, r: Reply)
    requires r.Completed?
    ensures var o := Answer(handoff, b, r);
            o.books.consumed == b.consumed && o.books.waiting == b.waiting
            && (o.Over? && o.exit.Final? ==> b.waiting == [])
  {
  }

  lemma {:induction false} ToolsKeepQueue(maxSteps: int, b: Books)
    ensures var o := Tools(maxSteps, b);
            o.books.consumed == b.consumed && o.books.waiting == b.waiting && !(o.Over? && o.exit.Final?)
  {
  }

  lemma {:induction false} RoundKeepsQueue(maxSteps: int, handoff: bool, b: Books, round: Round)
    ensures var n := Queued(Delivered(Queued(b, round.arrived)), round.late);
            var o := RoundOf(maxSteps, handoff, b, round);
            o.books.consumed == n.consumed && o.books.waiting == n.waiting
            && (o.Over? && o.exit.Final? ==> n.waiting == [])
  {
    var n := Queued(Delivered(Queued(b, round.arrived)), round.late).(recoveries := 0);
    if round.reply.Completed? {
      if round.reply.calls == [] {
        AnswerKeepsQueue(handoff, n, round.reply);
      } else {
        ToolsKeepQueue(maxSteps, n);
      }
    }
  }

  lemma {:induction false} RoundDelivers(maxSteps: int, handoff: bool, b: Books, round: Round)
    ensures var o := RoundOf(maxSteps, handoff, b, round);
            o.books.consumed + o.books.waiting == b.consumed + b.waiting + round.arrived + round.late
            && (o.Over? && o.exit.Final? ==> o.books.waiting == [])
  {
    DeliveryKeepsOrder(b, round);
    RoundKeepsQueue(maxSteps, handoff, b, round);
  }

  /** Steers are delivered in the order they were queued, each once: at every round those
      delivered, then those waiting, are all that were queued. */
  lemma {:induction false} SteersInOrder(maxSteps: int, handoff: bool, queue: seq<string>, script: Script,
          trace: seq<Books>, n: nat)
    requires Follows(maxSteps, handoff, queue, script, trace) && n < |trace|
    ensures trace[n].consumed + trace[n].waiting == QueuedBefore(queue, script, n)
  {
    if n > 0 {
      SteersInOrder(maxSteps, handoff, queue, script, trace, n - 1);
      assert GoesAt(maxSteps, handoff, script, trace, n - 1);
      RoundDelivers(maxSteps, handoff, trace[n - 1], script(n - 1));
    } else {
      assert trace[0].consumed + trace[0].waiting == [] + queue == queue;
    }
  }

  /** A final answer comes when every steer was delivered. */
  lemma {:induction false} FinalReadsEverySteer(maxSteps: int, handoff: bool, queue: seq<string>, script: Script,
          trace: seq<Books>, cancelled: bool)
    requires Follows(maxSteps, handoff, queue, script, trace)
    requires Ends(maxSteps, handoff, trace[|trace| - 1], script(|trace| - 1), Final, cancelled)
    ensures var o := RoundOf(maxSteps, handoff, trace[|trace| - 1], script(|trace| - 1)).books;
            o.consumed == QueuedBefore(queue, script, |trace|)
  {
    var last := |trace| - 1;
    SteersInOrder(maxSteps, handoff, queue, script, trace, last);
    RoundDelivers(maxSteps, handoff, trace[last], script(last));
    assert QueuedBefore(queue, script, |trace|)
           == QueuedBefore(queue, script, last) + script(last).arrived + script(last).late;
  }
}
