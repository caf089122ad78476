/** The rebuilt task list against the live one, over every run of messages and tool
    batches (internal/agent/agent.go:1491-1608, 2488-2506). */
module TodoTheorems {
  import opened Texts
  import opened Transcripts
  import opened TodoState

  /** A message of the user or the host, or an answer without calls. */
  type Plain = m: Message | !m.role.Tool? && m.calls == [] witness Message(User, "", "", "", [])

  datatype Executed = Executed(call: ToolCall, ok: bool, output: string)

  /** One thing added to the conversation: a plain message, or a model turn and the calls
      it made, each executed. */
  datatype Event = Said(message: Plain) | Called(text: string, runs: seq<Executed>)

  function Calls(runs: seq<Executed>): (calls: seq<ToolCall>)
    ensures |calls| == |runs| && forall i :: 0 <= i < |runs| ==> calls[i] == runs[i].call
  {
    seq(|runs|, i requires 0 <= i < |runs| => runs[i].call)
  }

  function ResultOf(e: Executed): Message {
    Message(Tool, e.output, e.call.name, e.call.id, [])
  }

  function Results(runs: seq<Executed>): (t: Transcript)
    ensures |t| == |runs| && forall i :: 0 <= i < |runs| ==> t[i] == ResultOf(runs[i])
  {
    seq(|runs|, i requires 0 <= i < |runs| => ResultOf(runs[i]))
  }

  function Messages(e: Event): Transcript {
    match e
    case Said(m) => [m]
    case Called(text, runs) => [Message(Assistant, text, "", "", Calls(runs))] + Results(runs)
  }

  function TranscriptOf(run: seq<Event>): Transcript {
    if run == [] then [] else TranscriptOf(run[..|run| - 1]) + Messages(run[|run| - 1])
  }

  function LiveCall(r: Reader, todos: Todos, e: Executed): Todos {
    if !e.ok then todos
    else if e.call.name == "complete_step" then Advance(r, todos, r.step(e.call.arguments))
    else if e.call.name == "todo_write" then r.todos(e.call.arguments)
    else todos
  }

  /** What executing the first k calls of a turn does to the live list. */
  function LiveCalls(r: Reader, todos: Todos, runs: seq<Executed>, k: nat): Todos
    requires k <= |runs|
  {
    if k == 0 then todos else LiveCall(r, LiveCalls(r, todos, runs, k - 1), runs[k - 1])
  }

  function Live(r: Reader, run: seq<Event>): Todos {
    if run == [] then []
    else
      var before := Live(r, run[..|run| - 1]);
      match run[|run| - 1]
      case Said(_) => before
      case Called(_, runs) => LiveCalls(r, before, runs, |runs|)
  }

  predicate Tracked(call: ToolCall) {
    call.name == "todo_write" || call.name == "complete_step"
  }

  /** Call i of turn e. */
  ghost predicate Made(run: seq<Event>, e: int, i: int) {
    0 <= e < |run| && run[e].Called? && 0 <= i < |run[e].runs|
  }

  /** Result texts tell success from failure for the calls that matter, and call ids are
      non-empty and never reused. */
  ghost predicate Faithful(run: seq<Event>) {
    && (forall e, i :: Made(run, e, i) ==>
          && run[e].runs[i].call.id != ""
          && (Tracked(run[e].runs[i].call) ==> (run[e].runs[i].ok <==> !ToolResultFailed(run[e].runs[i].output))))
    && (forall e, i, f, j ::
          && Made(run, e, i) && Made(run, f, j)
          && run[e].runs[i].call.id == run[f].runs[j].call.id
          ==> e == f && i == j)
  }

  lemma {:induction false} SuccessfulIdsMeans(msgs: Transcript, n: nat, id: string)
    requires n <= |msgs|
    ensures id in SuccessfulIds(msgs, n) <==> exists i :: 0 <= i < n && id in Successful(msgs[i])
  {
    if n > 0 {
      SuccessfulIdsMeans(msgs, n - 1, id);
    }
  }

  lemma {:induction false} MessageInTurn(e: Event, k: nat)
    requires k < |Messages(e)| && Messages(e)[k].role.Tool?
    ensures e.Called? && 0 < k <= |e.runs| && Messages(e)[k] == ResultOf(e.runs[k - 1])
  {
    match e
    case Said(m) =>
    case Called(text, runs) =>
      assert Messages(e)[0].role.Assistant?;
      assert Messages(e)[k] == Results(runs)[k - 1];
  }

  lemma {:induction false} IndexIn(a: Transcript, b: Transcript, p: nat)
    requires p < |a + b|
    ensures if p < |a| then (a + b)[p] == a[p] else p - |a| < |b| && (a + b)[p] == b[p - |a|]
  {
  }

  predicate ResultAt(run: seq<Event>, e: nat, i: nat, m: Message) {
    e < |run| && run[e].Called? && i < |run[e].runs| && m == ResultOf(run[e].runs[i])
  }

  /** Where each message of the transcript comes from. */
  lemma {:induction false} EveryResultHasItsCall(run: seq<Event>, p: nat) returns (e: nat, i: nat)
    requires p < |TranscriptOf(run)| && TranscriptOf(run)[p].role.Tool?
    ensures ResultAt(run, e, i, TranscriptOf(run)[p])
  {
    var init, last := run[..|run| - 1], Messages(run[|run| - 1]);
    IndexIn(TranscriptOf(init), last, p);
    if p < |TranscriptOf(init)| {
      e, i := EveryResultHasItsCall(init, p);
    } else {
      e, i := LastTurnHasCall(run, last, p - |TranscriptOf(init)|);
    }
  }

  lemma {:induction false} LastTurnHasCall(run: seq<Event>, last: Transcript, k: nat) returns (e: nat, i: nat)
    requires run != [] && last == Messages(run[|run| - 1]) && k < |last| && last[k].role.Tool?
    ensures ResultAt(run, e, i, last[k])
  {
    MessageInTurn(run[|run| - 1], k);
    e, i := |run| - 1, k - 1;
  }

  /** Where the result of call i of turn e lands. */
  function Place(run: seq<Event>, e: nat, i: nat): nat
    requires e < |run|
  {
    |TranscriptOf(run[..e])| + 1 + i
  }

  lemma {:induction false} TranscriptGrows(run: seq<Event>, n: nat)
    requires n <= |run|
    ensures TranscriptOf(run[..n]) <= TranscriptOf(run)
  {
    if n < |run| {
      assert run[..|run| - 1][..n] == run[..n];
      TranscriptGrows(run[..|run| - 1], n);
    } else {
      assert run[..n] == run;
    }
  }

  lemma {:induction false} PlacedInTurn(before: Transcript, text: string, runs: seq<Executed>, i: nat)
    requires i < |runs|
    ensures var t := before + Messages(Called(text, runs));
            |before| + 1 + i < |t| && t[|before| + 1 + i] == ResultOf(runs[i])
  {
    var m := Messages(Called(text, runs));
    assert m[1 + i] == Results(runs)[i];
  }

  lemma {:induction false} EveryCallHasItsResult(run: seq<Event>, e: nat, i: nat)
    requires Made(run, e, i)
    ensures Place(run, e, i) < |TranscriptOf(run)| && TranscriptOf(run)[Place(run, e, i)] == ResultOf(run[e].runs[i])
  {
    assert run[..e + 1][..e] == run[..e];
    var upTo, p := TranscriptOf(run[..e + 1]), Place(run, e, i);
    assert upTo == TranscriptOf(run[..e]) + Messages(run[e]);
    PlacedInTurn(TranscriptOf(run[..e]), run[e].text, run[e].runs, i);
    TranscriptGrows(run, e + 1);
    assert upTo[p] == TranscriptOf(run)[p];
  }

  /** The ids a rebuild takes for successful are those of the calls that succeeded. */
  ghost predicate Agrees(run: seq<Event>, ok: set<string>) {
    forall e, i :: Made(run, e, i) && Tracked(run[e].runs[i].call) ==>
        (run[e].runs[i].call.id in ok <==> run[e].runs[i].ok)
  }

  lemma {:induction false} SuccessShows(run: seq<Event>, e: nat, i: nat) returns (p: nat)
    requires Faithful(run) && Made(run, e, i) && Tracked(run[e].runs[i].call) && run[e].runs[i].ok
    ensures p < |TranscriptOf(run)| && run[e].runs[i].call.id in Successful(TranscriptOf(run)[p])
  {
    EveryCallHasItsResult(run, e, i);
    p := Place(run, e, i);
  }

  lemma {:induction false} OnlySuccessShows(run: seq<Event>, e: nat, i: nat, p: nat)
    requires Faithful(run) && Made(run, e, i) && Tracked(run[e].runs[i].call)
    requires p < |TranscriptOf(run)| && run[e].runs[i].call.id in Successful(TranscriptOf(run)[p])
    ensures run[e].runs[i].ok
  {
    var f, j := EveryResultHasItsCall(run, p);
    assert Made(run, f, j);
    assert run[f].runs[j].call.id == run[e].runs[i].call.id;
  }

  lemma {:induction false} RebuildSeesCall(run: seq<Event>, e: nat, i: nat)
    requires Faithful(run) && Made(run, e, i) && Tracked(run[e].runs[i].call)
    ensures run[e].runs[i].call.id in SuccessfulIds(TranscriptOf(run), |TranscriptOf(run)|) <==> run[e].runs[i].ok
  {
    var t, id := TranscriptOf(run), run[e].runs[i].call.id;
    SuccessfulIdsMeans(t, |t|, id);
    if run[e].runs[i].ok {
      var p := SuccessShows(run, e, i);
    }
    if p :| 0 <= p < |t| && id in Successful(t[p]) {
      OnlySuccessShows(run, e, i, p);
    }
  }

  lemma {:induction false} RebuildSeesSuccess(run: seq<Event>)
    requires Faithful(run)
    ensures Agrees(run, SuccessfulIds(TranscriptOf(run), |TranscriptOf(run)|))
  {
    forall e, i | Made(run, e, i) && Tracked(run[e].runs[i].call)
      ensures run[e].runs[i].call.id in SuccessfulIds(TranscriptOf(run), |TranscriptOf(run)|) <==> run[e].runs[i].ok
    {
      RebuildSeesCall(run, e, i);
    }
  }

  /** Since the last successful todo_write: the list it wrote, the sign-offs that came
      before it in its own message, and those after it. */
  datatype Account = Nothing | Account(written: Todos, early: seq<string>, late: seq<string>)

  /** Steps signed off by the first k calls of a turn. */
  function StepsSoFar(r: Reader, runs: seq<Executed>, k: nat): seq<string>
    requires k <= |runs|
  {
    if k == 0 then []
    else
      var rest := StepsSoFar(r, runs, k - 1);
      if runs[k - 1].ok && runs[k - 1].call.name == "complete_step" then rest + [r.step(runs[k - 1].call.arguments)]
      else rest
  }

  /** One more call, in a turn that has signed off these steps already. */
  function AccountCall(r: Reader, a: Account, signed: seq<string>, e: Executed): Account {
    if !e.ok then a
    else if e.call.name == "todo_write" then Account(r.todos(e.call.arguments), signed, [])
    else if e.call.name == "complete_step" && a.Account? then a.(late := a.late + [r.step(e.call.arguments)])
    else a
  }

  /** The account after the first k calls of a turn. */
  function AccountCalls(r: Reader, a: Account, runs: seq<Executed>, k: nat): Account
    requires k <= |runs|
  {
    if k == 0 then a else AccountCall(r, AccountCalls(r, a, runs, k - 1), StepsSoFar(r, runs, k - 1), runs[k - 1])
  }

  function AccountOf(r: Reader, run: seq<Event>): Account {
    if run == [] then Nothing
    else
      var before := AccountOf(r, run[..|run| - 1]);
      match run[|run| - 1]
      case Said(_) => before
      case Called(_, runs) => AccountCalls(r, before, runs, |runs|)
  }

  function LiveList(r: Reader, a: Account): Todos {
    match a
    case Nothing => []
    case Account(written, _, late) => AdvanceAll(r, written, late)
  }

  lemma {:induction false} LiveCallAccount(r: Reader, a: Account, signed: seq<string>, e: Executed)
    ensures LiveCall(r, LiveList(r, a), e) == LiveList(r, AccountCall(r, a, signed, e))
  {
    if a.Account? && e.ok && e.call.name == "complete_step" {
      AdvanceAllSnoc(r, a.written, a.late, r.step(e.call.arguments));
    }
  }

  lemma {:induction false} LiveCallsAccount(r: Reader, a: Account, runs: seq<Executed>, k: nat)
    requires k <= |runs|
    ensures LiveCalls(r, LiveList(r, a), runs, k) == LiveList(r, AccountCalls(r, a, runs, k))
  {
    if k > 0 {
      LiveCallsAccount(r, a, runs, k - 1);
      LiveCallAccount(r, AccountCalls(r, a, runs, k - 1), StepsSoFar(r, runs, k - 1), runs[k - 1]);
    }
  }

  lemma {:induction false} LiveAccount(r: Reader, run: seq<Event>)
    ensures Live(r, run) == LiveList(r, AccountOf(r, run))
  {
    if run != [] {
      LiveAccount(r, run[..|run| - 1]);
      if run[|run| - 1].Called? {
        LiveCallsAccount(r, AccountOf(r, run[..|run| - 1]), run[|run| - 1].runs, |run[|run| - 1].runs|);
      }
    }
  }

  ghost predicate AgreesOn(runs: seq<Executed>, ok: set<string>) {
    forall i :: 0 <= i < |runs| && Tracked(runs[i].call) ==> (runs[i].call.id in ok <==> runs[i].ok)
  }

  lemma {:induction false} RebuildReadsCalls(r: Reader, a: Account, runs: seq<Executed>, ok: set<string>, k: nat)
    requires k <= |runs| && AgreesOn(runs, ok)
    ensures SignOffs(r, Calls(runs), ok, k) == StepsSoFar(r, runs, k)
    ensures var w, b := LastWrite(r, Calls(runs), ok, k), AccountCalls(r, a, runs, k);
            if w.Some? then b.Account? && b.written == w.value && b.early + b.late == SignOffs(r, Calls(runs), ok, k)
            else if a.Nothing? then b.Nothing?
            else b == a.(late := a.late + SignOffs(r, Calls(runs), ok, k))
  {
    if k > 0 {
      RebuildReadsCalls(r, a, runs, ok, k - 1);
      var b, step := AccountCalls(r, a, runs, k - 1), r.step(runs[k - 1].call.arguments);
      assert Tracked(runs[k - 1].call) ==> (runs[k - 1].call.id in ok <==> runs[k - 1].ok);
      if b.Account? {
        assert b.early + (b.late + [step]) == b.early + b.late + [step];
      }
      if a.Account? {
        assert a.late + SignOffs(r, Calls(runs), ok, k - 1) + [step]
            == a.late + (SignOffs(r, Calls(runs), ok, k - 1) + [step]);
      }
    } else if a.Account? {
      assert a.late + [] == a.late;
    }
  }

  /** Messages without calls do not move the base or sign anything off. */
  lemma {:induction false} QuietTail(r: Reader, msgs: Transcript, ok: set<string>, from: nat, n: nat)
    requires from <= n <= |msgs| && forall i :: n <= i < |msgs| ==> msgs[i].calls == []
    ensures FindBase(r, msgs, ok, |msgs|) == FindBase(r, msgs, ok, n)
    ensures SignOffsBetween(r, msgs, ok, from, |msgs|) == SignOffsBetween(r, msgs, ok, from, n)
  {
    for k := n to |msgs|
      invariant FindBase(r, msgs, ok, k) == FindBase(r, msgs, ok, n)
      invariant SignOffsBetween(r, msgs, ok, from, k) == SignOffsBetween(r, msgs, ok, from, n)
    {
      assert SignOffsBetween(r, msgs, ok, from, k) + [] == SignOffsBetween(r, msgs, ok, from, k);
    }
  }

  /** Looking at the first n messages does not depend on the ones after them. */
  lemma {:induction false} LocalReading(r: Reader, a: Transcript, b: Transcript, ok: set<string>, from: nat, n: nat)
    requires from <= n <= |a|
    ensures FindBase(r, a + b, ok, n) == FindBase(r, a, ok, n)
    ensures SignOffsBetween(r, a + b, ok, from, n) == SignOffsBetween(r, a, ok, from, n)
    decreases n
  {
    if n > 0 {
      assert (a + b)[n - 1] == a[n - 1];
      LocalReading(r, a, b, ok, if from < n then from else n - 1, n - 1);
    }
  }

  /** What a rebuild reads off the transcript, in terms of the account. */
  ghost predicate Tells(base: Base, signed: seq<string>, a: Account) {
    match base
    case NoBase => a.Nothing?
    case Base(_, todos) => a.Account? && a.written == todos && a.early + a.late == signed
  }

  function SignedSince(r: Reader, msgs: Transcript, ok: set<string>, base: Base): seq<string>
    requires base.Base? ==> base.index <= |msgs|
  {
    if base.Base? then SignOffsBetween(r, msgs, ok, base.index, |msgs|) else []
  }

  ghost predicate Reads(r: Reader, msgs: Transcript, ok: set<string>, a: Account) {
    var base := FindBase(r, msgs, ok, |msgs|);
    Tells(base, SignedSince(r, msgs, ok, base), a)
  }

  lemma {:induction false} PlainKeepsReading(r: Reader, msgs: Transcript, ok: set<string>, a: Account, m: Plain)
    requires Reads(r, msgs, ok, a)
    ensures Reads(r, msgs + [m], ok, a)
  {
    var was := FindBase(r, msgs, ok, |msgs|);
    var from := if was.Base? then was.index else 0;
    LocalReading(r, msgs, [m], ok, from, |msgs|);
    QuietTail(r, msgs + [m], ok, from, |msgs|);
  }

  /** One more message, then messages without calls. */
  lemma {:induction false} OneMoreMessage(r: Reader, msgs: Transcript, ok: set<string>, m: Message, quiet: Transcript,
          from: nat)
    requires from <= |msgs| && forall i :: 0 <= i < |quiet| ==> quiet[i].calls == []
    ensures var all, w := msgs + [m] + quiet, LastWrite(r, m.calls, ok, |m.calls|);
            FindBase(r, all, ok, |all|) == if w.Some? then Base(|msgs|, w.value) else FindBase(r, msgs, ok, |msgs|)
    ensures var all := msgs + [m] + quiet;
            && SignOffsBetween(r, all, ok, from, |all|)
               == SignOffsBetween(r, msgs, ok, from, |msgs|) + SignOffs(r, m.calls, ok, |m.calls|)
            && SignOffsBetween(r, all, ok, |msgs|, |all|) == SignOffs(r, m.calls, ok, |m.calls|)
  {
    var n, all := |msgs|, msgs + [m] + quiet;
    assert all == msgs + ([m] + quiet) && all[n] == m;
    LocalReading(r, msgs, [m] + quiet, ok, from, n);
    assert forall i :: n + 1 <= i < |all| ==> all[i] == quiet[i - n - 1];
    QuietTail(r, all, ok, from, n + 1);
    QuietTail(r, all, ok, n, n + 1);
    assert SignOffsBetween(r, all, ok, n, n + 1) == [] + SignOffs(r, m.calls, ok, |m.calls|);
  }

  /** The step on values: a message that writes a list starts over, one that does not
      adds its sign-offs. */
  lemma {:induction false} TellsStep(was: Base, before: seq<string>, a: Account, n: nat, w: Option<Todos>,
          signed: seq<string>, b: Account)
    requires Tells(was, before, a)
    requires if w.Some? then b.Account? && b.written == w.value && b.early + b.late == signed
             else if a.Nothing? then b.Nothing?
             else b == a.(late := a.late + signed)
    ensures if w.Some? then Tells(Base(n, w.value), signed, b)
            else Tells(was, if was.Base? then before + signed else [], b)
  {
    if w.None? && a.Account? {
      assert a.early + (a.late + signed) == a.early + a.late + signed;
    }
  }

  lemma {:induction false} TurnKeepsReading(r: Reader, msgs: Transcript, ok: set<string>, a: Account, m: Message,
          quiet: Transcript, runs: seq<Executed>)
    requires Reads(r, msgs, ok, a) && AgreesOn(runs, ok) && m.calls == Calls(runs)
    requires forall i :: 0 <= i < |quiet| ==> quiet[i].calls == []
    ensures Reads(r, msgs + [m] + quiet, ok, AccountCalls(r, a, runs, |runs|))
  {
    var was := FindBase(r, msgs, ok, |msgs|);
    RebuildReadsCalls(r, a, runs, ok, |runs|);
    OneMoreMessage(r, msgs, ok, m, quiet, if was.Base? then was.index else 0);
    TellsStep(was, SignedSince(r, msgs, ok, was), a, |msgs|, LastWrite(r, m.calls, ok, |m.calls|),
        SignOffs(r, m.calls, ok, |m.calls|), AccountCalls(r, a, runs, |runs|));
  }

  lemma {:induction false} TurnInParts(msgs: Transcript, text: string, runs: seq<Executed>)
    returns (m: Message, quiet: Transcript)
    ensures m.calls == Calls(runs) && forall i :: 0 <= i < |quiet| ==> quiet[i].calls == []
    ensures msgs + Messages(Called(text, runs)) == msgs + [m] + quiet
  {
    m, quiet := Message(Assistant, text, "", "", Calls(runs)), Results(runs);
    assert msgs + ([m] + quiet) == msgs + [m] + quiet;
  }

  lemma {:induction false} CalledKeepsReading(r: Reader, msgs: Transcript, ok: set<string>, a: Account, text: string,
          runs: seq<Executed>)
    requires Reads(r, msgs, ok, a) && AgreesOn(runs, ok)
    ensures Reads(r, msgs + Messages(Called(text, runs)), ok, AccountCalls(r, a, runs, |runs|))
  {
    var m, quiet := TurnInParts(msgs, text, runs);
    TurnKeepsReading(r, msgs, ok, a, m, quiet, runs);
  }

  lemma {:induction false} AgreementSplits(run: seq<Event>, ok: set<string>)
    requires run != [] && Agrees(run, ok)
    ensures Agrees(run[..|run| - 1], ok)
    ensures run[|run| - 1].Called? ==> AgreesOn(run[|run| - 1].runs, ok)
  {
    var init, last := run[..|run| - 1], run[|run| - 1];
    forall e, i | Made(init, e, i) && Tracked(init[e].runs[i].call)
      ensures init[e].runs[i].call.id in ok <==> init[e].runs[i].ok
    {
      assert Made(run, e, i);
    }
    forall i | last.Called? && 0 <= i < |last.runs| && Tracked(last.runs[i].call)
      ensures last.runs[i].call.id in ok <==> last.runs[i].ok
    {
      assert Made(run, |run| - 1, i);
    }
  }

  lemma {:induction false} RebuildAccount(r: Reader, run: seq<Event>, ok: set<string>)
    requires Agrees(run, ok)
    ensures Reads(r, TranscriptOf(run), ok, AccountOf(r, run))
  {
    if run != [] {
      var init := run[..|run| - 1];
      AgreementSplits(run, ok);
      RebuildAccount(r, init, ok);
      match run[|run| - 1]
      case Said(m) => PlainKeepsReading(r, TranscriptOf(init), ok, AccountOf(r, init), m);
      case Called(text, runs) => CalledKeepsReading(r, TranscriptOf(init), ok, AccountOf(r, init), text, runs);
    }
  }

  function RebuiltList(r: Reader, a: Account): Todos {
    match a
    case Nothing => []
    case Account(written, early, late) => AdvanceAll(r, written, early + late)
  }

  /** Live and rebuilt list of any run start from the same written list; they differ only
      in that the rebuilt one also takes the sign-offs made before that todo_write in its
      own message. */
  lemma {:induction false} RebuildAgainstLive(r: Reader, run: seq<Event>)
    requires Faithful(run)
    ensures Live(r, run) == LiveList(r, AccountOf(r, run))
    ensures Rebuilt(r, TranscriptOf(run)) == RebuiltList(r, AccountOf(r, run))
  {
    LiveAccount(r, run);
    RebuildSeesSuccess(run);
    RebuildAccount(r, run, SuccessfulIds(TranscriptOf(run), |TranscriptOf(run)|));
  }

  lemma {:induction false} NothingEarly(r: Reader, a: Account)
    requires a.Account? && a.early == []
    ensures RebuiltList(r, a) == LiveList(r, a)
  {
    assert a.early + a.late == a.late;
  }

  /** With no sign-off ahead of the last todo_write in its message, rebuilding from the
      transcript gives the live list. */
  lemma {:induction false} RebuiltIsLive(r: Reader, run: seq<Event>)
    requires Faithful(run)
    requires AccountOf(r, run).Nothing? || AccountOf(r, run).early == []
    ensures Rebuilt(r, TranscriptOf(run)) == Live(r, run)
  {
    RebuildAgainstLive(r, run);
    if AccountOf(r, run).Account? {
      NothingEarly(r, AccountOf(r, run));
    }
  }

  lemma {:induction false} EarlyAddsNothing(r: Reader, a: Account)
    requires a.Account?
    ensures RebuiltList(r, a) == LiveList(r, a) <==> Cited(r, a.written, a.early) <= Cited(r, a.written, a.late)
  {
    SignOffsAgreeExactly(r, a.written, a.early + a.late, a.late);
    forall i | 0 <= i < |a.written|
      ensures Cites(r, a.written, a.early + a.late, i)
              <==> Cites(r, a.written, a.early, i) || Cites(r, a.written, a.late, i)
    {
    }
    assert Cited(r, a.written, a.early + a.late) == Cited(r, a.written, a.early) + Cited(r, a.written, a.late);
  }

  /** The rebuilt list is the live list exactly when every unfinished item cited ahead of
      the last todo_write in its own message is cited again after it. */
  lemma {:induction false} RebuiltIsLiveExactly(r: Reader, run: seq<Event>)
    requires Faithful(run) && AccountOf(r, run).Account?
    ensures var a := AccountOf(r, run);
            Rebuilt(r, TranscriptOf(run)) == Live(r, run) <==>
              Cited(r, a.written, a.early) <= Cited(r, a.written, a.late)
  {
    RebuildAgainstLive(r, run);
    EarlyAddsNothing(r, AccountOf(r, run));
  }

  lemma {:induction false} OneTurnIsFaithful(runs: seq<Executed>)
    requires forall i :: 0 <= i < |runs| ==> runs[i].call.id != "" && runs[i].ok && !ToolResultFailed(runs[i].output)
    requires forall i, j :: 0 <= i < |runs| && 0 <= j < |runs| && runs[i].call.id == runs[j].call.id ==> i == j
    ensures Faithful([Called("", runs)])
  {
    var run := [Called("", runs)];
    assert run[0].runs == runs && forall e, i :: Made(run, e, i) ==> e == 0 && 0 <= i < |runs|;
  }

  lemma {:induction false} OneTurnAccount(r: Reader, signed: Executed, wrote: Executed)
    requires signed.ok && signed.call.name == "complete_step" && wrote.ok && wrote.call.name == "todo_write"
    ensures AccountOf(r, [Called("", [signed, wrote])])
            == Account(r.todos(wrote.call.arguments), [r.step(signed.call.arguments)], [])
  {
    var runs := [signed, wrote];
    var run := [Called("", runs)];
    assert StepsSoFar(r, runs, 1) == [] + [r.step(signed.call.arguments)] == [r.step(signed.call.arguments)];
    assert AccountOf(r, run) == AccountCalls(r, Nothing, runs, 2) by { assert run[..0] == []; }
  }

  lemma {:induction false} CitedOnce(r: Reader, item: Todo, step: string)
    requires MatchStep(r, step, [item]) == Some(0) && !Is(item, "completed")
    ensures !(Cited(r, [item], [step]) <= Cited(r, [item], []))
  {
    assert step in [step];
    assert 0 in Cited(r, [item], [step]);
  }

  /** A sign-off ahead of a todo_write in one message: live drops it, the rebuild revives it. */
  lemma {:induction false} EarlySignOffIsRevived() returns (r: Reader, run: seq<Event>)
    ensures Faithful(run) && Rebuilt(r, TranscriptOf(run)) != Live(r, run)
  {
    var item := Todo("ship", "pending", "", 0);
    r := Reader(_ => [item], s => s, (_, _) => Some(0));
    var signed := Executed(ToolCall("a", "complete_step", "ship"), true, "done");
    var wrote := Executed(ToolCall("b", "todo_write", ""), true, "done");
    run := [Called("", [signed, wrote])];
    assert !ToolResultFailed("done") by { assert TrimSpace("done") == "done"; }
    OneTurnIsFaithful([signed, wrote]);
    OneTurnAccount(r, signed, wrote);
    PlainStatuses();
    CitedOnce(r, item, "ship");
    RebuiltIsLiveExactly(r, run);
  }

  /** Both lists never un-complete an item of the list last written, and keep at most one
      item in progress if that list had at most one. */
  lemma {:induction false} NeitherListGoesBack(r: Reader, run: seq<Event>)
    requires Faithful(run) && AccountOf(r, run).Account?
    ensures var written := AccountOf(r, run).written;
            forall list :: list == Live(r, run) || list == Rebuilt(r, TranscriptOf(run)) ==>
              Forward(written, list) && (AtMostOneInProgress(written) ==> AtMostOneInProgress(list))
  {
    RebuildAgainstLive(r, run);
    var a := AccountOf(r, run);
    AdvanceAllMovesForward(r, a.written, a.late);
    AdvanceAllMovesForward(r, a.written, a.early + a.late);
  }
}
