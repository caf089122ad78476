/** The canonical task list (internal/agent/agent.go): kept live by todo_write and
    complete_step, and rebuilt from the transcript after a load or a rewind. */
module TodoState {
  import opened Texts
  import opened Transcripts

  datatype Todo = Todo(content: string, status: string, activeForm: string, level: int)

  type Todos = seq<Todo>

  function Canonical(status: string): string {
    var s := TrimSpace(status);
    if s == "" then "pending" else s
  }

  /** The part of an item that a citation is matched against. */
  datatype Wording = Wording(content: string, activeForm: string)

  function Wordings(todos: Todos): (w: seq<Wording>)
    ensures |w| == |todos| && forall i :: 0 <= i < |todos| ==> w[i] == Wording(todos[i].content, todos[i].activeForm)
  {
    seq(|todos|, i requires 0 <= i < |todos| => Wording(todos[i].content, todos[i].activeForm))
  }

  /** Reading a call's JSON arguments, and matching a cited step to an item, the latter
      as far as it matters here: by the wording of the items it names one or none. */
  datatype Reader = Reader(todos: string -> Todos, step: string -> string, cite: (string, seq<Wording>) -> Option<nat>)

  function MatchStep(r: Reader, step: string, todos: Todos): (m: Option<nat>)
    ensures m.Some? ==> m.value < |todos|
  {
    var m := r.cite(step, Wordings(todos));
    if m.Some? && m.value < |todos| then m else None
  }

  predicate Is(t: Todo, status: string) {
    Canonical(t.status) == status
  }

  predicate AnyIs(todos: Todos, status: string) {
    exists i :: 0 <= i < |todos| && Is(todos[i], status)
  }

  function FirstPending(todos: Todos, i: nat): (k: nat)
    requires i <= |todos|
    ensures i <= k <= |todos| && (k < |todos| ==> Is(todos[k], "pending"))
    ensures forall j :: i <= j < k ==> !Is(todos[j], "pending")
    decreases |todos| - i
  {
    if i == |todos| || Is(todos[i], "pending") then i else FirstPending(todos, i + 1)
  }

  function Promoted(todos: Todos): Todos {
    var k := FirstPending(todos, 0);
    if AnyIs(todos, "in_progress") || k == |todos| then todos else todos[k := todos[k].(status := "in_progress")]
  }

  predicate Hits(r: Reader, todos: Todos, step: string) {
    var m := MatchStep(r, step, todos);
    m.Some? && !Is(todos[m.value], "completed")
  }

  /** One sign-off on the list. */
  function Advance(r: Reader, todos: Todos, step: string): Todos {
    if !Hits(r, todos, step) then todos
    else
      var m := MatchStep(r, step, todos).value;
      Promoted(todos[m := todos[m].(status := "completed")])
  }

  function AdvanceAll(r: Reader, todos: Todos, steps: seq<string>): Todos {
    if steps == [] then todos else Advance(r, AdvanceAll(r, todos, steps[..|steps| - 1]), steps[|steps| - 1])
  }

  ghost predicate AtMostOneInProgress(todos: Todos) {
    forall i, j :: 0 <= i < j < |todos| ==> !(Is(todos[i], "in_progress") && Is(todos[j], "in_progress"))
  }

  /** Only statuses move, and never away from completed. */
  ghost predicate Forward(before: Todos, after: Todos) {
    && |after| == |before|
    && (forall i :: 0 <= i < |before| ==> after[i] == before[i].(status := after[i].status))
    && (forall i :: 0 <= i < |before| && Is(before[i], "completed") ==> Is(after[i], "completed"))
  }

  lemma {:induction false} PlainStatuses()
    ensures Canonical("completed") == "completed"
    ensures Canonical("in_progress") == "in_progress"
    ensures Canonical("pending") == "pending"
  {
  }

  /** A sign-off only moves forward, keeps at most one item in progress, and, if it took,
      completes the cited item and leaves something in progress or nothing pending. */
  lemma {:induction false} AdvanceMovesForward(r: Reader, todos: Todos, step: string)
    ensures Forward(todos, Advance(r, todos, step))
    ensures AtMostOneInProgress(todos) ==> AtMostOneInProgress(Advance(r, todos, step))
    ensures Hits(r, todos, step) ==> Is(Advance(r, todos, step)[MatchStep(r, step, todos).value], "completed")
    ensures Hits(r, todos, step) ==>
            AnyIs(Advance(r, todos, step), "in_progress") || !AnyIs(Advance(r, todos, step), "pending")
  {
    PlainStatuses();
    if Hits(r, todos, step) {
      var m := MatchStep(r, step, todos).value;
      var signed := todos[m := todos[m].(status := "completed")];
      var k := FirstPending(signed, 0);
      if !AnyIs(signed, "in_progress") && k < |signed| {
        assert Is(Promoted(signed)[k], "in_progress");
      }
    }
  }

  /** One sign-off, item by item: the cited item, if unfinished, is completed; then, if no
      other item is in progress, the first other pending one is; all else stays. */
  lemma {:induction false} AdvanceExactly(r: Reader, todos: Todos, step: string, i: nat)
    requires i < |todos|
    ensures |Advance(r, todos, step)| == |todos|
    ensures var m := MatchStep(r, step, todos);
            Advance(r, todos, step)[i] ==
              if m.None? || Is(todos[m.value], "completed") then todos[i]
              else if i == m.value then todos[i].(status := "completed")
              else if Is(todos[i], "pending")
                  && (forall j :: 0 <= j < |todos| && j != m.value ==> !Is(todos[j], "in_progress"))
                  && (forall j :: 0 <= j < i && j != m.value ==> !Is(todos[j], "pending"))
                then todos[i].(status := "in_progress")
              else todos[i]
  {
    PlainStatuses();
    if Hits(r, todos, step) {
      var m := MatchStep(r, step, todos).value;
      var signed := todos[m := todos[m].(status := "completed")];
      var k := FirstPending(signed, 0);
      assert forall j :: 0 <= j < |todos| && j != m ==> signed[j] == todos[j];
      assert AnyIs(signed, "in_progress") <==> exists j :: 0 <= j < |todos| && j != m && Is(todos[j], "in_progress");
    }
  }

  lemma {:induction false} AdvanceAllMovesForward(r: Reader, todos: Todos, steps: seq<string>)
    ensures Forward(todos, AdvanceAll(r, todos, steps))
    ensures AtMostOneInProgress(todos) ==> AtMostOneInProgress(AdvanceAll(r, todos, steps))
  {
    if steps != [] {
      AdvanceAllMovesForward(r, todos, steps[..|steps| - 1]);
      AdvanceMovesForward(r, AdvanceAll(r, todos, steps[..|steps| - 1]), steps[|steps| - 1]);
    }
  }

  lemma {:induction false} AdvanceAllSnoc(r: Reader, todos: Todos, steps: seq<string>, step: string)
    ensures AdvanceAll(r, todos, steps + [step]) == Advance(r, AdvanceAll(r, todos, steps), step)
  {
    assert (steps + [step])[..|steps|] == steps;
  }

  lemma {:induction false} AdvanceAllSplits(r: Reader, todos: Todos, a: seq<string>, b: seq<string>)
    ensures AdvanceAll(r, todos, a + b) == AdvanceAll(r, AdvanceAll(r, todos, a), b)
  {
    if b == [] {
      assert a + b == a;
    } else {
      assert (a + b)[..|a + b| - 1] == a + b[..|b| - 1];
      AdvanceAllSplits(r, todos, a, b[..|b| - 1]);
    }
  }

  /** Sign-offs leave a list as it is exactly when none of them cites an unfinished item. */
  lemma {:induction false} AdvanceAllIdleExactly(r: Reader, todos: Todos, steps: seq<string>)
    ensures AdvanceAll(r, todos, steps) == todos <==> forall s :: s in steps ==> !Hits(r, todos, s)
    decreases |steps|
  {
    if steps != [] {
      var s, rest := steps[0], steps[1..];
      assert [s] + rest == steps;
      AdvanceAllSplits(r, todos, [s], rest);
      assert AdvanceAll(r, todos, [s]) == Advance(r, todos, s) by { assert [s][..0] == []; }
      if Hits(r, todos, s) {
        AdvanceMovesForward(r, todos, s);
        AdvanceAllMovesForward(r, Advance(r, todos, s), rest);
        var m := MatchStep(r, s, todos).value;
        assert Is(AdvanceAll(r, todos, steps)[m], "completed");
      } else {
        AdvanceAllIdleExactly(r, todos, rest);
      }
    }
  }

  // ---- What a series of sign-offs comes to ----

  /** The unfinished items that steps cite. */
  ghost predicate Cites(r: Reader, todos: Todos, steps: seq<string>, i: int) {
    0 <= i < |todos| && !Is(todos[i], "completed") && exists s :: s in steps && MatchStep(r, s, todos) == Some(i)
  }

  ghost function Cited(r: Reader, todos: Todos, steps: seq<string>): set<int> {
    set i | 0 <= i < |todos| && Cites(r, todos, steps, i)
  }

  function Finished(todos: Todos, done: set<int>): (t: Todos)
    ensures |t| == |todos|
    ensures forall i :: 0 <= i < |todos| ==> t[i] == if i in done then todos[i].(status := "completed") else todos[i]
  {
    seq(|todos|, i requires 0 <= i < |todos| => if i in done then todos[i].(status := "completed") else todos[i])
  }

  /** All of them completed at once, and one promotion. */
  function SignedOff(todos: Todos, done: set<int>): Todos {
    if done == {} then todos else Promoted(Finished(todos, done))
  }

  lemma {:induction false} PromotionKeepsWordings(todos: Todos)
    ensures Wordings(Promoted(todos)) == Wordings(todos)
  {
  }

  lemma {:induction false} SignOffKeepsWordings(todos: Todos, done: set<int>)
    ensures Wordings(SignedOff(todos, done)) == Wordings(todos)
  {
    PromotionKeepsWordings(Finished(todos, done));
    assert Wordings(Finished(todos, done)) == Wordings(todos);
  }

  lemma {:induction false} PromotionFinishesNothing(todos: Todos, i: int)
    requires 0 <= i < |todos|
    ensures |Promoted(todos)| == |todos|
    ensures Is(Promoted(todos)[i], "completed") <==> Is(todos[i], "completed")
  {
    PlainStatuses();
    var k := FirstPending(todos, 0);
    assert k < |todos| ==> Is(todos[k], "pending");
  }

  /** Which items are finished after a sign-off of a set. */
  lemma {:induction false} SignedOffFinishes(todos: Todos, done: set<int>, i: int)
    requires 0 <= i < |todos|
    ensures |SignedOff(todos, done)| == |todos|
    ensures Is(SignedOff(todos, done)[i], "completed") <==> Is(todos[i], "completed") || i in done
  {
    if done != {} {
      PlainStatuses();
      PromotionFinishesNothing(Finished(todos, done), i);
    }
  }

  /** Promoting does nothing more where nothing is promoted or something is in progress. */
  lemma {:induction false} PromotedOnce(todos: Todos, i: int)
    requires 0 <= i < |todos| && !Is(todos[i], "completed")
    ensures |Promoted(todos)| == |todos|
    ensures Promoted(Promoted(todos)[i := Promoted(todos)[i].(status := "completed")])
            == Promoted(todos[i := todos[i].(status := "completed")])
  {
    PlainStatuses();
    var once := Promoted(todos);
    var plain := todos[i := todos[i].(status := "completed")];
    var late := once[i := once[i].(status := "completed")];
    var k := FirstPending(todos, 0);
    if AnyIs(todos, "in_progress") || k == |todos| {
      assert once == todos;
    } else if k == i {
      assert late == plain;
    } else {
      assert late[k] == todos[k].(status := "in_progress") && Is(late[k], "in_progress");
      assert Promoted(late) == late;
      assert !AnyIs(plain, "in_progress");
      assert forall j :: 0 <= j < k ==> !Is(plain[j], "pending");
      assert Is(plain[k], "pending");
      assert FirstPending(plain, 0) == k;
    }
  }

  /** A sign-off on top of a set adds its item to the set, if it cites one unfinished. */
  lemma {:induction false} AdvanceAddsToSet(r: Reader, todos: Todos, done: set<int>, step: string)
    requires forall i :: i in done ==> 0 <= i < |todos| && !Is(todos[i], "completed")
    ensures var m := MatchStep(r, step, todos);
            Advance(r, SignedOff(todos, done), step)
            == SignedOff(todos, if m.Some? && !Is(todos[m.value], "completed") then done + {m.value as int} else done)
  {
    PlainStatuses();
    var now := SignedOff(todos, done);
    SignOffKeepsWordings(todos, done);
    assert |now| == |todos| by {
      assert |Wordings(now)| == |Wordings(todos)|;
    }
    var m := MatchStep(r, step, todos);
    assert MatchStep(r, step, now) == m;
    if m.Some? {
      var i := m.value;
      SignedOffFinishes(todos, done, i);
      if !Is(todos[i], "completed") {
        if i in done {
          assert done + {i as int} == done;
        } else {
          var all := Finished(todos, done + {i as int});
          var some := Finished(todos, done);
          assert all == some[i := some[i].(status := "completed")];
          assert done + {i as int} != {};
          if done == {} {
            assert some == todos;
          } else {
            PromotedOnce(some, i);
          }
        }
      }
    }
  }

  /** Sign-offs complete exactly the unfinished items they cite and promote once; neither
      their order nor a repetition shows. */
  lemma {:induction false} AdvanceAllIsSet(r: Reader, todos: Todos, steps: seq<string>)
    ensures AdvanceAll(r, todos, steps) == SignedOff(todos, Cited(r, todos, steps))
  {
    if steps == [] {
      assert Cited(r, todos, steps) == {};
    } else {
      var init, last := steps[..|steps| - 1], steps[|steps| - 1];
      AdvanceAllIsSet(r, todos, init);
      AdvanceAddsToSet(r, todos, Cited(r, todos, init), last);
      CitedSnoc(r, todos, init, last);
      assert init + [last] == steps;
    }
  }

  lemma {:induction false} CitedSnoc(r: Reader, todos: Todos, steps: seq<string>, step: string)
    ensures var m := MatchStep(r, step, todos);
            Cited(r, todos, steps + [step])
            == if m.Some? && !Is(todos[m.value], "completed") then Cited(r, todos, steps) + {m.value as int}
                else Cited(r, todos, steps)
  {
    var m := MatchStep(r, step, todos);
    forall i | 0 <= i < |todos|
      ensures Cites(r, todos, steps + [step], i)
              <==> Cites(r, todos, steps, i) || (m == Some(i) && !Is(todos[i], "completed"))
    {
      if Cites(r, todos, steps, i) {
        var s :| s in steps && MatchStep(r, s, todos) == Some(i);
        assert s in steps + [step];
      }
      if m == Some(i) {
        assert step in steps + [step];
      }
    }
  }

  /** Two series of sign-offs on one list come to the same exactly when they cite the same
      unfinished items. */
  lemma {:induction false} SignOffsAgreeExactly(r: Reader, todos: Todos, a: seq<string>, b: seq<string>)
    ensures AdvanceAll(r, todos, a) == AdvanceAll(r, todos, b) <==> Cited(r, todos, a) == Cited(r, todos, b)
  {
    AdvanceAllIsSet(r, todos, a);
    AdvanceAllIsSet(r, todos, b);
    var ca, cb := Cited(r, todos, a), Cited(r, todos, b);
    if AdvanceAll(r, todos, a) == AdvanceAll(r, todos, b) {
      forall i | 0 <= i < |todos| ensures i in ca <==> i in cb {
        SignedOffFinishes(todos, ca, i);
        SignedOffFinishes(todos, cb, i);
      }
      assert ca == cb;
    }
  }

  // ---- Rebuilding from a transcript ----

  predicate ToolResultFailed(content: string) {
    var c := TrimSpace(content);
    "error:" <= c || "blocked:" <= c || "Error:" <= c || "[error" <= c
  }

  predicate Opens(s: string, n: nat, word: string)
    requires n <= |s|
  {
    word <= s[n..] && forall k :: 0 <= k < n ==> IsSpace(s[k])
  }

  predicate Wordlike(word: string) {
    word != "" && forall k :: 0 <= k < |word| ==> !IsSpace(word[k])
  }

  lemma {:induction false} OpeningIsWhereTextBegins(before: string, text: string, after: string, n: nat, word: string)
    requires Wordlike(word)
    requires forall k :: 0 <= k < |before| ==> IsSpace(before[k])
    requires forall k :: 0 <= k < |after| ==> IsSpace(after[k])
    requires text != [] ==> !IsSpace(text[0])
    requires n <= |before + text + after| && Opens(before + text + after, n, word)
    ensures n == |before|
  {
    var s := before + text + after;
    assert s[n] == s[n..][0] == word[0] && !IsSpace(word[0]);
    assert n < |before| + |text|;
    assert s[|before|] == text[0];
    var j := if n < |before| then n else 0;
    assert j < |before| ==> before[j] == s[j];
  }

  lemma {:induction false} WordStaysInText(text: string, after: string, word: string)
    requires Wordlike(word) && word <= text + after && forall k :: 0 <= k < |after| ==> IsSpace(after[k])
    ensures word <= text
  {
    var i := if |text| < |word| then |text| else 0;
    assert word[i] == (text + after)[i];
    assert |word| <= |text|;
    assert (text + after)[..|word|] == text[..|word|];
  }

  /** Trimming shows whether a text opens with a word behind white space. */
  lemma {:induction false} TrimShowsOpening(s: string, word: string)
    requires Wordlike(word)
    ensures word <= TrimSpace(s) <==> exists n :: 0 <= n <= |s| && Opens(s, n, word)
  {
    var before, after := TrimsExactly(s);
    var text := TrimSpace(s);
    assert s[|before|..] == text + after;
    if word <= text {
      assert Opens(s, |before|, word);
    }
    if n :| 0 <= n <= |s| && Opens(s, n, word) {
      OpeningIsWhereTextBegins(before, text, after, n, word);
      WordStaysInText(text, after, word);
    }
  }

  /** A result reads as failed when behind white space it opens with one of four words. */
  lemma {:induction false} FailedExactly(content: string)
    ensures ToolResultFailed(content) <==>
              exists n :: 0 <= n <= |content|
                          && (Opens(content, n, "error:") || Opens(content, n, "blocked:")
                             || Opens(content, n, "Error:") || Opens(content, n, "[error"))
  {
    TrimShowsOpening(content, "error:");
    TrimShowsOpening(content, "blocked:");
    TrimShowsOpening(content, "Error:");
    TrimShowsOpening(content, "[error");
  }

  function Successful(m: Message): set<string> {
    if m.role.Tool? && m.toolCallId != "" && !ToolResultFailed(m.content) then {m.toolCallId} else {}
  }

  /** Ids with a successful result among the first n messages. */
  function SuccessfulIds(msgs: Transcript, n: nat): set<string>
    requires n <= |msgs|
  {
    if n == 0 then {} else SuccessfulIds(msgs, n - 1) + Successful(msgs[n - 1])
  }

  /** The list written by the last successful todo_write among the first k calls. */
  function LastWrite(r: Reader, calls: seq<ToolCall>, ok: set<string>, k: nat): Option<Todos>
    requires k <= |calls|
  {
    if k == 0 then None
    else if calls[k - 1].name == "todo_write" && calls[k - 1].id in ok then Some(r.todos(calls[k - 1].arguments))
    else LastWrite(r, calls, ok, k - 1)
  }

  /** Steps signed off by the first k calls. */
  function SignOffs(r: Reader, calls: seq<ToolCall>, ok: set<string>, k: nat): seq<string>
    requires k <= |calls|
  {
    if k == 0 then []
    else
      var rest := SignOffs(r, calls, ok, k - 1);
      if calls[k - 1].name == "complete_step" && calls[k - 1].id in ok then rest + [r.step(calls[k - 1].arguments)]
      else rest
  }

  datatype Base = NoBase | Base(index: nat, todos: Todos)

  function FindBase(r: Reader, msgs: Transcript, ok: set<string>, n: nat): (b: Base)
    requires n <= |msgs|
    ensures b.Base? ==> b.index < n
  {
    if n == 0 then NoBase
    else
      var w := LastWrite(r, msgs[n - 1].calls, ok, |msgs[n - 1].calls|);
      if w.Some? then Base(n - 1, w.value) else FindBase(r, msgs, ok, n - 1)
  }

  function SignOffsBetween(r: Reader, msgs: Transcript, ok: set<string>, from: nat, n: nat): seq<string>
    requires from <= n <= |msgs|
  {
    if n == from then []
    else SignOffsBetween(r, msgs, ok, from, n - 1) + SignOffs(r, msgs[n - 1].calls, ok, |msgs[n - 1].calls|)
  }

  function RebuiltFrom(r: Reader, msgs: Transcript, ok: set<string>): Todos {
    match FindBase(r, msgs, ok, |msgs|)
    case NoBase => []
    case Base(i, todos) => AdvanceAll(r, todos, SignOffsBetween(r, msgs, ok, i, |msgs|))
  }

  function Rebuilt(r: Reader, msgs: Transcript): Todos {
    RebuiltFrom(r, msgs, SuccessfulIds(msgs, |msgs|))
  }

  method SuccessfulToolCallIDs(msgs: Transcript) returns (ok: set<string>)
    ensures ok == SuccessfulIds(msgs, |msgs|)
  {
    ok := {};
    for i := 0 to |msgs|
      invariant ok == SuccessfulIds(msgs, i)
    {
      if !msgs[i].role.Tool? || msgs[i].toolCallId == "" {
        continue;
      }
      if !ToolResultFailed(msgs[i].content) {
        ok := ok + {msgs[i].toolCallId};
      }
    }
  }

  lemma {:induction false} SignOffStep(r: Reader, todos: Todos, upTo: seq<string>, calls: seq<ToolCall>,
          ok: set<string>, k: nat)
    requires k < |calls| && calls[k].name == "complete_step" && calls[k].id in ok
    ensures AdvanceAll(r, todos, upTo + SignOffs(r, calls, ok, k + 1))
            == Advance(r, AdvanceAll(r, todos, upTo + SignOffs(r, calls, ok, k)), r.step(calls[k].arguments))
  {
    var done, step := upTo + SignOffs(r, calls, ok, k), r.step(calls[k].arguments);
    AdvanceAllSnoc(r, todos, done, step);
    assert upTo + SignOffs(r, calls, ok, k + 1) == done + [step];
  }

  class TaskList {
    var todos: Todos

    constructor ()
      ensures todos == []
    {
      todos := [];
    }

    method SetTodoState(items: Todos)
      modifies this
      ensures todos == items
    {
      todos := items;
    }

    method PromoteNextPendingTodo()
      modifies this
      ensures todos == Promoted(old(todos))
    {
      for i := 0 to |todos|
        invariant todos == old(todos) && forall k :: 0 <= k < i ==> !Is(todos[k], "in_progress")
      {
        if Is(todos[i], "in_progress") {
          return;
        }
      }
      for i := 0 to |todos|
        invariant todos == old(todos) && forall k :: 0 <= k < i ==> !Is(todos[k], "pending")
      {
        if Is(todos[i], "pending") {
          todos := todos[i := todos[i].(status := "in_progress")];
          return;
        }
      }
    }

    method AdvanceCanonicalTodo(r: Reader, step: string)
      modifies this
      ensures todos == Advance(r, old(todos), step)
    {
      if |todos| == 0 {
        return;
      }
      var m := MatchStep(r, step, todos);
      if m.None? || Is(todos[m.value], "completed") {
        return;
      }
      todos := todos[m.value := todos[m.value].(status := "completed")];
      PromoteNextPendingTodo();
    }

    method RebuildTodoState(r: Reader, msgs: Transcript)
      modifies this
      ensures todos == Rebuilt(r, msgs)
    {
      var ok := SuccessfulToolCallIDs(msgs);
      var list, baseIdx := LastTodoWrite(r, msgs, ok);
      if baseIdx < 0 {
        SetTodoState([]);
        return;
      }
      SetTodoState(list);
      ReplaySignOffs(r, msgs, ok, baseIdx);
    }

    /** The first pass of a rebuild. */
    static method LastTodoWrite(r: Reader, msgs: Transcript, ok: set<string>) returns (list: Todos, baseIdx: int)
      ensures FindBase(r, msgs, ok, |msgs|) == if baseIdx < 0 then NoBase else Base(baseIdx, list)
    {
      list, baseIdx := [], -1;
      for i := 0 to |msgs|
        invariant FindBase(r, msgs, ok, i) == if baseIdx < 0 then NoBase else Base(baseIdx, list)
      {
        var calls := msgs[i].calls;
        for k := 0 to |calls|
          invariant match LastWrite(r, calls, ok, k)
                    case None => FindBase(r, msgs, ok, i) == if baseIdx < 0 then NoBase else Base(baseIdx, list)
                    case Some(written) => baseIdx == i && list == written
        {
          if calls[k].name != "todo_write" || calls[k].id !in ok {
            continue;
          }
          list, baseIdx := r.todos(calls[k].arguments), i;
        }
      }
    }

    /** The second pass, from the message of the last todo_write on. */
    method ReplaySignOffs(r: Reader, msgs: Transcript, ok: set<string>, baseIdx: nat)
      requires baseIdx <= |msgs|
      modifies this
      ensures todos == AdvanceAll(r, old(todos), SignOffsBetween(r, msgs, ok, baseIdx, |msgs|))
    {
      ghost var list := todos;
      for i := baseIdx to |msgs|
        invariant todos == AdvanceAll(r, list, SignOffsBetween(r, msgs, ok, baseIdx, i))
      {
        var calls := msgs[i].calls;
        ghost var upTo := SignOffsBetween(r, msgs, ok, baseIdx, i);
        assert upTo + [] == upTo;
        for k := 0 to |calls|
          invariant todos == AdvanceAll(r, list, upTo + SignOffs(r, calls, ok, k))
        {
          if calls[k].name != "complete_step" || calls[k].id !in ok {
            continue;
          }
          SignOffStep(r, list, upTo, calls, ok, k);
          var step := r.step(calls[k].arguments);
          var m := MatchStep(r, step, todos);
          if m.Some? && !Is(todos[m.value], "completed") {
            todos := todos[m.value := todos[m.value].(status := "completed")];
            PromoteNextPendingTodo();
          }
        }
      }
    }
  }
}
