/** When a turn's prompt size triggers compaction, and the latch that pauses it
    (maybeCompact in internal/agent/compact.go). */
module CompactTrigger {

  /** The configured thresholds in tokens; window 0 disables compaction. */
  datatype Limits = Limits(window: nat, soft: nat, snip: nat, high: nat, force: nat)

  datatype Latch = Latch(softNoticed: bool, consecutive: nat, stuck: bool)

  /** One turn: its prompt, whether pruning found stale results and the tokens it saved
      (a placeholder may be longer), and whether a compaction would succeed. */
  datatype Turn = Turn(prompt: nat, pruned: bool, saved: int, compactOk: bool)

  datatype Action = Idle | Clear | Notice | Snip | PruneOnly | Compact | CompactFailed

  function ActionOf(l: Limits, s: Latch, t: Turn): Action {
    if l.window == 0 || t.prompt == 0 then Idle
    else if l.soft <= t.prompt < l.snip && !s.softNoticed then Notice
    else if l.snip <= t.prompt < l.high then Snip
    else if t.prompt < l.high then Clear
    else if s.stuck then Idle
    else if t.pruned && t.prompt < l.force && t.prompt - t.saved < l.high then PruneOnly
    else if t.compactOk then Compact
    else CompactFailed
  }

  /** The turns that give a latched agent its breathing room. */
  predicate Clears(l: Limits, s: Latch, t: Turn) {
    l.window > 0 && 0 < t.prompt < l.high && t.prompt < l.snip && (t.prompt < l.soft || s.softNoticed)
  }

  class Trigger {
    var softCompactNoticed: bool
    var consecutiveCompacts: nat
    var compactStuck: bool

    constructor ()
      ensures State() == Latch(false, 0, false)
    {
      softCompactNoticed, consecutiveCompacts, compactStuck := false, 0, false;
    }

    function State(): Latch
      reads this
    {
      Latch(softCompactNoticed, consecutiveCompacts, compactStuck)
    }

    method MaybeCompact(l: Limits, t: Turn) returns (action: Action)
      modifies this
      ensures action == ActionOf(l, old(State()), t)
      ensures State() == After(l, old(State()), t)
    {
      if l.window == 0 || t.prompt == 0 {
        return Idle;
      }
      if t.prompt >= l.soft && t.prompt < l.snip && !softCompactNoticed {
        softCompactNoticed := true;
        return Notice;
      }
      if t.prompt >= l.snip && t.prompt < l.high {
        return Snip;
      }
      if t.prompt < l.high {
        consecutiveCompacts := 0;
        compactStuck := false;
        return Clear;
      }
      if compactStuck {
        return Idle;
      }
      var force := t.prompt >= l.force;
      if t.pruned {
        if !force && t.prompt - t.saved < l.high {
          return PruneOnly;
        }
      }
      if !t.compactOk {
        return CompactFailed;
      }
      consecutiveCompacts := consecutiveCompacts + 1;
      if consecutiveCompacts >= 2 {
        compactStuck := true;
      }
      return Compact;
    }
  }

  function After(l: Limits, s: Latch, t: Turn): Latch {
    match ActionOf(l, s, t)
    case Notice => s.(softNoticed := true)
    case Compact => s.(consecutive := s.consecutive + 1, stuck := s.stuck || s.consecutive + 1 >= 2)
    case Clear => s.(consecutive := 0, stuck := false)
    case _ => s
  }

  function AfterAll(l: Limits, s: Latch, ts: seq<Turn>): Latch {
    if ts == [] then s else After(l, AfterAll(l, s, ts[..|ts| - 1]), ts[|ts| - 1])
  }

  function Compactions(l: Limits, s: Latch, ts: seq<Turn>): nat {
    if ts == [] then 0
    else
      var init, last := ts[..|ts| - 1], ts[|ts| - 1];
      Compactions(l, s, init) + if ActionOf(l, AfterAll(l, s, init), last).Compact? then 1 else 0
  }

  /** No re-compaction loop: from a cleared latch, turns that never clear it run at most
      two compactions, however many they are; then the agent is paused. */
  lemma {:induction false} AtMostTwoCompactions(l: Limits, s: Latch, ts: seq<Turn>)
    requires s.consecutive == 0 && !s.stuck
    requires forall k :: 0 <= k < |ts| ==> !Clears(l, AfterAll(l, s, ts[..k]), ts[k])
    ensures var at := AfterAll(l, s, ts);
            Compactions(l, s, ts) == at.consecutive <= 2 && (at.stuck <==> at.consecutive == 2)
    decreases |ts|
  {
    if ts != [] {
      var init := ts[..|ts| - 1];
      forall k | 0 <= k < |init| ensures init[..k] == ts[..k] {}
      assert ts[..|init|] == init;
      AtMostTwoCompactions(l, s, init);
    }
  }

  /** The pause is lifted by exactly the clearing turns: a prompt back under the trigger
      but still at or over the snip threshold does not lift it, nor does the turn that
      spends the soft notice. */
  lemma {:induction false} PauseLiftedExactly(l: Limits, s: Latch, t: Turn)
    requires s.stuck
    ensures !After(l, s, t).stuck <==> Clears(l, s, t)
  {
  }

  /** Such a turn exists: the prompt drops under the trigger and the agent stays paused. */
  lemma {:induction false} DropUnderTriggerMayNotLift()
    ensures var l := Limits(100, 50, 60, 80, 90);
            var s := Latch(true, 2, true);
            var t := Turn(70, false, 0, true);
            t.prompt < l.high && After(l, s, t).stuck
  {
  }

  /** The trigger does fire: since the latch was last cleared, a prompt at or over it is
      compacted until that has happened twice, unless pruning alone brought a prompt under
      the force threshold back under the trigger, and then never again. */
  lemma {:induction false} TriggerFiresExactly(l: Limits, s: Latch, ts: seq<Turn>, t: Turn)
    requires s.consecutive == 0 && !s.stuck
    requires forall k :: 0 <= k < |ts| ==> !Clears(l, AfterAll(l, s, ts[..k]), ts[k])
    requires l.window > 0 && t.prompt > 0 && l.snip <= t.prompt && l.high <= t.prompt
    ensures var action := ActionOf(l, AfterAll(l, s, ts), t);
            var prunedEnough := t.pruned && t.prompt < l.force && t.prompt - t.saved < l.high;
            && (action.Compact? <==> Compactions(l, s, ts) < 2 && !prunedEnough && t.compactOk)
            && (action.CompactFailed? <==> Compactions(l, s, ts) < 2 && !prunedEnough && !t.compactOk)
            && (action.PruneOnly? <==> Compactions(l, s, ts) < 2 && prunedEnough)
            && (action.Idle? <==> Compactions(l, s, ts) == 2)
  {
    AtMostTwoCompactions(l, s, ts);
  }

  /** Under the trigger: results are snipped from the snip threshold on, the notice is
      given once from the soft one on, and nothing is ever compacted. */
  lemma {:induction false} UnderTriggerExactly(l: Limits, s: Latch, ts: seq<Turn>, t: Turn)
    requires !s.softNoticed && l.window > 0 && 0 < t.prompt < l.high
    ensures var action := ActionOf(l, AfterAll(l, s, ts), t);
            && (action.Snip? <==> l.snip <= t.prompt)
            && (action.Notice? <==> l.soft <= t.prompt < l.snip && forall k :: 0 <= k < |ts| ==>
                                      !Notices(l, ts[k]))
            && action in {Snip, Notice, Clear}
  {
    NoticedOnce(l, s, ts);
  }

  /** A prompt between the soft and the snip threshold. */
  predicate Notices(l: Limits, t: Turn) {
    l.window > 0 && 0 < t.prompt && l.soft <= t.prompt < l.snip
  }

  lemma {:induction false} NoticedOnce(l: Limits, s: Latch, ts: seq<Turn>)
    requires !s.softNoticed
    ensures AfterAll(l, s, ts).softNoticed <==> exists k :: 0 <= k < |ts| && Notices(l, ts[k])
  {
    if ts != [] {
      var init := ts[..|ts| - 1];
      NoticedOnce(l, s, init);
      assert forall k :: 0 <= k < |init| ==> init[k] == ts[k];
      assert forall k :: 0 <= k < |ts| ==> k == |init| || ts[k] == init[k];
    }
  }
}
