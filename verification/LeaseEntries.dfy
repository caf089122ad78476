/** When exactly an owner's registry entry is still there, over every interleaving of
    Leases (internal/agent/session_lease.go:66-146). */
module LeaseEntries {
  import opened Transcripts
  import opened Leases
  import opened LeaseTheorems

  /** The event is another operation's Store into the registry, by which it reclaims the
      session that operation a has an owner id for. */
  predicate StoresOver(w: World, e: Event, a: Actor) {
    && e.Advance? && e.actor != a && a in w.ops && w.ops[a].id.Some? && e.actor in w.ops
    && w.ops[e.actor].pc.ReclaimRegister? && w.ops[e.actor].proc == w.ops[a].proc
    && w.ops[e.actor].path == w.ops[a].path
  }

  lemma {:induction false} ReclaimStores(w: World, b: Actor, ok: bool)
    requires b in w.ops && Fits(w.ops[b]) && w.ops[b].pc.ReclaimRegister?
    ensures var w' := Step(w, b, ok);
            w' != w && Access(w, w', b) && w'.ops[b].id == Some(w.seqNo)
  {
    assert Step(w, b, ok) == Enter(w, b, ReclaimInfo);
  }

  lemma {:induction false} AccessOnEntry(w: World, w': World, b: Actor, a: Actor)
    requires Inv(w) && a in w.ops && b in w.ops && a != b && w.ops[a].id.Some? && Access(w, w', b)
    requires w.ops[b].pc.ReclaimRegister? ==> w'.ops[b].id == Some(w.seqNo)
    ensures w'.ops[a] == w.ops[a]
    ensures Registered(w', w.ops[a]) <==> Registered(w, w.ops[a]) && !StoresOver(w, Advance(b, true), a)
  {
    assert Fits(w.ops[b]);
  }

  lemma {:induction false} OtherAccessOnEntry(w: World, b: Actor, ok: bool, a: Actor)
    requires Inv(w) && a in w.ops && b in w.ops && a != b && w.ops[a].id.Some?
    ensures var w' := Step(w, b, ok);
            && a in w'.ops && w'.ops[a] == w.ops[a]
            && (Registered(w', w.ops[a]) <==> Registered(w, w.ops[a]) && !StoresOver(w, Advance(b, ok), a))
  {
    var w' := Step(w, b, ok);
    assert Fits(w.ops[b]);
    if w.ops[b].pc.ReclaimRegister? {
      ReclaimStores(w, b, ok);
    }
    if w' != w {
      AccessOnEntry(w, w', b, a);
    }
  }

  lemma {:induction false} OwnAccessOnEntry(w: World, w': World, a: Actor)
    requires Inv(w) && a in w.ops && Access(w, w', a) && w'.ops[a].id.Some?
    ensures if w.ops[a].id == w'.ops[a].id then Registered(w', w'.ops[a]) <==> Registered(w, w.ops[a])
            else w'.ops[a].id == Some(w.seqNo) && Registered(w', w'.ops[a])
  {
  }

  ghost predicate EntryMoved(w: World, e: Event, w': World, a: Actor)
    requires a in w'.ops && w'.ops[a].id.Some?
  {
    var op' := w'.ops[a];
    if a in w.ops && w.ops[a].id == op'.id then Registered(w', op') <==> Registered(w, w.ops[a]) && !StoresOver(w, e, a)
    else op'.id == Some(w.seqNo) && Registered(w', op')
  }

  lemma {:induction false} AccessEntryStep(w: World, b: Actor, ok: bool, a: Actor)
    requires Inv(w) && b in w.ops && a in Step(w, b, ok).ops && Step(w, b, ok).ops[a].id.Some?
    ensures EntryMoved(w, Advance(b, ok), Step(w, b, ok), a)
  {
    if Step(w, b, ok) != w {
      if a == b {
        OwnAccessOnEntry(w, Step(w, a, ok), a);
      } else {
        OtherAccessOnEntry(w, b, ok, a);
      }
    } else if w.ops[b].pc.ReclaimRegister? {
      assert Fits(w.ops[b]);
      ReclaimStores(w, b, ok);
    }
  }

  lemma {:induction false} BeginOnEntry(w: World, e: Event, a: Actor)
    requires Inv(w) && e.Begin? && a in Apply(w, e).ops && Apply(w, e).ops[a].id.Some?
    ensures EntryMoved(w, e, Apply(w, e), a)
  {
  }

  lemma {:induction false} CrashOnEntry(w: World, e: Event, a: Actor)
    requires Inv(w) && e.Crash? && a in Apply(w, e).ops && Apply(w, e).ops[a].id.Some?
    ensures EntryMoved(w, e, Apply(w, e), a)
  {
  }

  lemma {:induction false} OrphanOnEntry(w: World, e: Event, a: Actor)
    requires Inv(w) && e.Orphan? && a in Apply(w, e).ops && Apply(w, e).ops[a].id.Some?
    ensures EntryMoved(w, e, Apply(w, e), a)
  {
  }

  lemma {:induction false} AdvanceOnEntry(w: World, e: Event, a: Actor)
    requires Inv(w) && e.Advance? && a in Apply(w, e).ops && Apply(w, e).ops[a].id.Some?
    ensures EntryMoved(w, e, Apply(w, e), a)
  {
    if e.actor in w.ops {
      AccessEntryStep(w, e.actor, e.ok, a);
    }
  }

  /** One event: an entry that was there is gone exactly after such a Store, and one that
      was not does not come back; a new owner id is entered. */
  lemma {:induction false} EntryStep(w: World, e: Event, a: Actor)
    requires Inv(w) && a in Apply(w, e).ops && Apply(w, e).ops[a].id.Some?
    ensures EntryMoved(w, e, Apply(w, e), a)
  {
    match e
    case Begin(_, _, _, _) => BeginOnEntry(w, e, a);
    case Advance(_, _) => AdvanceOnEntry(w, e, a);
    case Crash(_) => CrashOnEntry(w, e, a);
    case Orphan(_) => OrphanOnEntry(w, e, a);
  }

  lemma {:induction false} SeqNoGrows(events: seq<Event>, k: nat)
    requires k <= |events|
    ensures Run(START, events[..k]).seqNo <= Run(START, events).seqNo
    decreases |events|
  {
    if k < |events| {
      var init := events[..|events| - 1];
      assert init[..k] == events[..k];
      SeqNoGrows(init, k);
    } else {
      assert events[..k] == events;
    }
  }

  lemma {:induction false} IdsAreNew(events: seq<Event>, k: nat, a: Actor)
    requires k <= |events| && a in Run(START, events[..k]).ops
    ensures Run(START, events[..k]).ops[a].id != Some(Run(START, events).seqNo)
  {
    SeqNoGrows(events, k);
    InvHolds(events[..k]);
  }

  /** Since operation a entered the registry with this id, another one has stored over it. */
  ghost predicate Overtaken(events: seq<Event>, a: Actor, id: Option<nat>) {
    exists k :: 0 <= k < |events| && OvertakenAt(events, k, a, id)
  }

  predicate OvertakenAt(events: seq<Event>, k: nat, a: Actor, id: Option<nat>)
    requires k < |events|
  {
    var at := Run(START, events[..k]);
    StoresOver(at, events[k], a) && at.ops[a].id == id
  }

  lemma {:induction false} SameMoment(events: seq<Event>, k: nat, a: Actor, id: Option<nat>)
    requires k < |events| - 1
    ensures OvertakenAt(events[..|events| - 1], k, a, id) <==> OvertakenAt(events, k, a, id)
  {
    assert events[..|events| - 1][..k] == events[..k];
  }

  lemma {:induction false} OvertakenSnoc(events: seq<Event>, a: Actor, id: Option<nat>)
    requires events != []
    ensures Overtaken(events, a, id) <==>
              Overtaken(events[..|events| - 1], a, id) || OvertakenAt(events, |events| - 1, a, id)
  {
    var init := events[..|events| - 1];
    if Overtaken(init, a, id) {
      var k :| 0 <= k < |init| && OvertakenAt(init, k, a, id);
      SameMoment(events, k, a, id);
    }
    if Overtaken(events, a, id) {
      var k :| 0 <= k < |events| && OvertakenAt(events, k, a, id);
      if k < |init| {
        SameMoment(events, k, a, id);
      }
    }
  }

  /** Over every run: what entered the registry is there exactly until another operation,
      reclaiming the same session, stores over it. */
  lemma {:induction false} RegisteredExactly(events: seq<Event>, a: Actor)
    requires var w := Run(START, events); a in w.ops && w.ops[a].id.Some?
    ensures var w := Run(START, events); Registered(w, w.ops[a]) <==> !Overtaken(events, a, w.ops[a].id)
    decreases |events|
  {
    if events != [] {
      var init, e := events[..|events| - 1], events[|events| - 1];
      var before, id := Run(START, init), Run(START, events).ops[a].id;
      InvHolds(init);
      EntryStep(before, e, a);
      OvertakenSnoc(events, a, id);
      if a in before.ops && before.ops[a].id == id {
        RegisteredExactly(init, a);
      } else {
        forall k | 0 <= k < |init| ensures !OvertakenAt(init, k, a, id) {
          if a in Run(START, init[..k]).ops {
            IdsAreNew(init, k, a);
          }
        }
      }
    }
  }

  /** Once it holds its lock, nobody stores over a lease: what it has then it keeps. */
  lemma {:induction false} LeaseKeepsItsEntry(w: World, e: Event, a: Actor)
    requires Inv(w) && a in w.ops && IsLease(w.ops[a])
    requires a in Apply(w, e).ops && Apply(w, e).ops[a].id == w.ops[a].id
    ensures Registered(Apply(w, e), Apply(w, e).ops[a]) <==> Registered(w, w.ops[a])
  {
    EntryStep(w, e, a);
    assert w.leaseLocks[w.ops[a].path] == a;
    assert !StoresOver(w, e, a) by {
      if e.Advance? && e.actor in w.ops && e.actor != a && w.ops[e.actor].pc.ReclaimRegister? {
        assert Fits(w.ops[e.actor]) && w.leaseLocks[w.ops[e.actor].path] == e.actor;
      }
    }
  }
}
