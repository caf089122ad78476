/** What holds over every interleaving of leases, guards and saves
    (internal/agent/session_lease.go, session_removal.go). */
module LeaseTheorems {
  import opened Transcripts
  import opened Leases

  // ---------------------------------------------------------------- invariant

  /** The lock tables and the operations' handles agree. */
  ghost predicate LeaseLocksMatch(w: World) {
    && (forall p :: p in w.leaseLocks ==>
       w.leaseLocks[p] in w.ops && w.ops[w.leaseLocks[p]].path == p && w.ops[w.leaseLocks[p]].lease)
    && (forall a :: a in w.ops && w.ops[a].lease ==> w.ops[a].path in w.leaseLocks && w.leaseLocks[w.ops[a].path] == a)
  }

  ghost predicate SaveLocksMatch(w: World) {
    && (forall p :: p in w.saveLocks ==>
       w.saveLocks[p] in w.ops && w.ops[w.saveLocks[p]].path == p && w.ops[w.saveLocks[p]].save)
    && (forall a :: a in w.ops && w.ops[a].save ==> w.ops[a].path in w.saveLocks && w.saveLocks[w.ops[a].path] == a)
  }

  ghost predicate IdsUnique(w: World) {
    && (forall a :: a in w.ops && w.ops[a].id.Some? ==> w.ops[a].id.value < w.seqNo)
    && (forall a, b :: a in w.ops && b in w.ops && w.ops[a].id.Some? && w.ops[a].id == w.ops[b].id ==> a == b)
    && (forall k :: k in w.registry ==> w.registry[k] < w.seqNo)
  }

  /** A lease at rest is announced under its own process. */
  ghost predicate Announced(w: World) {
    forall a :: a in w.ops && w.ops[a].pc.Held? ==> InfoOf(w, w.ops[a].path) == Names(w.ops[a].proc)
  }

  ghost predicate Handles(w: World) {
    LeaseLocksMatch(w) && SaveLocksMatch(w) && IdsUnique(w)
  }

  ghost predicate Inv(w: World) {
    Handles(w) && Announced(w) && AllFit(w)
  }

  lemma {:induction false} AccessKeepsLocks(w: World, w': World, a: Actor)
    requires Access(w, w', a) && LeaseLocksMatch(w) && SaveLocksMatch(w)
    ensures LeaseLocksMatch(w') && SaveLocksMatch(w')
  {
  }

  lemma {:induction false} AccessKeepsIds(w: World, w': World, a: Actor)
    requires Access(w, w', a) && IdsUnique(w)
    ensures IdsUnique(w')
  {
  }

  lemma {:induction false} AccessKeepsAnnounced(w: World, w': World, a: Actor)
    requires Access(w, w', a) && Inv(w)
    ensures Announced(w')
  {
  }

  lemma {:induction false} AccessKeepsInv(w: World, w': World, a: Actor)
    requires Access(w, w', a) && Inv(w)
    ensures Inv(w')
  {
    AccessKeepsLocks(w, w', a);
    AccessKeepsIds(w, w', a);
    AccessKeepsAnnounced(w, w', a);
  }

  lemma {:induction false} CrashKeepsInv(w: World, proc: Proc)
    requires Inv(w)
    ensures Inv(Apply(w, Crash(proc)))
  {
  }

  lemma {:induction false} BeginKeepsInv(w: World, a: Actor, op: Operation)
    requires Inv(w) && a !in w.ops && Fits(op) && !op.lease && !op.save && op.id.None? && !op.pc.Held?
    ensures Inv(Set(w, a, op))
  {
  }

  lemma {:induction false} OrphanKeepsLocks(w: World, a: Actor)
    requires LeaseLocksMatch(w) && SaveLocksMatch(w) && a in w.ops && w.ops[a].lease
    ensures LeaseLocksMatch(Orphaned(w, a)) && SaveLocksMatch(Orphaned(w, a))
  {
  }

  lemma {:induction false} OrphanKeepsIds(w: World, a: Actor)
    requires IdsUnique(w) && a in w.ops
    ensures IdsUnique(Orphaned(w, a))
  {
  }

  lemma {:induction false} OrphanKeepsRest(w: World, a: Actor)
    requires Announced(w) && AllFit(w) && a in w.ops && w.ops[a].pc.Held?
    ensures Announced(Orphaned(w, a)) && AllFit(Orphaned(w, a))
  {
    assert Fits(w.ops[a]);
  }

  lemma {:induction false} OrphanKeepsInv(w: World, a: Actor)
    requires Inv(w) && a in w.ops && w.ops[a].pc.Held?
    ensures Inv(Orphaned(w, a))
  {
    OrphanKeepsRest(w, a);
    OrphanKeepsIds(w, a);
    assert w.ops[a].lease by {
      assert Fits(w.ops[a]);
    }
    OrphanKeepsLocks(w, a);
  }

  lemma {:induction false} EventKeepsInv(w: World, e: Event)
    requires Inv(w)
    ensures Inv(Apply(w, e))
  {
    match e
    case Begin(a, proc, path, pc) =>
      if a !in w.ops && Initial(pc) {
        BeginKeepsInv(w, a, Operation(proc, path, pc, false, false, None));
      }
    case Advance(a, ok) =>
      if a in w.ops && Step(w, a, ok) != w {
        AccessKeepsInv(w, Step(w, a, ok), a);
      }
    case Crash(proc) => CrashKeepsInv(w, proc);
    case Orphan(a) => if a in w.ops && w.ops[a].pc.Held? { OrphanKeepsInv(w, a); }
  }

  lemma {:induction false} InvHolds(events: seq<Event>)
    ensures Inv(Run(START, events))
  {
    if events != [] {
      InvHolds(events[..|events| - 1]);
      EventKeepsInv(Run(START, events[..|events| - 1]), events[|events| - 1]);
    }
  }

  // ---------------------------------------------------------------- what it gives

  /** A lease not yet released or a guard not yet ended. */
  predicate Owns(op: Operation) {
    op.lease && (op.id.Some? || op.save)
  }

  lemma {:induction false} OwnersHoldTheLease(w: World, a: Actor, b: Actor)
    requires Inv(w) && a in w.ops && b in w.ops && w.ops[a].path == w.ops[b].path && Owns(w.ops[a]) && Owns(w.ops[b])
    ensures a == b
  {
    assert w.leaseLocks[w.ops[a].path] == a && w.leaseLocks[w.ops[b].path] == b;
  }

  lemma {:induction false} GuardKeepsSavesOut(w: World, a: Actor, b: Actor)
    requires Inv(w) && a in w.ops && b in w.ops && w.ops[a].path == w.ops[b].path && w.ops[a].pc.Guarding?
    ensures !w.ops[b].pc.Saving?
  {
    assert Fits(w.ops[a]) && Fits(w.ops[b]);
    assert w.ops[b].save ==> w.saveLocks[w.ops[b].path] == b;
  }

  /** Over every interleaving: a path has at most one unreleased lease or guard, no save
      runs under a guard, and a lease at rest is announced by its info file. */
  lemma {:induction false} AtMostOneOwner(events: seq<Event>, a: Actor, b: Actor)
    requires var w := Run(START, events); a in w.ops && b in w.ops && w.ops[a].path == w.ops[b].path
    ensures var w := Run(START, events);
            && (Owns(w.ops[a]) && Owns(w.ops[b]) ==> a == b)
            && !(w.ops[a].pc.Guarding? && w.ops[b].pc.Saving?)
            && (w.ops[a].pc.Held? ==> InfoOf(w, w.ops[a].path) == Names(w.ops[a].proc))
  {
    InvHolds(events);
    var w := Run(START, events);
    if Owns(w.ops[a]) && Owns(w.ops[b]) {
      OwnersHoldTheLease(w, a, b);
    }
    if w.ops[a].pc.Guarding? {
      GuardKeepsSavesOut(w, a, b);
    }
  }

  /** Whatever another operation does, an entry stays, unless a reclaimer who holds the
      lease lock overwrites it; then its owner is not holding that lock. */
  lemma {:induction false} OnlyItsOwnerDeletesAnEntry(w: World, w': World, owner: Actor, a: Actor)
    requires Inv(w) && owner in w.ops && Access(w, w', a) && a != owner && Registered(w, w.ops[owner])
    ensures w'.ops[owner] == w.ops[owner]
    ensures var key := Key(w.ops[owner].proc, w.ops[owner].path);
            || Registered(w', w.ops[owner])
            || (w.ops[a].lease && w.ops[a].path == key.path && w'.ops[a].id.Some? && Registered(w', w'.ops[a])
               && !w.ops[owner].lease)
  {
  }

  /** Extending a run by one more access without I/O error. */
  lemma {:induction false} Then(events: seq<Event>, w: World, a: Actor, w': World) returns (events': seq<Event>)
    requires AllFit(w) && w == Run(START, events) && a in w.ops && w' == Step(w, a, true)
    ensures Run(START, events') == w'
  {
    events' := events + [Advance(a, true)];
    assert events'[..|events|] == events;
  }

  lemma {:induction false} ReclaimLooks(w: World, a: Actor)
    requires a in w.ops && Fits(w.ops[a]) && w.ops[a].pc.ReclaimInspect?
    requires InfoOf(w, w.ops[a].path).Names? ==> InfoOf(w, w.ops[a].path).proc == w.ops[a].proc
    ensures Fits(w.ops[a].(pc := ReclaimLock)) && Step(w, a, true) == Move(w, a, ReclaimLock)
  {
    assert Step(w, a, true) == AcquireStep(w, a, true);
  }

  lemma {:induction false} LockIsTaken(w: World, a: Actor)
    requires a in w.ops && Fits(w.ops[a]) && w.ops[a].pc.ReclaimLock? && w.ops[a].path !in w.leaseLocks
    ensures Fits(w.ops[a].(lease := true, pc := ReclaimRegister))
    ensures Step(w, a, true) == TakeLease(w, a, ReclaimRegister)
  {
    assert Step(w, a, true) == AcquireStep(w, a, true);
  }

  lemma {:induction false} ReclaimLocks(events: seq<Event>, w: World, a: Actor) returns (events': seq<Event>, w': World)
    requires w == Run(START, events) && a in w.ops && w.ops[a].pc.ReclaimInspect? && w.ops[a].path !in w.leaseLocks
    requires InfoOf(w, w.ops[a].path).Names? ==> InfoOf(w, w.ops[a].path).proc == w.ops[a].proc
    ensures w' == Run(START, events') == w.(ops := w'.ops, leaseLocks := w.leaseLocks[w.ops[a].path := a])
    ensures a in w'.ops
    ensures w'.ops == w.ops[a := w'.ops[a]]
    ensures w'.ops[a].path == w.ops[a].path
    ensures w'.ops[a].proc == w.ops[a].proc
    ensures w'.ops[a].pc.ReclaimRegister?
  {
    assert Fits(w.ops[a]);
    ReclaimLooks(w, a);
    var w1 := Move(w, a, ReclaimLock);
    events' := Then(events, w, a, w1);
    LockIsTaken(w1, a);
    w' := TakeLease(w1, a, ReclaimRegister);
    events' := Then(events', w1, a, w');
  }

  lemma {:induction false} ReclaimEnters(events: seq<Event>, w: World, a: Actor)
    returns (events': seq<Event>, w': World)
    requires w == Run(START, events) && a in w.ops && w.ops[a].pc.ReclaimRegister?
    ensures w' == Run(START, events') && w'.leaseLocks == w.leaseLocks
    ensures a in w'.ops
    ensures w'.ops == w.ops[a := w'.ops[a]]
    ensures w'.ops[a].path == w.ops[a].path
    ensures w'.ops[a].proc == w.ops[a].proc
    ensures w'.ops[a].pc.Held? && Registered(w', w'.ops[a])
  {
    var w1 := Enter(w, a, ReclaimInfo);
    events' := Then(events, w, a, w1);
    w' := SaveInfo(w1, a, Held);
    events' := Then(events', w1, a, w');
  }

  /** An orphaned entry does not wedge its process: from any reachable world with the lock
      free and no foreign info, a reclaim that meets no I/O error gets a registered lease. */
  lemma {:induction false} ReclaimRecovers(events: seq<Event>, w: World, a: Actor)
    returns (events': seq<Event>, w': World)
    requires w == Run(START, events) && a in w.ops && w.ops[a].pc.ReclaimInspect? && w.ops[a].path !in w.leaseLocks
    requires InfoOf(w, w.ops[a].path).Names? ==> InfoOf(w, w.ops[a].path).proc == w.ops[a].proc
    ensures w' == Run(START, events') && a in w'.ops && w'.ops == w.ops[a := w'.ops[a]]
    ensures w'.ops[a].path == w.ops[a].path
    ensures w'.ops[a].proc == w.ops[a].proc
    ensures w'.ops[a].pc.Held?
    ensures Registered(w', w'.ops[a])
    ensures w'.leaseLocks == w.leaseLocks[w.ops[a].path := a]
  {
    events', w' := ReclaimLocks(events, w, a);
    events', w' := ReclaimEnters(events', w', a);
  }

  lemma {:induction false} InfoIsRemoved(w: World, a: Actor)
    requires a in w.ops && Fits(w.ops[a]) && w.ops[a].pc.ReleaseInfo?
    ensures Fits(w.ops[a].(pc := ReleaseUnlock)) && Step(w, a, true) == RemoveInfo(w, a, ReleaseUnlock)
  {
    assert Step(w, a, true) == ReleaseStep(w, a, true);
  }

  lemma {:induction false} LockIsDropped(w: World, a: Actor)
    requires a in w.ops && Fits(w.ops[a]) && w.ops[a].pc.ReleaseUnlock?
    ensures Fits(w.ops[a].(pc := ReleaseEntry, lease := false)) && Step(w, a, true) == DropLease(w, a, ReleaseEntry)
  {
    assert Step(w, a, true) == ReleaseStep(w, a, true);
  }

  lemma {:induction false} ReleaseUnlocks(events: seq<Event>, w: World, a: Actor)
    returns (events': seq<Event>, w': World)
    requires w == Run(START, events) && a in w.ops && w.ops[a].pc.ReleaseInfo?
    ensures w' == Run(START, events') && w'.registry == w.registry && w.ops[a].path !in w'.leaseLocks
    ensures a in w'.ops && w'.ops == w.ops[a := w'.ops[a]] && w'.ops[a] == w.ops[a].(pc := ReleaseEntry, lease := false)
  {
    assert Fits(w.ops[a]);
    InfoIsRemoved(w, a);
    var w1 := RemoveInfo(w, a, ReleaseUnlock);
    events' := Then(events, w, a, w1);
    LockIsDropped(w1, a);
    w' := DropLease(w1, a, ReleaseEntry);
    events' := Then(events', w1, a, w');
  }

  lemma {:induction false} ReleaseLeaves(events: seq<Event>, w: World, a: Actor)
    returns (events': seq<Event>, w': World)
    requires w == Run(START, events) && a in w.ops && w.ops[a].pc.ReleaseEntry? && Registered(w, w.ops[a])
    ensures w' == Run(START, events') && a in w'.ops && w'.ops == w.ops[a := w'.ops[a]] && w'.leaseLocks == w.leaseLocks
    ensures Key(w.ops[a].proc, w.ops[a].path) !in w'.registry
  {
    w' := Leave(w, a, RetireCheck);
    events' := Then(events, w, a, w');
  }

  /** Releasing a registered lease takes its entry and its lock with it. */
  lemma {:induction false} ReleaseClears(events: seq<Event>, w: World, a: Actor)
    returns (events': seq<Event>, w': World)
    requires w == Run(START, events) && a in w.ops && w.ops[a].pc.Held? && Registered(w, w.ops[a])
    ensures w' == Run(START, events') && a in w'.ops && w'.ops == w.ops[a := w'.ops[a]]
    ensures Key(w.ops[a].proc, w.ops[a].path) !in w'.registry && w.ops[a].path !in w'.leaseLocks
  {
    w' := Move(w, a, ReleaseInfo);
    events' := Then(events, w, a, w');
    events', w' := ReleaseUnlocks(events', w', a);
    events', w' := ReleaseLeaves(events', w', a);
  }

  lemma {:induction false} AcquireFinishes(events: seq<Event>, w: World, a: Actor)
    returns (events': seq<Event>, w': World)
    requires w == Run(START, events) && a in w.ops && w.ops[a].pc.AcquireLock? && w.ops[a].path !in w.leaseLocks
    ensures w' == Run(START, events')
    ensures a in w'.ops
    ensures w'.ops[a].pc.Held?
    ensures Registered(w', w'.ops[a]) <==> Registered(w, w.ops[a])
  {
    var w1 := TakeLease(w, a, AcquireInfo);
    events' := Then(events, w, a, w1);
    w' := SaveInfo(w1, a, Held);
    events' := Then(events', w1, a, w');
  }

  /** A session nobody has is acquired: with no entry and a free lock, an acquire that
      meets no I/O error ends in a registered lease. */
  lemma {:induction false} FreeSessionIsAcquired(events: seq<Event>, w: World, a: Actor)
    returns (events': seq<Event>, w': World)
    requires w == Run(START, events) && a in w.ops && w.ops[a].pc.Register?
    requires Key(w.ops[a].proc, w.ops[a].path) !in w.registry && w.ops[a].path !in w.leaseLocks
    ensures w' == Run(START, events') && a in w'.ops && w'.ops[a].pc.Held? && Registered(w', w'.ops[a])
  {
    assert Fits(w.ops[a]);
    w' := Enter(w, a, AcquireLock);
    events' := Then(events, w, a, w');
    events', w' := AcquireFinishes(events', w', a);
  }

  /** An acquirer overtaken by a whole reclaim and release between its registration and
      its lock becomes a live lease without an entry. */
  lemma {:induction false} OvertakenAcquirerLosesItsEntry(events: seq<Event>, w: World, a: Actor, b: Actor)
    returns (events': seq<Event>, w': World)
    requires w == Run(START, events)
    requires a in w.ops
    requires b in w.ops
    requires a != b
    requires w.ops[b].proc == w.ops[a].proc
    requires w.ops[b].path == w.ops[a].path
    requires w.ops[a].pc.AcquireLock? && w.ops[b].pc.ReclaimInspect? && w.ops[a].path !in w.leaseLocks
    requires InfoOf(w, w.ops[a].path).Names? ==> InfoOf(w, w.ops[a].path).proc == w.ops[a].proc
    ensures w' == Run(START, events') && a in w'.ops && w'.ops[a].pc.Held? && !Registered(w', w'.ops[a])
  {
    events', w' := ReclaimRecovers(events, w, b);
    events', w' := ReleaseClears(events', w', b);
    events', w' := AcquireFinishes(events', w', a);
  }

  lemma {:induction false} BeginOn(events: seq<Event>, a: Actor, proc: Proc, path: Path, pc: Pc)
    returns (events': seq<Event>)
    requires a !in Run(START, events).ops && Initial(pc)
    ensures Run(START, events') == Set(Run(START, events), a, Operation(proc, path, pc, false, false, None))
  {
    events' := events + [Begin(a, proc, path, pc)];
    assert events'[..|events|] == events;
  }

  /** Such a run from the start. */
  lemma {:induction false} LiveLeaseWithoutEntry() returns (events: seq<Event>)
    ensures var w := Run(START, events); 0 in w.ops && w.ops[0].pc.Held? && !Registered(w, w.ops[0])
  {
    events := BeginOn([], 0, 7, "s", Register);
    events := BeginOn(events, 1, 7, "s", ReclaimInspect);
    var w := Run(START, events);
    var w' := Enter(w, 0, AcquireLock);
    events := Then(events, w, 0, w');
    events, w := OvertakenAcquirerLosesItsEntry(events, w', 0, 1);
  }
}
