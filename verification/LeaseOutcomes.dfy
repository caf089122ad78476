/** What each lease operation comes to when it is left alone and no file access fails, in
    any world at all: who gets the session, who is turned away, and that one turned away
    leaves nothing behind (internal/agent/session_lease.go, session_removal.go). */
module LeaseOutcomes {
  import opened Transcripts
  import opened Leases

  predicate At(w: World, a: Actor, pc: Pc) {
    a in w.ops && Fits(w.ops[a]) && w.ops[a].pc == pc
  }

  predicate Next(a: Actor, w: World, w': World) {
    a in w.ops && Fits(w.ops[a]) && w' == Step(w, a, true)
  }

  /** The worlds that accesses of operation a alone lead through. */
  predicate Leads(a: Actor, path: seq<World>) {
    path != []
    && forall k {:trigger Next(a, path[k], path[k + 1])} ::
         0 <= k < |path| - 1 ==> Next(a, path[k], path[k + 1])
  }

  predicate FromTo(a: Actor, w: World, path: seq<World>, w': World) {
    Leads(a, path) && path[0] == w && path[|path| - 1] == w'
  }

  lemma {:induction false} Onward(a: Actor, w: World, next: World, path: seq<World>, w': World)
    requires Next(a, w, next) && FromTo(a, next, path, w')
    ensures FromTo(a, w, [w] + path, w')
  {
    var all := [w] + path;
    forall k {:trigger Next(a, all[k], all[k + 1])} | 0 <= k < |all| - 1 ensures Next(a, all[k], all[k + 1]) {
      if k > 0 {
        var j := k - 1;
        assert all[k] == path[j] && all[k + 1] == path[j + 1];
        assert Next(a, path[j], path[j + 1]);
      }
    }
  }

  lemma {:induction false} OneAccess(a: Actor, w: World, next: World) returns (path: seq<World>)
    requires Next(a, w, next)
    ensures FromTo(a, w, path, next) && |path| == 2
  {
    path := [w, next];
    assert Leads(a, [next]);
    Onward(a, w, next, [next], next);
    assert [w] + [next] == path;
  }

  function Own(w: World, a: Actor): Key
    requires a in w.ops
  {
    Key(w.ops[a].proc, w.ops[a].path)
  }

  /** The operation is over and all it has touched is as before, but the counter of ids. */
  predicate TurnedAway(w: World, w': World, a: Actor)
    requires a in w.ops
  {
    w' == w.(ops := w.ops[a := w.ops[a].(pc := Gone)], seqNo := w'.seqNo)
  }

  /** The session is a's: registered, locked and announced. */
  predicate Acquired(w: World, w': World, a: Actor)
    requires a in w.ops
  {
    var op := w.ops[a];
    w' == w.(ops := w.ops[a := op.(pc := Held, lease := true, id := Some(w.seqNo))], seqNo := w.seqNo + 1,
             registry := w.registry[Own(w, a) := w.seqNo], leaseLocks := w.leaseLocks[op.path := a],
             infos := w.infos[op.path := Names(op.proc)])
  }

  // ---------------------------------------------------------------- acquiring

  lemma {:induction false} Announces(w: World, a: Actor) returns (w': World, path: seq<World>)
    requires At(w, a, AcquireInfo) || At(w, a, ReclaimInfo)
    ensures FromTo(a, w, path, w')
    ensures w' == w.(ops := w.ops[a := w.ops[a].(pc := Held)],
                     infos := w.infos[w.ops[a].path := Names(w.ops[a].proc)])
  {
    w' := SaveInfo(w, a, Held);
    path := OneAccess(a, w, w');
  }

  lemma {:induction false} Undoes(w: World, a: Actor) returns (w': World, path: seq<World>)
    requires At(w, a, AcquireUndo)
    ensures FromTo(a, w, path, w')
    ensures w' == w.(ops := w.ops[a := w.ops[a].(pc := Gone, id := None)],
                     registry := WithoutOwn(w.registry, Own(w, a), w.ops[a].id.value))
  {
    w' := Leave(w, a, Gone);
    path := OneAccess(a, w, w');
  }

  lemma {:induction false} LockIsMissed(w: World, a: Actor) returns (w': World, path: seq<World>)
    requires At(w, a, AcquireLock) && w.ops[a].path in w.leaseLocks
    ensures FromTo(a, w, path, w')
    ensures w' == w.(ops := w.ops[a := w.ops[a].(pc := Gone, id := None)],
                     registry := WithoutOwn(w.registry, Own(w, a), w.ops[a].id.value))
  {
    var next := Move(w, a, AcquireUndo);
    w', path := Undoes(next, a);
    Onward(a, w, next, path, w');
    path := [w] + path;
  }

  lemma {:induction false} LockIsTaken(w: World, a: Actor) returns (w': World, path: seq<World>)
    requires At(w, a, AcquireLock) && w.ops[a].path !in w.leaseLocks
    ensures FromTo(a, w, path, w')
    ensures var op := w.ops[a];
            w' == w.(ops := w.ops[a := op.(pc := Held, lease := true)], leaseLocks := w.leaseLocks[op.path := a],
                     infos := w.infos[op.path := Names(op.proc)])
  {
    var next := TakeLease(w, a, AcquireInfo);
    w', path := Announces(next, a);
    Onward(a, w, next, path, w');
    path := [w] + path;
  }

  /** An acquisition succeeds exactly when its process has no entry for the session and
      nobody holds the lock. */
  lemma {:induction false} AcquireExactly(w: World, a: Actor) returns (w': World, path: seq<World>)
    requires At(w, a, Register)
    ensures FromTo(a, w, path, w')
    ensures if Own(w, a) in w.registry || w.ops[a].path in w.leaseLocks then TurnedAway(w, w', a)
            else Acquired(w, w', a)
  {
    if Own(w, a) in w.registry {
      w' := Leases.Refused(w, a);
      path := OneAccess(a, w, w');
    } else {
      var next := Enter(w, a, AcquireLock);
      if w.ops[a].path in w.leaseLocks {
        w', path := LockIsMissed(next, a);
        assert WithoutOwn(next.registry, Own(w, a), w.seqNo) == w.registry;
      } else {
        w', path := LockIsTaken(next, a);
      }
      Onward(a, w, next, path, w');
      path := [w] + path;
    }
  }

  lemma {:induction false} EntersOverAnything(w: World, a: Actor) returns (w': World, path: seq<World>)
    requires At(w, a, ReclaimRegister)
    ensures FromTo(a, w, path, w')
    ensures var op := w.ops[a];
            w' == w.(ops := w.ops[a := op.(pc := Held, id := Some(w.seqNo))], seqNo := w.seqNo + 1,
                     registry := w.registry[Own(w, a) := w.seqNo], infos := w.infos[op.path := Names(op.proc)])
  {
    var next := Enter(w, a, ReclaimInfo);
    w', path := Announces(next, a);
    Onward(a, w, next, path, w');
    path := [w] + path;
  }

  lemma {:induction false} ReclaimLocks(w: World, a: Actor) returns (w': World, path: seq<World>)
    requires At(w, a, ReclaimLock)
    ensures FromTo(a, w, path, w')
    ensures if w.ops[a].path in w.leaseLocks then TurnedAway(w, w', a) else Acquired(w, w', a)
  {
    if w.ops[a].path in w.leaseLocks {
      w' := Move(w, a, Gone);
      path := OneAccess(a, w, w');
    } else {
      var next := TakeLease(w, a, ReclaimRegister);
      w', path := EntersOverAnything(next, a);
      Onward(a, w, next, path, w');
      path := [w] + path;
    }
  }

  predicate NamesAnother(info: Info, proc: Proc) {
    info.Names? && info.proc != proc
  }

  /** A reclaim succeeds exactly when the info file does not name another process and
      nobody holds the lock, whatever entry is in its way. */
  lemma {:induction false} ReclaimExactly(w: World, a: Actor) returns (w': World, path: seq<World>)
    requires At(w, a, ReclaimInspect)
    ensures FromTo(a, w, path, w')
    ensures if NamesAnother(InfoOf(w, w.ops[a].path), w.ops[a].proc) || w.ops[a].path in w.leaseLocks
            then TurnedAway(w, w', a) else Acquired(w, w', a)
  {
    if NamesAnother(InfoOf(w, w.ops[a].path), w.ops[a].proc) {
      w' := Move(w, a, Gone);
      path := OneAccess(a, w, w');
    } else {
      var next := Move(w, a, ReclaimLock);
      w', path := ReclaimLocks(next, a);
      Onward(a, w, next, path, w');
      path := [w] + path;
    }
  }

  // ---------------------------------------------------------------- guarding

  lemma {:induction false} GivesUpLease(w: World, a: Actor) returns (w': World, path: seq<World>)
    requires At(w, a, GuardDropLease) || At(w, a, ProbeDrop)
    ensures FromTo(a, w, path, w')
    ensures w' == w.(ops := w.ops[a := w.ops[a].(pc := Gone, lease := false)],
                     leaseLocks := w.leaseLocks - {w.ops[a].path})
  {
    w' := DropLease(w, a, Gone);
    path := OneAccess(a, w, w');
  }

  lemma {:induction false} GuardMissesSave(w: World, a: Actor) returns (w': World, path: seq<World>)
    requires At(w, a, GuardSave) && w.ops[a].path in w.saveLocks
    ensures FromTo(a, w, path, w')
    ensures w' == w.(ops := w.ops[a := w.ops[a].(pc := Gone, lease := false)],
                     leaseLocks := w.leaseLocks - {w.ops[a].path})
  {
    var next := Move(w, a, GuardDropLease);
    w', path := GivesUpLease(next, a);
    Onward(a, w, next, path, w');
    path := [w] + path;
  }

  lemma {:induction false} GuardTakesSave(w: World, a: Actor) returns (w': World, path: seq<World>)
    requires At(w, a, GuardSave) && w.ops[a].path !in w.saveLocks
    ensures FromTo(a, w, path, w')
    ensures w' == w.(ops := w.ops[a := w.ops[a].(pc := Guarding, save := true)],
                     saveLocks := w.saveLocks[w.ops[a].path := a])
  {
    w' := TakeSave(w, a, Guarding);
    path := OneAccess(a, w, w');
  }

  /** Both locks are a's. */
  predicate Guarded(w: World, w': World, a: Actor)
    requires a in w.ops
  {
    var op := w.ops[a];
    w' == w.(ops := w.ops[a := op.(pc := Guarding, lease := true, save := true)],
             leaseLocks := w.leaseLocks[op.path := a], saveLocks := w.saveLocks[op.path := a])
  }

  lemma {:induction false} LockedIsLeft(w: World, a: Actor) returns (w': World, path: seq<World>)
    requires At(w, a, GuardLease) || At(w, a, ProbeLock) || At(w, a, SweepProbe)
    requires w.ops[a].path in w.leaseLocks
    ensures FromTo(a, w, path, w') && TurnedAway(w, w', a)
  {
    w' := Move(w, a, Gone);
    path := OneAccess(a, w, w');
  }

  lemma {:induction false} GuardTakesLease(w: World, a: Actor) returns (w': World, path: seq<World>)
    requires At(w, a, GuardLease) && w.ops[a].path !in w.leaseLocks
    ensures FromTo(a, w, path, w')
    ensures if w.ops[a].path in w.saveLocks then TurnedAway(w, w', a) else Guarded(w, w', a)
  {
    var next := TakeLease(w, a, GuardSave);
    if w.ops[a].path in w.saveLocks {
      w', path := GuardMissesSave(next, a);
      assert next.leaseLocks - {w.ops[a].path} == w.leaseLocks;
    } else {
      w', path := GuardTakesSave(next, a);
    }
    Onward(a, w, next, path, w');
    path := [w] + path;
  }

  /** A removal guard is granted exactly when its own process has no entry for the session
      and neither lock is held; it then has both. */
  lemma {:induction false} GuardExactly(w: World, a: Actor) returns (w': World, path: seq<World>)
    requires At(w, a, GuardCheck)
    ensures FromTo(a, w, path, w')
    ensures if Own(w, a) in w.registry || w.ops[a].path in w.leaseLocks || w.ops[a].path in w.saveLocks
            then TurnedAway(w, w', a) else Guarded(w, w', a)
  {
    if Own(w, a) in w.registry {
      w' := Move(w, a, Gone);
      path := OneAccess(a, w, w');
    } else {
      var next := Move(w, a, GuardLease);
      if w.ops[a].path in w.leaseLocks {
        w', path := LockedIsLeft(next, a);
      } else {
        w', path := GuardTakesLease(next, a);
      }
      Onward(a, w, next, path, w');
      path := [w] + path;
    }
  }

  lemma {:induction false} GuardDropsBoth(w: World, a: Actor) returns (w': World, path: seq<World>)
    requires At(w, a, GuardDropSave)
    ensures FromTo(a, w, path, w')
    ensures var op := w.ops[a];
            w' == w.(ops := w.ops[a := op.(pc := Gone, lease := false, save := false)],
                     leaseLocks := w.leaseLocks - {op.path}, saveLocks := w.saveLocks - {op.path})
  {
    var next := DropSave(w, a, GuardDropLease);
    w', path := GivesUpLease(next, a);
    Onward(a, w, next, path, w');
    path := [w] + path;
  }

  lemma {:induction false} GuardRemoves(w: World, a: Actor) returns (w': World, path: seq<World>)
    requires At(w, a, GuardRemove)
    ensures FromTo(a, w, path, w')
    ensures var op := w.ops[a];
            w' == w.(ops := w.ops[a := op.(pc := Gone, lease := false, save := false)],
                     leaseLocks := w.leaseLocks - {op.path}, saveLocks := w.saveLocks - {op.path},
                     infos := w.infos[op.path := Missing])
  {
    var next := RemoveInfo(w, a, GuardDropSave);
    w', path := GuardDropsBoth(next, a);
    Onward(a, w, next, path, w');
    path := [w] + path;
  }

  /** A guard that is used up removes the info file and gives both locks back. */
  lemma {:induction false} GuardIsUsedUp(w: World, a: Actor) returns (w': World, path: seq<World>)
    requires At(w, a, Guarding)
    ensures FromTo(a, w, path, w')
    ensures var op := w.ops[a];
            w' == w.(ops := w.ops[a := op.(pc := Gone, lease := false, save := false)],
                     leaseLocks := w.leaseLocks - {op.path}, saveLocks := w.saveLocks - {op.path},
                     infos := w.infos[op.path := Missing])
  {
    var next := Move(w, a, GuardRemove);
    w', path := GuardRemoves(next, a);
    Onward(a, w, next, path, w');
    path := [w] + path;
  }

  // ---------------------------------------------------------------- looking

  /** No entry of one's own process, and an info file that is there and not its own:
      somebody else may have the session. */
  predicate Suspicious(w: World, a: Actor)
    requires a in w.ops
  {
    var info := InfoOf(w, w.ops[a].path);
    Own(w, a) !in w.registry && !info.Missing? && info != Names(w.ops[a].proc)
  }

  /** An info file that nobody stood behind is gone, and nothing else has changed. */
  predicate Cleared(w: World, w': World, a: Actor, pc: Pc)
    requires a in w.ops
  {
    w' == w.(ops := w.ops[a := w.ops[a].(pc := pc)], infos := w.infos[w.ops[a].path := Missing])
  }

  lemma {:induction false} ProbeClears(w: World, a: Actor) returns (w': World, path: seq<World>)
    requires At(w, a, ProbeClear)
    ensures FromTo(a, w, path, w')
    ensures var op := w.ops[a];
            w' == w.(ops := w.ops[a := op.(pc := Gone, lease := false)],
                     leaseLocks := w.leaseLocks - {op.path}, infos := w.infos[op.path := Missing])
  {
    var next := RemoveInfo(w, a, ProbeDrop);
    w', path := GivesUpLease(next, a);
    Onward(a, w, next, path, w');
    path := [w] + path;
  }

  lemma {:induction false} ProbeLocks(w: World, a: Actor) returns (w': World, path: seq<World>)
    requires At(w, a, ProbeLock) && w.ops[a].path !in w.leaseLocks
    ensures FromTo(a, w, path, w') && Cleared(w, w', a, Gone)
  {
    var next := TakeLease(w, a, ProbeClear);
    w', path := ProbeClears(next, a);
    assert next.leaseLocks - {w.ops[a].path} == w.leaseLocks;
    Onward(a, w, next, path, w');
    path := [w] + path;
  }

  /** A probe removes exactly an info file of somebody else behind which nobody holds the
      lock; otherwise it changes nothing. */
  lemma {:induction false} ProbeExactly(w: World, a: Actor) returns (w': World, path: seq<World>)
    requires At(w, a, ProbeInspect)
    ensures FromTo(a, w, path, w')
    ensures if Suspicious(w, a) && w.ops[a].path !in w.leaseLocks then Cleared(w, w', a, Gone)
            else TurnedAway(w, w', a)
  {
    if Suspicious(w, a) {
      var next := Move(w, a, ProbeLock);
      if w.ops[a].path in w.leaseLocks {
        w', path := LockedIsLeft(next, a);
      } else {
        w', path := ProbeLocks(next, a);
      }
      Onward(a, w, next, path, w');
      path := [w] + path;
    } else {
      w' := Move(w, a, Gone);
      path := OneAccess(a, w, w');
    }
  }

  lemma {:induction false} RetireDrops(w: World, a: Actor) returns (w': World, path: seq<World>)
    requires At(w, a, RetireDrop)
    ensures FromTo(a, w, path, w') && |path| == 2
    ensures w' == w.(ops := w.ops[a := w.ops[a].(pc := SweepInspect, lease := false)],
                     leaseLocks := w.leaseLocks - {w.ops[a].path})
  {
    w' := DropLease(w, a, SweepInspect);
    path := OneAccess(a, w, w');
  }

  lemma {:induction false} RetireLocks(w: World, a: Actor) returns (w': World, path: seq<World>)
    requires At(w, a, RetireLock)
    ensures FromTo(a, w, path, w') && w' == w.(ops := w.ops[a := w.ops[a].(pc := SweepInspect)])
    ensures |path| > 2 <==> w.ops[a].path !in w.leaseLocks
  {
    if w.ops[a].path in w.leaseLocks {
      w' := Move(w, a, SweepInspect);
      path := OneAccess(a, w, w');
    } else {
      var next := TakeLease(w, a, RetireDrop);
      w', path := RetireDrops(next, a);
      assert next.leaseLocks - {w.ops[a].path} == w.leaseLocks;
      Onward(a, w, next, path, w');
      path := [w] + path;
    }
  }

  /** Retiring the lock file behind a release reaches for the lock exactly when the process
      has not registered the session again, and takes and gives it back exactly when it is
      free; nothing else changes. */
  lemma {:induction false} RetireExactly(w: World, a: Actor) returns (w': World, path: seq<World>)
    requires At(w, a, RetireCheck)
    ensures FromTo(a, w, path, w') && w' == w.(ops := w.ops[a := w.ops[a].(pc := SweepInspect)])
    ensures |path| > 2 <==> Own(w, a) !in w.registry
    ensures |path| > 3 <==> Own(w, a) !in w.registry && w.ops[a].path !in w.leaseLocks
  {
    if Own(w, a) in w.registry {
      w' := Move(w, a, SweepInspect);
      path := OneAccess(a, w, w');
    } else {
      var next := Move(w, a, RetireLock);
      w', path := RetireLocks(next, a);
      Onward(a, w, next, path, w');
      path := [w] + path;
    }
  }

  lemma {:induction false} SweepReleases(w: World, a: Actor) returns (w': World, path: seq<World>)
    requires At(w, a, SweepRelease)
    ensures FromTo(a, w, path, w')
    ensures w' == w.(ops := w.ops[a := w.ops[a].(pc := SweepLock, lease := false)],
                     leaseLocks := w.leaseLocks - {w.ops[a].path})
  {
    w' := DropLease(w, a, SweepLock);
    path := OneAccess(a, w, w');
  }

  lemma {:induction false} SweepClears(w: World, a: Actor) returns (w': World, path: seq<World>)
    requires At(w, a, SweepClear)
    ensures FromTo(a, w, path, w')
    ensures var op := w.ops[a];
            w' == w.(ops := w.ops[a := op.(pc := SweepLock, lease := false)],
                     leaseLocks := w.leaseLocks - {op.path}, infos := w.infos[op.path := Missing])
  {
    var next := RemoveInfo(w, a, SweepRelease);
    w', path := SweepReleases(next, a);
    Onward(a, w, next, path, w');
    path := [w] + path;
  }

  lemma {:induction false} SweepProbes(w: World, a: Actor) returns (w': World, path: seq<World>)
    requires At(w, a, SweepProbe) && w.ops[a].path !in w.leaseLocks
    ensures FromTo(a, w, path, w') && Cleared(w, w', a, SweepLock)
  {
    var next := TakeLease(w, a, SweepClear);
    w', path := SweepClears(next, a);
    assert next.leaseLocks - {w.ops[a].path} == w.leaseLocks;
    Onward(a, w, next, path, w');
    path := [w] + path;
  }

  /** The sweep behind a release leaves a session alone that its process has taken again,
      or that somebody else has; it removes an info file nobody stands behind, and reaches
      for the save lock only then, or when there is none but its own. */
  lemma {:induction false} SweepExactly(w: World, a: Actor) returns (w': World, path: seq<World>)
    requires At(w, a, SweepInspect)
    ensures FromTo(a, w, path, w')
    ensures if Own(w, a) in w.registry then TurnedAway(w, w', a)
            else if !Suspicious(w, a) then w' == w.(ops := w.ops[a := w.ops[a].(pc := SweepLock)])
            else if w.ops[a].path in w.leaseLocks then TurnedAway(w, w', a)
            else Cleared(w, w', a, SweepLock)
  {
    if Suspicious(w, a) {
      var next := Move(w, a, SweepProbe);
      if w.ops[a].path in w.leaseLocks {
        w', path := LockedIsLeft(next, a);
      } else {
        w', path := SweepProbes(next, a);
      }
      Onward(a, w, next, path, w');
      path := [w] + path;
    } else {
      w' := Move(w, a, if Own(w, a) in w.registry then Gone else SweepLock);
      path := OneAccess(a, w, w');
    }
  }

  /** A save runs exactly when nobody holds the save lock, and waits otherwise. */
  lemma {:induction false} SaveExactly(w: World, a: Actor) returns (w': World, path: seq<World>)
    requires At(w, a, SaveLock)
    ensures FromTo(a, w, path, w') && |path| > 1
    ensures w' == if w.ops[a].path in w.saveLocks then w
                  else w.(ops := w.ops[a := w.ops[a].(pc := Saving, save := true)],
                          saveLocks := w.saveLocks[w.ops[a].path := a])
  {
    w' := if w.ops[a].path in w.saveLocks then w else TakeSave(w, a, Saving);
    path := OneAccess(a, w, w');
  }
}
