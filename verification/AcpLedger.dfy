/** What one access of an ACP session changes, told by its fields and the report it gets:
    the entry to a rebuild, the queue of one configuration, and the session leases held
    (rebuildSession, applyPendingSessionConfig, sessionRecoveredHandler and sessionClose in
    internal/acp/service.go). */
module AcpLedger {
  import opened Transcripts
  import opened AcpSession

  // ---------------------------------------------------------------- entering a rebuild

  /** Nothing is in flight, and nothing reported. */
  predicate MayClaim(s: Session, r: Report) {
    !s.deleted && !s.running && s.maintenance.None? && !r.prompting && !r.busy && !r.jobs
  }

  /** A turn, activity of the controller, or a rebuild without background jobs beside it,
      and no prompt that waits for the user. */
  predicate MustQueue(s: Session, r: Report) {
    !s.deleted && !r.prompting && (s.running || r.busy || (s.maintenance.Some? && !r.jobs))
  }

  /** A switch at its first critical section: it raises maintenance and takes the queue
      exactly when nothing is in flight and nothing reported; it is queued behind what is in
      flight; in every other case session and queue stay, and it ends, or goes to drop the
      queue it came from. */
  lemma {:induction false} RebuildEntryExactly(w: World, t: TaskId, r: Report)
    requires t in w.tasks && w.tasks[t].pc.RebuildEnter? && Idle(w.tasks[t])
    ensures var w', task := Apply(w, Advance(t, r)), w.tasks[t];
            && w' == w.(s := w'.s, tasks := w'.tasks, nextChan := w'.nextChan)
            && (if MayClaim(w.s, r) then
                  && w'.s == w.s.(pending := None, maintenance := Some(w.nextChan)) && w'.nextChan == w.nextChan + 1
                  && w'.tasks == w.tasks[t := task.(pc := Snapshotting, chan := Some(w.nextChan), ctrl := w.s.ctrl)]
                else
                  && w'.s == (if MustQueue(w.s, r) then w.s.(pending := Some(task.config)) else w.s)
                  && w'.nextChan == w.nextChan
                  && w'.tasks == w.tasks[t := task.(pc := if task.applied && !MustQueue(w.s, r) then ApplyFailed
                                                          else Gone)])
  {
  }

  /** Maintenance is raised by nothing else. */
  lemma {:induction false} MaintenanceRaisedExactly(w: World, e: Event)
    requires Inv(w) && w.s.maintenance.None?
    ensures Apply(w, e).s.maintenance.Some? <==>
              e.Advance? && e.task in w.tasks && w.tasks[e.task].pc.RebuildEnter? && Idle(w.tasks[e.task])
              && MayClaim(w.s, e.report)
  {
    if e.Advance? && e.task in w.tasks && w.tasks[e.task].pc.RebuildEnter? && Idle(w.tasks[e.task]) {
      RebuildEntryExactly(w, e.task, e.report);
    }
  }

  // ---------------------------------------------------------------- the queue

  /** The queued configuration after one event: the newest one queued, none once it was
      claimed or dropped because nothing in flight would see to it, else the same. */
  function QueueAfter(w: World, e: Event): Option<Config> {
    if !(e.Advance? && e.task in w.tasks && Idle(w.tasks[e.task])) then w.s.pending
    else
      var task := w.tasks[e.task];
      if task.pc.RebuildEnter? then
        if MayClaim(w.s, e.report) then None
        else if MustQueue(w.s, e.report) then Some(task.config)
        else w.s.pending
      else if task.pc.ApplyFailed? && !w.s.deleted && !w.s.running && w.s.maintenance.None? then None
      else w.s.pending
  }

  lemma {:induction false} QueueChangesExactly(w: World, e: Event)
    requires Inv(w)
    ensures Apply(w, e).s.pending == QueueAfter(w, e)
  {
    if e.Advance? && e.task in w.tasks && w.tasks[e.task].pc.RebuildEnter? && Idle(w.tasks[e.task]) {
      RebuildEntryExactly(w, e.task, e.report);
    }
  }

  /** A request in front of the queue takes the queued configuration to a rebuild exactly
      when the session is still the one listed, undeleted, and has one queued; it stays
      queued meanwhile. */
  lemma {:induction false} QueueIsLookedAtExactly(w: World, t: TaskId, r: Report)
    requires t in w.tasks && w.tasks[t].pc.ApplyCheck? && Idle(w.tasks[t])
    ensures var w' := Apply(w, Advance(t, r));
            && t in w'.tasks && w'.s == w.s && w'.held == w.held && w'.closed == w.closed
            && (w'.tasks[t].pc.RebuildEnter? <==> w.s.mapped && !w.s.deleted && w.s.pending.Some?)
            && (w'.tasks[t].pc.RebuildEnter? ==> w'.tasks[t].applied && Some(w'.tasks[t].config) == w.s.pending)
            && (w'.tasks[t].pc.RebuildEnter? || w'.tasks[t].pc.Gone?)
  {
  }

  predicate Arrives(e: Event) {
    e.Prompt? || e.Switch? || e.Delete?
  }

  /** Requests reach a session only as long as it is listed, and a delete ends that. */
  lemma {:induction false} RequestsNeedListedSession(w: World, e: Event)
    requires Arrives(e) && e.task !in w.tasks
    ensures var w' := Apply(w, e);
            if w.s.mapped
              then w'.tasks.Keys == w.tasks.Keys + {e.task} && w'.s == w.s.(mapped := !e.Delete?)
              else w' == w
  {
  }

  // ---------------------------------------------------------------- leases

  predicate InHand(w: World, t: TaskId, p: Path) {
    t in w.tasks && (w.tasks[t].spare == Some(p) || w.tasks[t].outgoing == Some(p))
  }

  /** A lease of the session, or in the hands of one of its recovery handlers. */
  ghost predicate Ours(w: World, p: Path) {
    w.s.lease == Some(p) || exists t :: InHand(w, t, p)
  }

  /** The leases held are those of others and ours, and none is both. */
  ghost predicate Accounts(w: World, others: set<Path>) {
    forall p :: (p in w.held <==> p in others || Ours(w, p)) && !(p in others && Ours(w, p))
  }

  lemma {:induction false} OnlyOneInHand(w: World, t: TaskId, u: TaskId, p: Path)
    requires Inv(w) && InHand(w, u, p) && t in w.tasks
    requires w.tasks[t].pc.Turning? || w.tasks[t].pc.Snapshotting?
    ensures u == t
  {
    if u != t {
      OneRecoversAtATime(w, t, u);
    }
  }

  lemma {:induction false} OursWhileRecovering(w: World, t: TaskId, p: Path)
    requires Inv(w) && t in w.tasks && (w.tasks[t].pc.Turning? || w.tasks[t].pc.Snapshotting?)
    ensures Ours(w, p) <==> w.s.lease == Some(p) || InHand(w, t, p)
  {
    if Ours(w, p) && w.s.lease != Some(p) {
      var u :| InHand(w, u, p);
      OnlyOneInHand(w, t, u, p);
    }
  }

  lemma {:induction false} RecoveryAccounts(w: World, t: TaskId, path: Path, others: set<Path>)
    requires Inv(w) && Accounts(w, others) && t in w.tasks
    ensures Accounts(Recover(w, t, path), others)
  {
    var w' := Recover(w, t, path);
    if w.tasks[t].pc.Turning? || w.tasks[t].pc.Snapshotting? {
      assert TaskFits(w, w.tasks[t]);
      RecoverKeepsInv(w, t, path);
      forall p ensures (p in w'.held <==> p in others || Ours(w', p)) && !(p in others && Ours(w', p)) {
        OursWhileRecovering(w, t, p);
        OursWhileRecovering(w', t, p);
      }
    }
  }

  lemma {:induction false} StepStaysIdle(w: World, t: TaskId, r: Report)
    requires t in w.tasks
    ensures var w' := Step(w, t, r);
            t in w'.tasks && (if Idle(w.tasks[t]) then Idle(w'.tasks[t]) else w' == w)
  {
  }

  lemma {:induction false} StepKeepsHands(w: World, a: TaskId, r: Report, t: TaskId, p: Path)
    requires a in w.tasks
    ensures InHand(Step(w, a, r), t, p) <==> InHand(w, t, p)
  {
    StepTouchesOneTask(w, a, r);
    StepStaysIdle(w, a, r);
  }

  /** Nothing changes hands but in a recovery. */
  lemma {:induction false} OthersKeepHands(w: World, e: Event, t: TaskId, p: Path)
    requires !e.Recovery?
    ensures InHand(Apply(w, e), t, p) <==> InHand(w, t, p)
  {
    if e.Advance? && e.task in w.tasks {
      StepKeepsHands(w, e.task, e.report, t, p);
    }
  }

  /** Nor is a lease taken or given back, but that of the session by its delete. */
  lemma {:induction false} OthersKeepLeases(w: World, e: Event)
    requires Inv(w) && !e.Recovery?
    ensures var w' := Apply(w, e);
            if e.Advance? && e.task in w.tasks && w.tasks[e.task].pc.DeleteRelease? && Idle(w.tasks[e.task])
              then w'.s.lease.None? && forall p :: p in w'.held <==> p in w.held && w.s.lease != Some(p)
            else w'.s.lease == w.s.lease && w'.held == w.held
  {
  }

  lemma {:induction false} NothingInHandAtRelease(w: World, d: TaskId, t: TaskId, p: Path)
    requires Inv(w) && d in w.tasks && w.tasks[d].pc.DeleteRelease?
    ensures !InHand(w, t, p)
  {
    if t in w.tasks {
      assert TaskFits(w, w.tasks[d]) && TaskFits(w, w.tasks[t]);
    }
  }

  lemma {:induction false} EventAccounts(w: World, e: Event, others: set<Path>)
    requires Inv(w) && Accounts(w, others)
    ensures Accounts(Apply(w, e), others)
  {
    if e.Recovery? {
      if e.task in w.tasks {
        RecoveryAccounts(w, e.task, e.path, others);
      }
    } else {
      var w' := Apply(w, e);
      OthersKeepLeases(w, e);
      forall p ensures (p in w'.held <==> p in others || Ours(w', p)) && !(p in others && Ours(w', p)) {
        forall t ensures InHand(w', t, p) <==> InHand(w, t, p) {
          OthersKeepHands(w, e, t, p);
          if e.Advance? && e.task in w.tasks && w.tasks[e.task].pc.DeleteRelease? {
            NothingInHandAtRelease(w, e.task, t, p);
          }
        }
      }
    }
  }

  /** Every lease is accounted for, over every run: a path is held if and only if it was
      held by others from the start, is the session's, or is in the hands of one of its
      recovery handlers; and what others hold is never taken. So a lease let go is gone. */
  lemma {:induction false} HeldExactly(w0: World, events: seq<Event>, p: Path)
    requires Opened(w0)
    ensures var w := Run(w0, events);
            var others := p in w0.held && w0.s.lease != Some(p);
            (p in w.held <==> others || Ours(w, p)) && !(others && Ours(w, p))
  {
    var others := set q | q in w0.held && w0.s.lease != Some(q);
    AccountsAlong(w0, events, others);
  }

  lemma {:induction false} AccountsAlong(w0: World, events: seq<Event>, others: set<Path>)
    requires Opened(w0) && forall q :: q in others <==> q in w0.held && w0.s.lease != Some(q)
    ensures Accounts(Run(w0, events), others)
  {
    if events != [] {
      var init := events[..|events| - 1];
      AccountsAlong(w0, init, others);
      InvHolds(w0, init);
      EventAccounts(Run(w0, init), events[|events| - 1], others);
    }
  }

  lemma {:induction false} DeleteWaits(w: World, t: TaskId, r: Report)
    requires t in w.tasks && w.tasks[t].pc.DeleteMark? && Idle(w.tasks[t])
    requires w.s.done.None? && w.s.maintenance.None?
    ensures var w' := Steps(w, t, r, 3);
            w'.tasks[t].pc.DeleteRelease? && Idle(w'.tasks[t]) && w'.s == w.s.(deleted := true) && w'.held == w.held
  {
    assert Steps(w, t, r, 0) == w;
    assert Steps(w, t, r, 1) == MarkDeleted(w, t);
    var w2 := Steps(w, t, r, 2);
    assert w2 == Goto(MarkDeleted(w, t), t, AwaitMaintenance);
    assert Steps(w, t, r, 3) == Goto(w2, t, DeleteRelease);
  }

  /** Left alone, a delete of an idle session is done in four steps; it gives back the
      session's lease and no other. */
  lemma {:induction false} DeleteIsServed(w: World, t: TaskId, r: Report)
    requires Inv(w) && t in w.tasks && w.tasks[t].pc.DeleteMark? && Idle(w.tasks[t])
    requires !w.s.running && w.s.maintenance.None?
    ensures var w' := Steps(w, t, r, 4);
            && w'.tasks[t].pc.Destroyed? && w'.s == w.s.(deleted := true, lease := None)
            && (forall p :: p in w'.held <==> p in w.held && w.s.lease != Some(p))
  {
    DeleteWaits(w, t, r);
    assert Steps(w, t, r, 4) == ReleaseLease(Steps(w, t, r, 3), t);
  }

  /** A recovery handler on an undeleted session moves transcript and lease to the recovery
      file and gives the old lease back; on a deleted one it gives back the new one. */
  lemma {:induction false} RecoveryMovesLease(w: World, t: TaskId, path: Path)
    requires Inv(w) && t in w.tasks && (w.tasks[t].pc.Turning? || w.tasks[t].pc.Snapshotting?) && Idle(w.tasks[t])
    requires w.s.mapped && path != "" && path !in w.held
    ensures var w1 := Recover(w, t, path);
            var w2 := Recover(w1, t, path);
            && w1.s == w.s && w1.held == w.held + {path}
            && (if w.s.deleted then w2 == w
                else
                  && w2.s == w.s.(lease := Some(path), transcript := path)
                  && (w.s.lease.Some? ==>
                        Recover(w2, t, path) == w.(s := w2.s, held := (w.held + {path}) - {w.s.lease.value})))
  {
    assert TaskFits(w, w.tasks[t]);
    var w1 := Recover(w, t, path);
    if w.s.deleted {
      assert Recover(w1, t, path).held == w.held;
      assert Recover(w1, t, path).tasks == w.tasks;
    } else if w.s.lease.Some? {
      var w2 := Recover(w1, t, path);
      assert Recover(w2, t, path).tasks == w.tasks;
    }
  }
}
