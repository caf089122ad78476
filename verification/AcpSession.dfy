/** One ACP session under concurrent prompts, configuration switches, recoveries and a
    delete (internal/acp/service.go). Each step is one critical section of the session's
    mutex, or one access outside it; any number of requests interleave. */
module AcpSession {
  import opened Transcripts

  type Path = string
  type Chan = nat
  type Config = string
  type TaskId = nat

  datatype Session = Session(mapped: bool, running: bool, done: Option<Chan>, deleted: bool, pending: Option<Config>,
                             maintenance: Option<Chan>, ctrl: nat, transcript: Path, lease: Option<Path>)

  /** What the controller and the outside report: a prompt waiting for the user, activity
      of the controller, background jobs, and whether the step's own work succeeds. */
  datatype Report = Report(prompting: bool, busy: bool, jobs: bool, ok: bool)

  // ---------------------------------------------------------------- critical sections

  /** begin: no turn starts beside another one, during maintenance, with a config queued,
      or after a delete. */
  predicate CanBegin(s: Session) {
    !s.running && !s.deleted && s.maintenance.None? && s.pending.None?
  }

  function Begun(s: Session, c: Chan): Session {
    s.(running := true, done := Some(c))
  }

  function Ended(s: Session): Session {
    s.(running := false, done := None)
  }

  /** rebuildSession's first critical section: refuse, queue, or claim the queue together
      with raising maintenance. */
  datatype Entry = Refuse | Queue | Claim

  function EntryOf(s: Session, r: Report): Entry {
    if s.deleted || r.prompting || (!s.running && !r.busy && r.jobs) then Refuse
    else if s.running || r.busy || s.maintenance.Some? then Queue
    else Claim
  }

  function Entered(s: Session, e: Entry, config: Config, c: Chan): Session {
    match e
    case Refuse => s
    case Queue => s.(pending := Some(config))
    case Claim => s.(pending := None, maintenance := Some(c))
  }

  /** Its last one: the new controller is installed unless the session changed meanwhile. */
  predicate CanSwap(s: Session, cur: nat) {
    !s.deleted && s.ctrl == cur
  }

  /** A failed application drops the queue unless something in flight will see to it. */
  function QueueDropped(s: Session): Session {
    if !s.deleted && !s.running && s.maintenance.None? then s.(pending := None) else s
  }

  /** Transcript and lease move to a recovery file together. */
  function Moved(s: Session, path: Path): Session {
    s.(lease := Some(path), transcript := path)
  }

  /** The session object; each method is one critical section of its mutex. */
  class AcpSessionObject {
    var mapped: bool
    var running: bool
    var done: Option<Chan>
    var deleted: bool
    var pendingConfig: Option<Config>
    var maintenanceDone: Option<Chan>
    var ctrl: nat
    var transcript: Path
    var lease: Option<Path>

    constructor (ctrl: nat, transcript: Path, lease: Option<Path>)
      ensures State() == Session(true, false, None, false, None, None, ctrl, transcript, lease)
    {
      mapped, running, done, deleted, pendingConfig, maintenanceDone := true, false, None, false, None, None;
      this.ctrl, this.transcript, this.lease := ctrl, transcript, lease;
    }

    function State(): Session
      reads this
    {
      Session(mapped, running, done, deleted, pendingConfig, maintenanceDone, ctrl, transcript, lease)
    }

    method Begin(c: Chan) returns (ok: bool)
      modifies this
      ensures ok <==> CanBegin(old(State()))
      ensures State() == if ok then Begun(old(State()), c) else old(State())
    {
      if running || deleted || maintenanceDone.Some? || pendingConfig.Some? {
        return false;
      }
      running := true;
      done := Some(c);
      return true;
    }

    method Finish() returns (closes: Option<Chan>)
      modifies this
      ensures closes == old(done) && State() == Ended(old(State()))
    {
      closes := done;
      running := false;
      done := None;
    }

    method EnterRebuild(config: Config, c: Chan, r: Report) returns (entry: Entry)
      modifies this
      ensures entry == EntryOf(old(State()), r) && State() == Entered(old(State()), entry, config, c)
    {
      if deleted || r.prompting {
        return Refuse;
      }
      if !running && !r.busy && r.jobs {
        return Refuse;
      }
      if running || r.busy || maintenanceDone.Some? {
        pendingConfig := Some(config);
        return Queue;
      }
      pendingConfig := None;
      maintenanceDone := Some(c);
      return Claim;
    }

    method SwapController(cur: nat, next: nat) returns (ok: bool)
      modifies this
      ensures ok <==> CanSwap(old(State()), cur)
      ensures State() == if ok then old(State()).(ctrl := next) else old(State())
    {
      if deleted {
        return false;
      }
      if ctrl != cur {
        return false;
      }
      ctrl := next;
      return true;
    }

    method FinishMaintenance(c: Chan) returns (closes: bool)
      modifies this
      ensures closes <==> old(maintenanceDone) == Some(c)
      ensures State() == if closes then old(State()).(maintenance := None) else old(State())
    {
      closes := maintenanceDone == Some(c);
      if closes {
        maintenanceDone := None;
      }
    }

    method DropPendingConfig()
      modifies this
      ensures State() == QueueDropped(old(State()))
    {
      if !deleted && !running && maintenanceDone.None? {
        pendingConfig := None;
      }
    }

    method MarkDeleted() returns (turn: Option<Chan>, maintenance: Option<Chan>)
      modifies this
      ensures turn == old(done) && maintenance == old(maintenanceDone) && State() == old(State()).(deleted := true)
    {
      deleted := true;
      turn, maintenance := done, maintenanceDone;
    }

    /** The recovery handler's commit; on success the caller gives back the old lease. */
    method CommitRecovery(path: Path) returns (ok: bool, outgoing: Option<Path>)
      modifies this
      ensures ok <==> !old(deleted)
      ensures if ok then outgoing == old(lease) && State() == Moved(old(State()), path)
              else outgoing == Some(path) && State() == old(State())
    {
      if deleted {
        return false, Some(path);
      }
      outgoing := lease;
      lease := Some(path);
      transcript := path;
      ok := true;
    }

    method ReleaseSessionLease() returns (released: Option<Path>)
      modifies this
      ensures released == old(lease) && State() == old(State()).(lease := None)
    {
      released := lease;
      lease := None;
    }
  }

  // ---------------------------------------------------------------- interleavings

  /** Where a request stands, named after what it does next. */
  datatype Pc =
    | PromptBegin | Turning | TurnClose
    | ApplyCheck | RebuildEnter | Snapshotting | Swapping | RebuildFinish | RebuildClose | ApplyFailed
    | DeleteMark | AwaitTurn | AwaitMaintenance | DeleteRelease | Destroyed
    | Gone

  /** chan is the channel the request has to close; ctrl the controller it took over; applied
      tells a rebuild made for a queued config from a direct one, ok how a rebuild ended;
      spare and outgoing are leases a recovery handler has in hand. */
  datatype Task = Task(pc: Pc, chan: Option<Chan>, ctrl: nat, config: Config, applied: bool, ok: bool,
                       waitTurn: Option<Chan>, waitMaintenance: Option<Chan>,
                       spare: Option<Path>, outgoing: Option<Path>)

  datatype World = World(s: Session, tasks: map<TaskId, Task>, closed: set<Chan>, held: set<Path>, nextChan: Chan,
          nextCtrl: nat)

  function Fresh(pc: Pc, config: Config, applied: bool): Task {
    Task(pc, None, 0, config, applied, false, None, None, None, None)
  }

  function Put(w: World, t: TaskId, task: Task): World {
    w.(tasks := w.tasks[t := task])
  }

  function Goto(w: World, t: TaskId, pc: Pc): World
    requires t in w.tasks
  {
    Put(w, t, w.tasks[t].(pc := pc))
  }

  function BeginTurn(w: World, t: TaskId): World
    requires t in w.tasks
  {
    if !CanBegin(w.s) then Goto(w, t, Gone)
    else Put(w, t, w.tasks[t].(pc := Turning, chan := Some(w.nextChan), ctrl := w.s.ctrl))
        .(s := Begun(w.s, w.nextChan), nextChan := w.nextChan + 1)
  }

  /** finish, up to closing the channel it took. */
  function FinishTurn(w: World, t: TaskId): World
    requires t in w.tasks
  {
    Goto(w, t, TurnClose).(s := Ended(w.s))
  }

  function CloseChan(w: World, t: TaskId, pc: Pc): World
    requires t in w.tasks && w.tasks[t].chan.Some?
  {
    Put(w, t, w.tasks[t].(pc := pc, chan := None)).(closed := w.closed + {w.tasks[t].chan.value})
  }

  /** applyPendingSessionConfig up to its call of rebuildSession. */
  function CheckPending(w: World, t: TaskId): World
    requires t in w.tasks
  {
    if !w.s.mapped || w.s.deleted || w.s.pending.None? then Goto(w, t, Gone)
    else Put(w, t, Fresh(RebuildEnter, w.s.pending.value, true))
  }

  function EnterRebuild(w: World, t: TaskId, r: Report): World
    requires t in w.tasks
  {
    var task := w.tasks[t];
    match EntryOf(w.s, r)
    case Refuse => Goto(w, t, if task.applied then ApplyFailed else Gone)
    case Queue => Goto(w, t, Gone).(s := Entered(w.s, Queue, task.config, w.nextChan))
    case Claim => Put(w, t, task.(pc := Snapshotting, chan := Some(w.nextChan), ctrl := w.s.ctrl))
                    .(s := Entered(w.s, Claim, task.config, w.nextChan), nextChan := w.nextChan + 1)
  }

  /** The outgoing controller's snapshot and the building of its successor. */
  function SnapshotDone(w: World, t: TaskId, r: Report): World
    requires t in w.tasks
  {
    if r.ok then Goto(w, t, Swapping) else Put(w, t, w.tasks[t].(pc := RebuildFinish, ok := false))
  }

  function Swap(w: World, t: TaskId): World
    requires t in w.tasks
  {
    var task := w.tasks[t];
    if !CanSwap(w.s, task.ctrl) then Put(w, t, task.(pc := RebuildFinish, ok := false))
    else Put(w, t, task.(pc := RebuildFinish, ok := true)).(s := w.s.(ctrl := w.nextCtrl), nextCtrl := w.nextCtrl + 1)
  }

  /** finishMaintenance, up to closing the channel. */
  function FinishMaintenance(w: World, t: TaskId): World
    requires t in w.tasks
  {
    if w.s.maintenance == w.tasks[t].chan then Goto(w, t, RebuildClose).(s := w.s.(maintenance := None))
    else Put(w, t, w.tasks[t].(pc := Gone, chan := None))
  }

  function AfterRebuild(task: Task): Pc {
    if task.ok then ApplyCheck else if task.applied then ApplyFailed else Gone
  }

  function DropQueue(w: World, t: TaskId): World
    requires t in w.tasks
  {
    Goto(w, t, Gone).(s := QueueDropped(w.s))
  }

  function MarkDeleted(w: World, t: TaskId): World
    requires t in w.tasks
  {
    Put(w, t, w.tasks[t].(pc := AwaitTurn, waitTurn := w.s.done, waitMaintenance := w.s.maintenance))
        .(s := w.s.(deleted := true))
  }

  function Await(w: World, t: TaskId, c: Option<Chan>, pc: Pc): World
    requires t in w.tasks
  {
    if c.None? || c.value in w.closed then Goto(w, t, pc) else w
  }

  function ReleaseLease(w: World, t: TaskId): World
    requires t in w.tasks
  {
    Goto(w, t, Destroyed)
        .(s := w.s.(lease := None), held := if w.s.lease.Some? then w.held - {w.s.lease.value} else w.held)
  }

  /** The next access of task t; a task inside a recovery handler has to leave it first. */
  function Step(w: World, t: TaskId, r: Report): World
    requires t in w.tasks
  {
    var task := w.tasks[t];
    if task.spare.Some? || task.outgoing.Some? then w
    else
      match task.pc
      case PromptBegin => BeginTurn(w, t)
      case Turning => FinishTurn(w, t)
      case TurnClose => if task.chan.Some? then CloseChan(w, t, ApplyCheck) else w
      case ApplyCheck => CheckPending(w, t)
      case RebuildEnter => EnterRebuild(w, t, r)
      case Snapshotting => SnapshotDone(w, t, r)
      case Swapping => Swap(w, t)
      case RebuildFinish => FinishMaintenance(w, t)
      case RebuildClose => if task.chan.Some? then CloseChan(w, t, AfterRebuild(task)) else w
      case ApplyFailed => DropQueue(w, t)
      case DeleteMark => MarkDeleted(w, t)
      case AwaitTurn => Await(w, t, task.waitTurn, AwaitMaintenance)
      case AwaitMaintenance => Await(w, t, task.waitMaintenance, DeleteRelease)
      case DeleteRelease => ReleaseLease(w, t)
      case Destroyed => w
      case Gone => w
  }

  /** The recovery handler: take the recovery file's lease, then move transcript and lease
      over in one critical section, then give the old lease back. It runs inside a turn's
      save or a rebuild's snapshot. */
  function Recover(w: World, t: TaskId, path: Path): World
    requires t in w.tasks
  {
    var task := w.tasks[t];
    if !(task.pc.Turning? || task.pc.Snapshotting?) then w
    else if task.outgoing.Some? then Put(w, t, task.(outgoing := None)).(held := w.held - {task.outgoing.value})
    else if task.spare.Some? then
      if w.s.deleted then Put(w, t, task.(spare := None)).(held := w.held - {task.spare.value})
      else Put(w, t, task.(spare := None, outgoing := w.s.lease)).(s := Moved(w.s, task.spare.value))
    else if w.s.mapped && path != "" && path !in w.held
      then Put(w, t, task.(spare := Some(path))).(held := w.held + {path})
    else w
  }

  datatype Event =
    | Prompt(task: TaskId)
    | Switch(task: TaskId, config: Config)
    | Delete(task: TaskId)
    | Advance(task: TaskId, report: Report)
    | Recovery(task: TaskId, path: Path)

  function Apply(w: World, e: Event): World {
    match e
    case Prompt(t) => if t in w.tasks || !w.s.mapped then w else Put(w, t, Fresh(PromptBegin, "", false))
    case Switch(t, config) => if t in w.tasks || !w.s.mapped then w else Put(w, t, Fresh(RebuildEnter, config, false))
    case Delete(t) => if t in w.tasks || !w.s.mapped then w
      else Put(w, t, Fresh(DeleteMark, "", false)).(s := w.s.(mapped := false))
    case Advance(t, r) => if t in w.tasks then Step(w, t, r) else w
    case Recovery(t, path) => if t in w.tasks then Recover(w, t, path) else w
  }

  function Run(w: World, events: seq<Event>): World {
    if events == [] then w else Apply(Run(w, events[..|events| - 1]), events[|events| - 1])
  }

  /** A session as it is opened: idle, its transcript guarded or persistence off. */
  ghost predicate Opened(w: World) {
    && (forall c :: c in w.closed ==> c < w.nextChan)
    && w.s.mapped && !w.s.running && w.s.done.None? && !w.s.deleted && w.s.pending.None? && w.s.maintenance.None?
    && w.s.ctrl < w.nextCtrl
    && w.tasks == map[] && (w.s.lease.Some? ==> w.s.lease.value == w.s.transcript && w.s.transcript in w.held)
  }

  // ---------------------------------------------------------------- invariant

  predicate OwesChan(pc: Pc) {
    pc.Turning? || pc.TurnClose? || pc.Snapshotting? || pc.Swapping? || pc.RebuildFinish? || pc.RebuildClose?
  }

  predicate Maintains(pc: Pc) {
    pc.Snapshotting? || pc.Swapping? || pc.RebuildFinish?
  }

  /** The session's own fields. */
  predicate SessionSane(w: World) {
    && w.s.running == w.s.done.Some? && !(w.s.done.Some? && w.s.maintenance.Some?) && w.s.ctrl < w.nextCtrl
    && (w.s.done.Some? ==> w.s.done.value < w.nextChan && w.s.done.value !in w.closed)
    && (w.s.maintenance.Some? ==> w.s.maintenance.value < w.nextChan && w.s.maintenance.value !in w.closed)
    && (w.s.lease.Some? ==> w.s.lease.value == w.s.transcript && w.s.transcript in w.held)
  }

  /** A task's channel, and how it matches the session's. */
  predicate ChanFits(w: World, task: Task) {
    && task.chan.Some? == OwesChan(task.pc)
    && (task.chan.Some? ==> task.chan.value < w.nextChan && task.chan.value !in w.closed)
    && (task.pc.Turning? ==> w.s.done == task.chan && w.s.ctrl == task.ctrl)
    && (Maintains(task.pc) ==> w.s.maintenance == task.chan)
    && (task.pc.Snapshotting? || task.pc.Swapping? ==> w.s.ctrl == task.ctrl)
    && (task.pc.TurnClose? || task.pc.RebuildClose? ==> w.s.done != task.chan && w.s.maintenance != task.chan)
  }

  /** How far a delete has got, and what can then no longer be in flight. */
  predicate DeleteFits(w: World, task: Task) {
    && (task.pc.AwaitTurn? || task.pc.AwaitMaintenance? || task.pc.DeleteRelease? || task.pc.Destroyed? ==> w.s.deleted)
    && (task.pc.AwaitTurn? ==> w.s.done.None? || w.s.done == task.waitTurn)
    && (task.pc.AwaitMaintenance? || task.pc.DeleteRelease? || task.pc.Destroyed? ==> w.s.done.None?)
    && (task.pc.AwaitTurn? || task.pc.AwaitMaintenance? ==>
       w.s.maintenance.None? || w.s.maintenance == task.waitMaintenance)
    && (task.pc.DeleteRelease? || task.pc.Destroyed? ==> w.s.maintenance.None?)
  }

  predicate LeaseFits(w: World, task: Task) {
    && (task.spare.Some? || task.outgoing.Some? ==> task.pc.Turning? || task.pc.Snapshotting?)
    && (task.spare.Some? ==> task.spare.value in w.held && w.s.lease != task.spare && task.outgoing.None?)
    && (task.outgoing.Some? ==> w.s.lease != task.outgoing)
  }

  predicate TaskFits(w: World, task: Task) {
    ChanFits(w, task) && DeleteFits(w, task) && LeaseFits(w, task)
  }

  ghost predicate ChansDiffer(w: World) {
    forall t, u ::
      t in w.tasks && u in w.tasks && w.tasks[t].chan.Some? && w.tasks[t].chan == w.tasks[u].chan ==> t == u
  }

  ghost predicate Inv(w: World) {
    SessionSane(w) && (forall c :: c in w.closed ==> c < w.nextChan) && ChansDiffer(w)
    && forall t :: t in w.tasks ==> TaskFits(w, w.tasks[t])
  }

  predicate Idle(task: Task) {
    task.spare.None? && task.outgoing.None?
  }

  lemma {:induction false} EndKeeps(w: World, t: TaskId)
    requires Inv(w) && t in w.tasks && Idle(w.tasks[t]) && w.tasks[t].chan.None?
    ensures Inv(Goto(w, t, Gone))
  {
    assert TaskFits(w, w.tasks[t]);
  }

  lemma {:induction false} BeginTurnKeeps(w: World, t: TaskId)
    requires Inv(w) && t in w.tasks && Idle(w.tasks[t]) && w.tasks[t].pc.PromptBegin?
    ensures Inv(BeginTurn(w, t))
  {
    assert TaskFits(w, w.tasks[t]);
    var w' := BeginTurn(w, t);
    if w'.s == w.s {
      EndKeeps(w, t);
    } else {
      forall u | u in w'.tasks && u != t ensures TaskFits(w', w'.tasks[u]) {
        assert TaskFits(w, w.tasks[u]);
      }
    }
  }

  lemma {:induction false} FinishTurnKeeps(w: World, t: TaskId)
    requires Inv(w) && t in w.tasks && Idle(w.tasks[t]) && w.tasks[t].pc.Turning?
    ensures Inv(FinishTurn(w, t))
  {
    assert TaskFits(w, w.tasks[t]);
  }

  lemma {:induction false} CloseTurnKeeps(w: World, t: TaskId)
    requires Inv(w) && t in w.tasks && Idle(w.tasks[t]) && w.tasks[t].pc.TurnClose? && w.tasks[t].chan.Some?
    ensures Inv(CloseChan(w, t, ApplyCheck))
  {
    assert TaskFits(w, w.tasks[t]);
  }

  lemma {:induction false} CheckPendingKeeps(w: World, t: TaskId)
    requires Inv(w) && t in w.tasks && Idle(w.tasks[t]) && w.tasks[t].pc.ApplyCheck?
    ensures Inv(CheckPending(w, t))
  {
    assert TaskFits(w, w.tasks[t]);
    var w' := CheckPending(w, t);
    if w'.tasks[t].pc.Gone? {
      EndKeeps(w, t);
    } else {
      forall u | u in w'.tasks && u != t ensures TaskFits(w', w'.tasks[u]) {
        assert TaskFits(w, w.tasks[u]);
      }
    }
  }

  lemma {:induction false} ClaimKeepsOthers(w: World, t: TaskId, r: Report, u: TaskId)
    requires Inv(w) && t in w.tasks && w.tasks[t].pc.RebuildEnter? && EntryOf(w.s, r).Claim? && u in w.tasks && u != t
    ensures TaskFits(EnterRebuild(w, t, r), w.tasks[u])
  {
    assert TaskFits(w, w.tasks[u]);
  }

  lemma {:induction false} ClaimKeeps(w: World, t: TaskId, r: Report)
    requires Inv(w) && t in w.tasks && Idle(w.tasks[t]) && w.tasks[t].pc.RebuildEnter? && EntryOf(w.s, r).Claim?
    ensures Inv(EnterRebuild(w, t, r))
  {
    var w' := EnterRebuild(w, t, r);
    assert TaskFits(w, w.tasks[t]);
    forall u | u in w'.tasks && u != t ensures TaskFits(w', w'.tasks[u]) {
      ClaimKeepsOthers(w, t, r, u);
    }
  }

  lemma {:induction false} QueueKeeps(w: World, t: TaskId, r: Report)
    requires Inv(w) && t in w.tasks && Idle(w.tasks[t]) && w.tasks[t].pc.RebuildEnter? && EntryOf(w.s, r).Queue?
    ensures Inv(EnterRebuild(w, t, r))
  {
    var w' := EnterRebuild(w, t, r);
    assert TaskFits(w, w.tasks[t]);
    forall u | u in w'.tasks && u != t ensures TaskFits(w', w'.tasks[u]) {
      assert TaskFits(w, w.tasks[u]);
    }
  }

  lemma {:induction false} RefuseKeeps(w: World, t: TaskId, r: Report)
    requires Inv(w) && t in w.tasks && Idle(w.tasks[t]) && w.tasks[t].pc.RebuildEnter? && EntryOf(w.s, r).Refuse?
    ensures Inv(EnterRebuild(w, t, r))
  {
    assert TaskFits(w, w.tasks[t]);
  }

  lemma {:induction false} EnterRebuildKeeps(w: World, t: TaskId, r: Report)
    requires Inv(w) && t in w.tasks && Idle(w.tasks[t]) && w.tasks[t].pc.RebuildEnter?
    ensures Inv(EnterRebuild(w, t, r))
  {
    match EntryOf(w.s, r)
    case Claim => ClaimKeeps(w, t, r);
    case Queue => QueueKeeps(w, t, r);
    case Refuse => RefuseKeeps(w, t, r);
  }

  lemma {:induction false} SnapshotKeeps(w: World, t: TaskId, r: Report)
    requires Inv(w) && t in w.tasks && Idle(w.tasks[t]) && w.tasks[t].pc.Snapshotting?
    ensures Inv(SnapshotDone(w, t, r))
  {
    assert TaskFits(w, w.tasks[t]);
  }

  lemma {:induction false} SwapKeeps(w: World, t: TaskId)
    requires Inv(w) && t in w.tasks && Idle(w.tasks[t]) && w.tasks[t].pc.Swapping?
    ensures Inv(Swap(w, t))
  {
    assert TaskFits(w, w.tasks[t]);
  }

  lemma {:induction false} FinishMaintenanceKeeps(w: World, t: TaskId)
    requires Inv(w) && t in w.tasks && Idle(w.tasks[t]) && w.tasks[t].pc.RebuildFinish?
    ensures Inv(FinishMaintenance(w, t))
  {
    assert TaskFits(w, w.tasks[t]);
  }

  lemma {:induction false} CloseRebuildKeeps(w: World, t: TaskId)
    requires Inv(w) && t in w.tasks && Idle(w.tasks[t]) && w.tasks[t].pc.RebuildClose? && w.tasks[t].chan.Some?
    ensures Inv(CloseChan(w, t, AfterRebuild(w.tasks[t])))
  {
    assert TaskFits(w, w.tasks[t]);
  }

  lemma {:induction false} DropQueueKeeps(w: World, t: TaskId)
    requires Inv(w) && t in w.tasks && Idle(w.tasks[t]) && w.tasks[t].pc.ApplyFailed?
    ensures Inv(DropQueue(w, t))
  {
    assert TaskFits(w, w.tasks[t]);
  }

  lemma {:induction false} MarkDeletedKeeps(w: World, t: TaskId)
    requires Inv(w) && t in w.tasks && Idle(w.tasks[t]) && w.tasks[t].pc.DeleteMark?
    ensures Inv(MarkDeleted(w, t))
  {
    assert TaskFits(w, w.tasks[t]);
  }

  lemma {:induction false} AwaitTurnKeeps(w: World, t: TaskId)
    requires Inv(w) && t in w.tasks && Idle(w.tasks[t]) && w.tasks[t].pc.AwaitTurn?
    ensures Inv(Await(w, t, w.tasks[t].waitTurn, AwaitMaintenance))
  {
    assert TaskFits(w, w.tasks[t]);
  }

  lemma {:induction false} AwaitMaintenanceKeeps(w: World, t: TaskId)
    requires Inv(w) && t in w.tasks && Idle(w.tasks[t]) && w.tasks[t].pc.AwaitMaintenance?
    ensures Inv(Await(w, t, w.tasks[t].waitMaintenance, DeleteRelease))
  {
    assert TaskFits(w, w.tasks[t]);
  }

  lemma {:induction false} ReleaseLeaseKeeps(w: World, t: TaskId)
    requires Inv(w) && t in w.tasks && Idle(w.tasks[t]) && w.tasks[t].pc.DeleteRelease?
    ensures Inv(ReleaseLease(w, t))
  {
    assert TaskFits(w, w.tasks[t]);
  }

  lemma {:induction false} StepKeepsInv(w: World, t: TaskId, r: Report)
    requires Inv(w) && t in w.tasks
    ensures Inv(Step(w, t, r))
  {
    assert TaskFits(w, w.tasks[t]);
    if Idle(w.tasks[t]) {
      match w.tasks[t].pc
      case PromptBegin => BeginTurnKeeps(w, t);
      case Turning => FinishTurnKeeps(w, t);
      case TurnClose => CloseTurnKeeps(w, t);
      case ApplyCheck => CheckPendingKeeps(w, t);
      case RebuildEnter => EnterRebuildKeeps(w, t, r);
      case Snapshotting => SnapshotKeeps(w, t, r);
      case Swapping => SwapKeeps(w, t);
      case RebuildFinish => FinishMaintenanceKeeps(w, t);
      case RebuildClose => CloseRebuildKeeps(w, t);
      case ApplyFailed => DropQueueKeeps(w, t);
      case DeleteMark => MarkDeletedKeeps(w, t);
      case AwaitTurn => AwaitTurnKeeps(w, t);
      case AwaitMaintenance => AwaitMaintenanceKeeps(w, t);
      case DeleteRelease => ReleaseLeaseKeeps(w, t);
      case _ =>
    }
  }

  /** Turns and snapshots exclude each other, so at most one recovery is in hand. */
  lemma {:induction false} OneRecoversAtATime(w: World, t: TaskId, u: TaskId)
    requires Inv(w) && t in w.tasks && u in w.tasks && t != u
    requires w.tasks[t].pc.Turning? || w.tasks[t].pc.Snapshotting?
    ensures w.tasks[u].spare.None? && w.tasks[u].outgoing.None?
  {
    assert TaskFits(w, w.tasks[t]) && TaskFits(w, w.tasks[u]);
  }

  lemma {:induction false} RecoverKeepsInv(w: World, t: TaskId, path: Path)
    requires Inv(w) && t in w.tasks
    ensures Inv(Recover(w, t, path))
  {
    var w', task := Recover(w, t, path), w.tasks[t];
    if task.pc.Turning? || task.pc.Snapshotting? {
      assert TaskFits(w, task);
      forall u | u in w'.tasks ensures TaskFits(w', w'.tasks[u]) {
        if u != t {
          OneRecoversAtATime(w, t, u);
          assert TaskFits(w, w.tasks[u]);
        }
      }
    }
  }

  /** A request that only just arrived holds nothing. */
  lemma {:induction false} ArrivalKeepsInv(w: World, t: TaskId, task: Task, mapped: bool)
    requires Inv(w) && t !in w.tasks && task.chan.None? && Idle(task)
    requires task.pc.PromptBegin? || task.pc.RebuildEnter? || task.pc.DeleteMark?
    ensures Inv(Put(w, t, task).(s := w.s.(mapped := mapped)))
  {
    var w' := Put(w, t, task).(s := w.s.(mapped := mapped));
    forall u | u in w'.tasks ensures TaskFits(w', w'.tasks[u]) {
      if u != t {
        assert TaskFits(w, w.tasks[u]);
      }
    }
  }

  lemma {:induction false} EventKeepsInv(w: World, e: Event)
    requires Inv(w)
    ensures Inv(Apply(w, e))
  {
    match e
    case Prompt(t) => if t !in w.tasks { ArrivalKeepsInv(w, t, Fresh(PromptBegin, "", false), w.s.mapped); }
    case Switch(t, config) =>
      if t !in w.tasks { ArrivalKeepsInv(w, t, Fresh(RebuildEnter, config, false), w.s.mapped); }
    case Delete(t) => if t !in w.tasks { ArrivalKeepsInv(w, t, Fresh(DeleteMark, "", false), false); }
    case Advance(t, r) => if t in w.tasks { StepKeepsInv(w, t, r); }
    case Recovery(t, path) => if t in w.tasks { RecoverKeepsInv(w, t, path); }
  }

  lemma {:induction false} InvHolds(w: World, events: seq<Event>)
    requires Opened(w)
    ensures Inv(Run(w, events))
  {
    if events != [] {
      InvHolds(w, events[..|events| - 1]);
      EventKeepsInv(Run(w, events[..|events| - 1]), events[|events| - 1]);
    }
  }

  // ---------------------------------------------------------------- what it gives

  /** Over every interleaving: at most one turn runs, never beside a rebuild, on the
      session's current controller; at most one rebuild runs, and it finds the controller
      it started from; a held lease guards the current transcript; and no channel is
      closed twice. */
  lemma {:induction false} TurnsAndRebuildsExclude(w0: World, events: seq<Event>, t: TaskId, u: TaskId)
    requires Opened(w0)
    requires var w := Run(w0, events); t in w.tasks && u in w.tasks
    ensures var w := Run(w0, events); var a, b := w.tasks[t], w.tasks[u];
            && (a.pc.Turning? && b.pc.Turning? ==> t == u)
            && !(a.pc.Turning? && Maintains(b.pc))
            && (Maintains(a.pc) && Maintains(b.pc) ==> t == u)
            && (a.pc.Turning? || a.pc.Snapshotting? || a.pc.Swapping? ==> a.ctrl == w.s.ctrl)
            && (w.s.lease.Some? ==> w.s.lease.value == w.s.transcript && w.s.transcript in w.held)
            && (a.chan.Some? ==> a.chan.value !in w.closed)
  {
    InvHolds(w0, events);
    var w := Run(w0, events);
    assert TaskFits(w, w.tasks[t]) && TaskFits(w, w.tasks[u]);
  }

  /** The controller changes only in the swap of a rebuild, and then nobody is in a turn;
      a turn starts only with nothing queued and nothing in flight. */
  lemma {:induction false} SwapsAndStarts(w: World, e: Event)
    requires Inv(w)
    ensures var w' := Apply(w, e);
            w'.s.ctrl != w.s.ctrl ==>
                !w.s.running && !w.s.deleted && (forall t :: t in w.tasks ==> !w.tasks[t].pc.Turning?)
    ensures var w' := Apply(w, e);
            w'.s.running && !w.s.running ==> w.s.pending.None? && w.s.maintenance.None? && !w.s.deleted
  {
    if e.Advance? && e.task in w.tasks {
      assert TaskFits(w, w.tasks[e.task]);
      forall t | t in w.tasks && w.s.maintenance.Some? ensures !w.tasks[t].pc.Turning? {
        assert TaskFits(w, w.tasks[t]);
      }
    }
  }

  predicate Quiet(w: World) {
    w.s.deleted && !w.s.running && w.s.maintenance.None?
  }

  /** Once a delete has waited, no turn and no rebuild is in flight. */
  lemma {:induction false} DeleteWaitsForAll(w0: World, events: seq<Event>, d: TaskId, t: TaskId)
    requires Opened(w0)
    requires var w := Run(w0, events);
             d in w.tasks && t in w.tasks && (w.tasks[d].pc.DeleteRelease? || w.tasks[d].pc.Destroyed?)
    ensures var w := Run(w0, events); Quiet(w) && !w.tasks[t].pc.Turning? && !Maintains(w.tasks[t].pc)
  {
    InvHolds(w0, events);
    var w := Run(w0, events);
    assert TaskFits(w, w.tasks[d]) && TaskFits(w, w.tasks[t]);
  }

  /** And whatever comes after, none ever starts again and the controller stays. */
  lemma {:induction false} QuietForever(w: World, events: seq<Event>)
    requires Inv(w) && Quiet(w)
    ensures var w' := Run(w, events); Inv(w') && Quiet(w') && w'.s.ctrl == w.s.ctrl
  {
    if events != [] {
      QuietForever(w, events[..|events| - 1]);
      var before := Run(w, events[..|events| - 1]);
      EventKeepsInv(before, events[|events| - 1]);
      SwapsAndStarts(before, events[|events| - 1]);
      QuietStep(before, events[|events| - 1]);
    }
  }

  lemma {:induction false} QuietStep(w: World, e: Event)
    requires Inv(w) && Quiet(w)
    ensures Quiet(Apply(w, e))
  {
  }

  // ---------------------------------------------------------------- stranded configurations

  /** A task that will look at the queue before it ends. */
  predicate Drains(task: Task) {
    task.pc.TurnClose? || task.pc.ApplyCheck? || task.pc.ApplyFailed? || (task.pc.RebuildEnter? && task.applied)
    || (task.pc.RebuildClose? && (task.ok || task.applied))
  }

  /** A configuration is queued and nothing in flight will ever apply or drop it, while
      begin refuses every turn for its sake. */
  ghost predicate Stranded(w: World) {
    Parked(w) && forall t :: t in w.tasks ==> !Drains(w.tasks[t])
  }

  ghost predicate NobodyElseDrains(w: World, t: TaskId) {
    forall u :: u in w.tasks && u != t ==> !Drains(w.tasks[u])
  }

  predicate Parked(w: World) {
    w.s.mapped && !w.s.deleted && w.s.pending.Some? && !w.s.running && w.s.maintenance.None?
  }

  /** A direct rebuild ends in failure after a switch was queued behind it, or a switch is
      queued behind a controller that reports activity no turn or rebuild accounts for. */
  predicate Parks(w: World, task: Task, r: Report) {
    && w.s.mapped && !w.s.deleted && Idle(task)
    && (|| (task.pc.RebuildFinish? && !task.ok && !task.applied && w.s.pending.Some?)
        || (task.pc.RebuildEnter? && !r.prompting && r.busy && !w.s.running && w.s.maintenance.None?))
  }

  /** And nobody else is on the way to the queue. */
  ghost predicate Strands(w: World, t: TaskId, r: Report)
    requires t in w.tasks
  {
    NobodyElseDrains(w, t) && Parks(w, w.tasks[t], r)
  }

  lemma {:induction false} StepTouchesOneTask(w: World, t: TaskId, r: Report)
    requires t in w.tasks
    ensures var w' := Step(w, t, r); t in w'.tasks && w'.tasks == w.tasks[t := w'.tasks[t]]
  {
  }

  lemma {:induction false} RebuildParksExactly(w: World, t: TaskId, r: Report)
    requires t in w.tasks && SessionSane(w) && TaskFits(w, w.tasks[t]) && !(Parked(w) && !Drains(w.tasks[t]))
    requires w.tasks[t].pc.RebuildEnter? || w.tasks[t].pc.Snapshotting? || w.tasks[t].pc.Swapping?
             || w.tasks[t].pc.RebuildFinish? || w.tasks[t].pc.RebuildClose?
    ensures var w' := Step(w, t, r); t in w'.tasks && (Parked(w') && !Drains(w'.tasks[t]) <==> Parks(w, w.tasks[t], r))
  {
  }

  lemma {:induction false} OthersNeverPark(w: World, t: TaskId, r: Report)
    requires t in w.tasks && SessionSane(w) && TaskFits(w, w.tasks[t]) && !(Parked(w) && !Drains(w.tasks[t]))
    requires !(w.tasks[t].pc.RebuildEnter? || w.tasks[t].pc.Snapshotting? || w.tasks[t].pc.Swapping?
             || w.tasks[t].pc.RebuildFinish? || w.tasks[t].pc.RebuildClose?)
    ensures var w' := Step(w, t, r); t in w'.tasks && !(Parked(w') && !Drains(w'.tasks[t]))
  {
  }

  lemma {:induction false} StepParksExactly(w: World, t: TaskId, r: Report)
    requires t in w.tasks && SessionSane(w) && TaskFits(w, w.tasks[t]) && !(Parked(w) && !Drains(w.tasks[t]))
    ensures var w' := Step(w, t, r); t in w'.tasks && (Parked(w') && !Drains(w'.tasks[t]) <==> Parks(w, w.tasks[t], r))
  {
    match w.tasks[t].pc
    case RebuildEnter | Snapshotting | Swapping | RebuildFinish | RebuildClose => RebuildParksExactly(w, t, r);
    case _ => OthersNeverPark(w, t, r);
  }

  lemma {:induction false} StepStrandsExactly(w: World, t: TaskId, r: Report)
    requires Inv(w) && !Stranded(w) && t in w.tasks
    ensures Stranded(Step(w, t, r)) <==> Strands(w, t, r)
  {
    var w' := Step(w, t, r);
    StepTouchesOneTask(w, t, r);
    assert forall u :: u != t ==> (u in w.tasks <==> u in w'.tasks) && (u in w.tasks ==> w'.tasks[u] == w.tasks[u]);
    if NobodyElseDrains(w, t) {
      assert NobodyElseDrains(w', t);
    }
    if NobodyElseDrains(w', t) {
      forall u | u in w.tasks && u != t ensures !Drains(w.tasks[u]) {
        assert !Drains(w'.tasks[u]);
      }
    }
    assert Stranded(w) <==> Parked(w) && !Drains(w.tasks[t]) && NobodyElseDrains(w, t);
    assert Stranded(w') <==> Parked(w') && !Drains(w'.tasks[t]) && NobodyElseDrains(w', t);
    if NobodyElseDrains(w, t) {
      StepParksExactly(w, t, r);
    }
  }

  /** In every reachable state, a configuration becomes stranded exactly so. */
  lemma {:induction false} StrandedExactly(w: World, e: Event)
    requires Inv(w) && !Stranded(w)
    ensures Stranded(Apply(w, e)) <==> e.Advance? && e.task in w.tasks && Strands(w, e.task, e.report)
  {
    if e.Advance? {
      if e.task in w.tasks {
        StepStrandsExactly(w, e.task, e.report);
      }
    } else {
      var w' := Apply(w, e);
      if Stranded(w') {
        forall t | t in w.tasks ensures !Drains(w.tasks[t]) {
          assert !Drains(w'.tasks[t]) && w'.tasks[t].pc == w.tasks[t].pc;
        }
      }
    }
  }

  /** While stranded, a prompt is refused, and nothing but the next configuration switch
      or a delete changes that. */
  lemma {:induction false} StrandedStays(w: World, e: Event)
    requires Inv(w) && Stranded(w)
    ensures e.Advance? && e.task in w.tasks && w.tasks[e.task].pc.PromptBegin? && Idle(w.tasks[e.task]) ==>
            Apply(w, e) == Goto(w, e.task, Gone)
    ensures Stranded(Apply(w, e)) || e.Delete?
            || (e.Advance? && e.task in w.tasks && (w.tasks[e.task].pc.RebuildEnter? || w.tasks[e.task].pc.DeleteMark?))
  {
    var w' := Apply(w, e);
    if e.Advance? && e.task in w.tasks {
      StepTouchesOneTask(w, e.task, e.report);
      assert TaskFits(w, w.tasks[e.task]) && !Drains(w.tasks[e.task]);
    } else if !e.Delete? {
      forall t | t in w'.tasks ensures !Drains(w'.tasks[t]) {
        assert t in w.tasks ==> w'.tasks[t].pc == w.tasks[t].pc && !Drains(w.tasks[t]);
      }
    }
  }

  function Steps(w: World, t: TaskId, r: Report, n: nat): (w': World)
    requires t in w.tasks
    ensures t in w'.tasks
  {
    if n == 0 then w else StepTouchesOneTask(Steps(w, t, r, n - 1), t, r); Step(Steps(w, t, r, n - 1), t, r)
  }

  lemma {:induction false} StepsOne(w: World, t: TaskId, r: Report)
    requires t in w.tasks
    ensures Steps(w, t, r, 1) == Step(w, t, r)
  {
    assert Steps(w, t, r, 0) == w;
  }

  /** Left alone, a prompt on an idle session runs its turn on the current controller and
      leaves the session as it found it, so the next one is served as well; on any other
      it is turned away at once and changes nothing. */
  lemma {:induction false} PromptIsServedExactly(w: World, t: TaskId, r: Report)
    requires Inv(w) && t in w.tasks && w.tasks[t].pc.PromptBegin? && Idle(w.tasks[t])
    ensures var w1, w4 := Steps(w, t, r, 1), Steps(w, t, r, 4);
            if !w.s.running && !w.s.deleted && w.s.maintenance.None? && w.s.pending.None? then
              && w1.tasks[t].pc.Turning? && w1.tasks[t].ctrl == w.s.ctrl && w1.s.running
              && w4.tasks[t].pc.Gone? && w4.s == w.s && w4.closed == w.closed + {w.nextChan}
            else w1 == Goto(w, t, Gone)
  {
    StepsOne(w, t, r);
    if CanBegin(w.s) {
      var w1 := BeginTurn(w, t);
      var w2 := FinishTurn(w1, t);
      assert Steps(w, t, r, 2) == w2;
      var w3 := CloseChan(w2, t, ApplyCheck);
      assert Steps(w, t, r, 3) == w3;
      assert Steps(w, t, r, 4) == CheckPending(w3, t) == Goto(w3, t, Gone);
    }
  }

  lemma {:induction false} QueueIsClaimed(w: World, t: TaskId)
    requires Inv(w) && t in w.tasks && w.tasks[t].pc.ApplyCheck? && Idle(w.tasks[t])
    requires w.s.mapped && !w.s.deleted && !w.s.running && w.s.maintenance.None? && w.s.pending.Some?
    ensures var w' := Steps(w, t, Report(false, false, false, true), 2);
            && w'.tasks[t].pc.Snapshotting? && Idle(w'.tasks[t]) && w'.tasks[t].config == w.s.pending.value
            && w'.tasks[t].ctrl == w.s.ctrl && w'.tasks[t].applied
            && w'.s == w.s.(pending := None, maintenance := w'.tasks[t].chan) && w'.nextCtrl == w.nextCtrl
  {
    var r := Report(false, false, false, true);
    assert Steps(w, t, r, 0) == w;
    assert Steps(w, t, r, 1) == CheckPending(w, t);
    assert Steps(w, t, r, 2) == EnterRebuild(CheckPending(w, t), t, r);
  }

  lemma {:induction false} RebuildInstalls(w: World, t: TaskId)
    requires t in w.tasks
    requires w.tasks[t].pc.Snapshotting?
    requires Idle(w.tasks[t])
    requires !w.s.deleted
    requires w.tasks[t].ctrl == w.s.ctrl
    requires w.s.maintenance == w.tasks[t].chan
    ensures var w' := Steps(w, t, Report(false, false, false, true), 3);
            w'.tasks[t].pc.RebuildClose? && w'.tasks[t].ok && w'.tasks[t].config == w.tasks[t].config
            && w'.s == w.s.(ctrl := w.nextCtrl, maintenance := None)
  {
    var r := Report(false, false, false, true);
    assert Steps(w, t, r, 0) == w;
    var w1 := Steps(w, t, r, 1);
    assert w1 == Goto(w, t, Swapping);
    var w2 := Steps(w, t, r, 2);
    assert w2 == Swap(w1, t);
    assert Steps(w, t, r, 3) == FinishMaintenance(w2, t);
  }

  /** A queued configuration is applied: left alone on an idle session, the request that
      drains the queue installs a new controller and takes both queue and maintenance
      back. */
  lemma {:induction false} QueuedConfigIsApplied(w: World, t: TaskId) returns (w': World)
    requires Inv(w) && t in w.tasks && w.tasks[t].pc.ApplyCheck? && Idle(w.tasks[t])
    requires w.s.mapped && !w.s.deleted && !w.s.running && w.s.maintenance.None? && w.s.pending.Some?
    ensures t in w'.tasks && w'.tasks[t].ok && w'.tasks[t].config == w.s.pending.value
    ensures w'.s == w.s.(pending := None, ctrl := w.nextCtrl) && w.nextCtrl > w.s.ctrl
  {
    var r := Report(false, false, false, true);
    QueueIsClaimed(w, t);
    var claimed := Steps(w, t, r, 2);
    RebuildInstalls(claimed, t);
    w' := Steps(claimed, t, r, 3);
  }

  /** A first switch whose rebuild is under way, alone. */
  predicate Rebuilding(w: World, pending: Option<Config>) {
    && w.s.mapped && !w.s.deleted && !w.s.running && w.s.maintenance.Some? && w.s.pending == pending
    && 0 in w.tasks && w.tasks[0].pc.Snapshotting? && Idle(w.tasks[0]) && !w.tasks[0].applied
    && w.tasks[0].chan == w.s.maintenance
    && forall t :: t in w.tasks && t != 0 ==> w.tasks[t].pc.Gone?
  }

  lemma {:induction false} FirstSwitchRebuilds(w: World, config: Config) returns (events: seq<Event>, w': World)
    requires Opened(w)
    ensures w' == Run(w, events) && Rebuilding(w', None) && 1 !in w'.tasks
  {
    events, w' := Then(w, [], w, Switch(0, config));
    events, w' := Then(w, events, w', Advance(0, Report(false, false, false, true)));
  }

  lemma {:induction false} SecondSwitchQueues(w0: World, w: World, events: seq<Event>, config: Config)
    returns (events': seq<Event>, w': World)
    requires w == Run(w0, events) && Rebuilding(w, None) && 1 !in w.tasks
    ensures w' == Run(w0, events') && Rebuilding(w', Some(config))
  {
    events', w' := Then(w0, events, w, Switch(1, config));
    events', w' := Then(w0, events', w', Advance(1, Report(false, false, false, true)));
  }

  /** Such a run exists from every opened session: a second switch arrives while the first
      one's rebuild is about to fail. */
  lemma {:induction false} FailedRebuildStrands(w: World, first: Config, second: Config) returns (events: seq<Event>)
    requires Opened(w)
    ensures Stranded(Run(w, events)) && Run(w, events).s.pending == Some(second)
  {
    var w';
    events, w' := FirstSwitchRebuilds(w, first);
    events, w' := SecondSwitchQueues(w, w', events, second);
    events, w' := Then(w, events, w', Advance(0, Report(false, false, false, false)));
    events, w' := Then(w, events, w', Advance(0, Report(false, false, false, true)));
  }

  lemma {:induction false} Then(w0: World, events: seq<Event>, w: World, e: Event)
    returns (events': seq<Event>, w': World)
    requires w == Run(w0, events)
    ensures w' == Apply(w, e) == Run(w0, events')
  {
    events', w' := events + [e], Apply(w, e);
    assert events'[..|events|] == events;
  }
}
