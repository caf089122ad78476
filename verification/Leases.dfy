/** Session leases and removal guards: an in-process owner registry in front of an OS lock,
    with an info file for other processes to read (internal/agent/session_lease.go,
    session_removal.go). Any number of operations interleave, each advancing by one access
    to shared state at a time; opening and locking a lock file is one such access. */
module Leases {
  import opened Transcripts

  type Proc = nat
  type Path = string
  type Actor = nat

  /** Where an operation stands, named after what it does next. Held, Guarding and Saving
      are the resting places. */
  datatype Pc =
    | Register | AcquireLock | AcquireUndo | AcquireInfo
    | ReclaimInspect | ReclaimLock | ReclaimRegister | ReclaimInfo
    | Held | ReleaseInfo | ReleaseUnlock | ReleaseEntry
    | RetireCheck | RetireLock | RetireDrop
    | ProbeInspect | ProbeLock | ProbeClear | ProbeDrop
    | SweepInspect | SweepProbe | SweepClear | SweepRelease | SweepLock | SweepDrop
    | GuardCheck | GuardLease | GuardSave | Guarding | GuardRemove | GuardDropSave | GuardDropLease
    | SaveLock | Saving
    | Gone

  /** One running operation with the handles it has: the lease lock, the save lock, and an
      owner id from its entering the registry to its leaving it. */
  datatype Operation = Operation(proc: Proc, path: Path, pc: Pc, lease: bool, save: bool, id: Option<nat>)

  datatype Info = Missing | Unreadable | Names(proc: Proc)

  datatype Key = Key(proc: Proc, path: Path)

  datatype World = World(ops: map<Actor, Operation>, registry: map<Key, nat>, leaseLocks: map<Path, Actor>,
          saveLocks: map<Path, Actor>, infos: map<Path, Info>, seqNo: nat)

  const START: World := World(map[], map[], map[], map[], map[], 0)

  /** What CompareAndDelete leaves: only one's own entry goes. */
  function WithoutOwn(owners: map<Key, nat>, key: Key, id: nat): map<Key, nat> {
    if key in owners && owners[key] == id then owners - {key} else owners
  }

  /** The owner registry and its sequence, as the operations of one process use them. */
  class OwnerRegistry {
    var owners: map<Key, nat>
    var seqNo: nat

    constructor ()
      ensures owners == map[] && seqNo == 0
    {
      owners, seqNo := map[], 0;
    }

    /** A new id, and LoadOrStore of it. */
    method Register(key: Key) returns (id: nat, loaded: bool)
      modifies this
      ensures id == old(seqNo) && seqNo == old(seqNo) + 1 && (loaded <==> key in old(owners))
      ensures owners == if loaded then old(owners) else old(owners)[key := id]
    {
      id, seqNo := seqNo, seqNo + 1;
      loaded := key in owners;
      if !loaded {
        owners := owners[key := id];
      }
    }

    /** A new id, and Store of it over whatever is there. */
    method Reclaim(key: Key) returns (id: nat)
      modifies this
      ensures id == old(seqNo) && seqNo == old(seqNo) + 1 && owners == old(owners)[key := id]
    {
      id, seqNo := seqNo, seqNo + 1;
      owners := owners[key := id];
    }

    method CompareAndDelete(key: Key, id: nat) returns (deleted: bool)
      modifies this
      ensures seqNo == old(seqNo)
      ensures owners == WithoutOwn(old(owners), key, id)
      ensures deleted <==> key in old(owners) && old(owners)[key] == id
    {
      deleted := key in owners && owners[key] == id;
      if deleted {
        owners := owners - {key};
      }
    }
  }

  function InfoOf(w: World, path: Path): Info {
    if path in w.infos then w.infos[path] else Missing
  }

  predicate Registered(w: World, op: Operation) {
    op.id.Some? && Key(op.proc, op.path) in w.registry && w.registry[Key(op.proc, op.path)] == op.id.value
  }

  predicate HoldsLease(pc: Pc) {
    || pc.AcquireInfo? || pc.ReclaimRegister? || pc.ReclaimInfo? || pc.Held? || pc.ReleaseInfo? || pc.ReleaseUnlock?
    || pc.RetireDrop? || pc.ProbeClear? || pc.ProbeDrop? || pc.SweepClear? || pc.SweepRelease?
    || pc.GuardSave? || pc.Guarding? || pc.GuardRemove? || pc.GuardDropSave? || pc.GuardDropLease?
  }

  predicate HoldsSave(pc: Pc) {
    pc.SweepDrop? || pc.Guarding? || pc.GuardRemove? || pc.GuardDropSave? || pc.Saving?
  }

  predicate HasId(pc: Pc) {
    || pc.AcquireLock? || pc.AcquireUndo? || pc.AcquireInfo? || pc.ReclaimInfo? || pc.Held?
    || pc.ReleaseInfo? || pc.ReleaseUnlock? || pc.ReleaseEntry?
  }

  /** The handles an operation has are those of the place it is in. */
  predicate Fits(op: Operation) {
    op.lease == HoldsLease(op.pc) && op.save == HoldsSave(op.pc) && op.id.Some? == HasId(op.pc)
  }

  predicate IsLease(op: Operation) {
    op.lease && op.id.Some?
  }

  // ---------------------------------------------------------------- accesses

  /** What one access may do: change its own operation, and each shared table only as the
      operation's handles allow. */
  predicate Access(w: World, w': World, a: Actor) {
    && a in w.ops && a in w'.ops && w'.ops == w.ops[a := w'.ops[a]]
    && var op, op' := w.ops[a], w'.ops[a];
       && op'.proc == op.proc && op'.path == op.path && Fits(op')
       && LockMoves(w.leaseLocks, w'.leaseLocks, a, op.path, op.lease, op'.lease)
       && LockMoves(w.saveLocks, w'.saveLocks, a, op.path, op.save, op'.save)
       && EntryMoves(w, w', op, op') && InfoMoves(w, w', op, op')
  }

  predicate LockMoves(locks: map<Path, Actor>, locks': map<Path, Actor>, a: Actor, path: Path, held: bool,
          held': bool)
  {
    if held == held' then locks' == locks
    else if held' then path !in locks && locks' == locks[path := a]
    else locks' == locks - {path}
  }

  /** Entering takes a fresh id and overwrites an entry only in a reclaim, which has the
      lease lock in hand;
      leaving deletes no entry but the operation's own. */
  predicate EntryMoves(w: World, w': World, op: Operation, op': Operation) {
    var key := Key(op.proc, op.path);
    if op'.id == op.id then w'.registry == w.registry && w.seqNo <= w'.seqNo
    else if op'.id.Some? then
      op.id.None? && op'.id.value == w.seqNo && w'.seqNo == w.seqNo + 1 && w'.registry == w.registry[key := w.seqNo]
      && (op.pc.ReclaimRegister? || key !in w.registry)
    else w'.seqNo == w.seqNo && !op.lease && op.id.Some? && w'.registry == WithoutOwn(w.registry, key, op.id.value)
  }

  /** The info file is written and removed only under the lease lock. */
  predicate InfoMoves(w: World, w': World, op: Operation, op': Operation) {
    && (w'.infos == w.infos || (op.lease && w'.infos == w.infos[op.path := InfoOf(w', op.path)]))
    && (op'.pc.Held? ==> op.lease && InfoOf(w', op.path) == Names(op.proc))
  }

  function Set(w: World, a: Actor, op: Operation): World {
    w.(ops := w.ops[a := op])
  }

  function Move(w: World, a: Actor, pc: Pc): (w': World)
    requires a in w.ops && Fits(w.ops[a].(pc := pc)) && !pc.Held?
    ensures Access(w, w', a)
  {
    Set(w, a, w.ops[a].(pc := pc))
  }

  function TakeLease(w: World, a: Actor, pc: Pc): (w': World)
    requires a in w.ops
    requires w.ops[a].path !in w.leaseLocks
    requires !w.ops[a].lease
    requires Fits(w.ops[a].(lease := true, pc := pc))
    requires !pc.Held?
    ensures Access(w, w', a)
  {
    Set(w, a, w.ops[a].(pc := pc, lease := true)).(leaseLocks := w.leaseLocks[w.ops[a].path := a])
  }

  function DropLease(w: World, a: Actor, pc: Pc): (w': World)
    requires a in w.ops && w.ops[a].lease && Fits(w.ops[a].(lease := false, pc := pc))
    ensures Access(w, w', a)
  {
    Set(w, a, w.ops[a].(pc := pc, lease := false)).(leaseLocks := w.leaseLocks - {w.ops[a].path})
  }

  function TakeSave(w: World, a: Actor, pc: Pc): (w': World)
    requires a in w.ops && w.ops[a].path !in w.saveLocks && !w.ops[a].save && Fits(w.ops[a].(save := true, pc := pc))
    ensures Access(w, w', a)
  {
    Set(w, a, w.ops[a].(pc := pc, save := true)).(saveLocks := w.saveLocks[w.ops[a].path := a])
  }

  function DropSave(w: World, a: Actor, pc: Pc): (w': World)
    requires a in w.ops && w.ops[a].save && Fits(w.ops[a].(save := false, pc := pc)) && !pc.Held?
    ensures Access(w, w', a)
  {
    Set(w, a, w.ops[a].(pc := pc, save := false)).(saveLocks := w.saveLocks - {w.ops[a].path})
  }

  function RemoveInfo(w: World, a: Actor, pc: Pc): (w': World)
    requires a in w.ops && w.ops[a].lease && Fits(w.ops[a].(pc := pc)) && !pc.Held?
    ensures Access(w, w', a)
  {
    Set(w, a, w.ops[a].(pc := pc)).(infos := w.infos[w.ops[a].path := Missing])
  }

  function SaveInfo(w: World, a: Actor, pc: Pc): (w': World)
    requires a in w.ops && w.ops[a].lease && Fits(w.ops[a].(pc := pc))
    ensures Access(w, w', a)
  {
    Set(w, a, w.ops[a].(pc := pc)).(infos := w.infos[w.ops[a].path := Names(w.ops[a].proc)])
  }

  /** LoadOrStore of a free key, or Store with the lock in hand. */
  function Enter(w: World, a: Actor, pc: Pc): (w': World)
    requires a in w.ops && w.ops[a].id.None? && Fits(w.ops[a].(id := Some(w.seqNo), pc := pc)) && !pc.Held?
    requires w.ops[a].pc.ReclaimRegister? || Key(w.ops[a].proc, w.ops[a].path) !in w.registry
    ensures Access(w, w', a)
  {
    Set(w, a, w.ops[a].(pc := pc, id := Some(w.seqNo)))
        .(registry := w.registry[Key(w.ops[a].proc, w.ops[a].path) := w.seqNo], seqNo := w.seqNo + 1)
  }

  /** CompareAndDelete of the operation's own id. */
  function Leave(w: World, a: Actor, pc: Pc): (w': World)
    requires a in w.ops && w.ops[a].id.Some? && !w.ops[a].lease && Fits(w.ops[a].(id := None, pc := pc))
    ensures Access(w, w', a)
  {
    Set(w, a, w.ops[a].(pc := pc, id := None))
        .(registry := WithoutOwn(w.registry, Key(w.ops[a].proc, w.ops[a].path), w.ops[a].id.value))
  }

  /** LoadOrStore of a taken key: only the sequence number advances. */
  function Refused(w: World, a: Actor): (w': World)
    requires a in w.ops && w.ops[a].pc.Register? && Fits(w.ops[a])
    ensures Access(w, w', a)
  {
    Set(w, a, w.ops[a].(pc := Gone)).(seqNo := w.seqNo + 1)
  }

  /** TryAcquireSessionLease and TryReclaimCurrentProcessSessionLease; ok says whether the
      lock file can be opened or the info file written. */
  function AcquireStep(w: World, a: Actor, ok: bool): (w': World)
    requires a in w.ops && Fits(w.ops[a])
    ensures w' == w || Access(w, w', a)
  {
    var op := w.ops[a];
    var free, info := ok && op.path !in w.leaseLocks, InfoOf(w, op.path);
    match op.pc
    case Register => if Key(op.proc, op.path) in w.registry then Refused(w, a) else Enter(w, a, AcquireLock)
    case AcquireLock => if free then TakeLease(w, a, AcquireInfo) else Move(w, a, AcquireUndo)
    case AcquireUndo => Leave(w, a, Gone)
    case AcquireInfo => if ok then SaveInfo(w, a, Held) else Move(w, a, ReleaseInfo)
    case ReclaimInspect => Move(w, a, if info.Names? && info.proc != op.proc then Gone else ReclaimLock)
    case ReclaimLock => if free then TakeLease(w, a, ReclaimRegister) else Move(w, a, Gone)
    case ReclaimRegister => Enter(w, a, ReclaimInfo)
    case ReclaimInfo => if ok then SaveInfo(w, a, Held) else Move(w, a, ReleaseInfo)
    case _ => w
  }

  /** SessionLease.Release, and the lease lock's sidecar that it retires. */
  function ReleaseStep(w: World, a: Actor, ok: bool): (w': World)
    requires a in w.ops && Fits(w.ops[a])
    ensures w' == w || Access(w, w', a)
  {
    var op := w.ops[a];
    match op.pc
    case Held => Move(w, a, ReleaseInfo)
    case ReleaseInfo => RemoveInfo(w, a, ReleaseUnlock)
    case ReleaseUnlock => DropLease(w, a, ReleaseEntry)
    case ReleaseEntry => Leave(w, a, RetireCheck)
    case RetireCheck => Move(w, a, if Key(op.proc, op.path) in w.registry then SweepInspect else RetireLock)
    case RetireLock => if ok && op.path !in w.leaseLocks then TakeLease(w, a, RetireDrop) else Move(w, a, SweepInspect)
    case RetireDrop => DropLease(w, a, SweepInspect)
    case _ => w
  }

  /** The save lock's sidecar, retired only if nobody holds the lease. */
  function SweepStep(w: World, a: Actor, ok: bool): (w': World)
    requires a in w.ops && Fits(w.ops[a])
    ensures w' == w || Access(w, w', a)
  {
    var op := w.ops[a];
    var free, info, local := ok && op.path !in w.leaseLocks, InfoOf(w, op.path), Key(op.proc, op.path) in w.registry;
    match op.pc
    case SweepInspect =>
      Move(w, a, if local then Gone else if info.Missing? || info == Names(op.proc) then SweepLock else SweepProbe)
    case SweepProbe => if free then TakeLease(w, a, SweepClear) else Move(w, a, Gone)
    case SweepClear => RemoveInfo(w, a, SweepRelease)
    case SweepRelease => DropLease(w, a, SweepLock)
    case SweepLock => if ok && op.path !in w.saveLocks then TakeSave(w, a, SweepDrop) else Move(w, a, Gone)
    case SweepDrop => DropSave(w, a, Gone)
    case _ => w
  }

  /** SessionLeaseHeldByOtherRuntime. */
  function ProbeStep(w: World, a: Actor, ok: bool): (w': World)
    requires a in w.ops && Fits(w.ops[a])
    ensures w' == w || Access(w, w', a)
  {
    var op := w.ops[a];
    var info, local := InfoOf(w, op.path), Key(op.proc, op.path) in w.registry;
    match op.pc
    case ProbeInspect => Move(w, a, if local || info.Missing? || info == Names(op.proc) then Gone else ProbeLock)
    case ProbeLock => if ok && op.path !in w.leaseLocks then TakeLease(w, a, ProbeClear) else Move(w, a, Gone)
    case ProbeClear => RemoveInfo(w, a, ProbeDrop)
    case ProbeDrop => DropLease(w, a, Gone)
    case _ => w
  }

  /** The removal guard, and a save. A guard ends by removing sidecars or, with ok false,
      by plain release. */
  function GuardStep(w: World, a: Actor, ok: bool): (w': World)
    requires a in w.ops && Fits(w.ops[a])
    ensures w' == w || Access(w, w', a)
  {
    var op := w.ops[a];
    var leaseFree, saveFree := ok && op.path !in w.leaseLocks, ok && op.path !in w.saveLocks;
    match op.pc
    case GuardCheck => Move(w, a, if Key(op.proc, op.path) in w.registry then Gone else GuardLease)
    case GuardLease => if leaseFree then TakeLease(w, a, GuardSave) else Move(w, a, Gone)
    case GuardSave => if saveFree then TakeSave(w, a, Guarding) else Move(w, a, GuardDropLease)
    case Guarding => Move(w, a, if ok then GuardRemove else GuardDropSave)
    case GuardRemove => RemoveInfo(w, a, GuardDropSave)
    case GuardDropSave => DropSave(w, a, GuardDropLease)
    case GuardDropLease => DropLease(w, a, Gone)
    case SaveLock => if saveFree then TakeSave(w, a, Saving) else if ok then w else Move(w, a, Gone)
    case Saving => DropSave(w, a, Gone)
    case _ => w
  }

  predicate Acquires(pc: Pc) {
    || pc.Register? || pc.AcquireLock? || pc.AcquireUndo? || pc.AcquireInfo?
    || pc.ReclaimInspect? || pc.ReclaimLock? || pc.ReclaimRegister? || pc.ReclaimInfo?
  }

  predicate Releases(pc: Pc) {
    || pc.Held? || pc.ReleaseInfo? || pc.ReleaseUnlock? || pc.ReleaseEntry?
    || pc.RetireCheck? || pc.RetireLock? || pc.RetireDrop?
  }

  predicate Probes(pc: Pc) {
    pc.ProbeInspect? || pc.ProbeLock? || pc.ProbeClear? || pc.ProbeDrop?
  }

  predicate Sweeps(pc: Pc) {
    pc.SweepInspect? || pc.SweepProbe? || pc.SweepClear? || pc.SweepRelease? || pc.SweepLock? || pc.SweepDrop?
  }

  /** One access by operation a. */
  function Step(w: World, a: Actor, ok: bool): (w': World)
    requires a in w.ops && Fits(w.ops[a])
    ensures w' == w || Access(w, w', a)
  {
    var pc := w.ops[a].pc;
    if Acquires(pc) then AcquireStep(w, a, ok)
    else if Releases(pc) then ReleaseStep(w, a, ok)
    else if Probes(pc) then ProbeStep(w, a, ok)
    else if Sweeps(pc) then SweepStep(w, a, ok)
    else GuardStep(w, a, ok)
  }

  predicate Initial(pc: Pc) {
    pc.Register? || pc.ReclaimInspect? || pc.ProbeInspect? || pc.GuardCheck? || pc.SaveLock?
  }

  /** Operations begin, advance, and may vanish: a process dies with all it holds, or a
      lease is dropped unreleased and only its file handle is closed. */
  datatype Event =
    | Begin(actor: Actor, proc: Proc, path: Path, pc: Pc)
    | Advance(actor: Actor, ok: bool)
    | Crash(proc: Proc)
    | Orphan(actor: Actor)

  function Orphaned(w: World, a: Actor): World
    requires a in w.ops
  {
    Set(w, a, w.ops[a].(pc := Gone, lease := false, id := None)).(leaseLocks := w.leaseLocks - {w.ops[a].path})
  }

  function NotOf(w: World, locks: map<Path, Actor>, proc: Proc): map<Path, Actor> {
    map p | p in locks && !(locks[p] in w.ops && w.ops[locks[p]].proc == proc) :: locks[p]
  }

  predicate AllFit(w: World) {
    forall a :: a in w.ops ==> Fits(w.ops[a])
  }

  function Apply(w: World, e: Event): (w': World)
    requires AllFit(w)
    ensures AllFit(w')
  {
    match e
    case Begin(a, proc, path, pc) =>
      if a in w.ops || !Initial(pc) then w else Set(w, a, Operation(proc, path, pc, false, false, None))
    case Advance(a, ok) =>
      if a in w.ops then Step(w, a, ok) else w
    case Crash(proc) =>
      World(map a | a in w.ops && w.ops[a].proc != proc :: w.ops[a],
            map k | k in w.registry && k.proc != proc :: w.registry[k],
            NotOf(w, w.leaseLocks, proc), NotOf(w, w.saveLocks, proc), w.infos, w.seqNo)
    case Orphan(a) =>
      if a in w.ops && w.ops[a].pc.Held? then Orphaned(w, a) else w
  }

  function Run(w: World, events: seq<Event>): (w': World)
    requires AllFit(w)
    ensures AllFit(w')
  {
    if events == [] then w else Apply(Run(w, events[..|events| - 1]), events[|events| - 1])
  }
}
