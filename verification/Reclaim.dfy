/**
 * Boot/reclaim exclusion: VM boots against disk-reclaim passes (src/reclaim.rs).
 *
 * The protocol is a labelled state machine whose steps are the source's atomic
 * actions: one atomic load or store, one lock operation, one file operation.
 * Any number of boots run against one single-flighted pass and the script that
 * pass launches; the script is an environment that keeps the contract stated in
 * the module documentation of the source.
 */
module Reclaim {

  type Disk = nat
  type BootId = nat

  /** What stays fixed over a run: whether the deployed script takes per-disk
      locks, whether a run dir is configured, and the sandboxes whose id may be
      pasted into a lock path (none without a run dir). */
  datatype Config = Config(honours: bool, runDir: bool, lockable: set<Disk>)

  datatype Permit = DiskLock | GateRead

  datatype Side = OnDisk | OnGate

  /** Why a parked boot stops waiting; it is still counted while it does. */
  datatype Outcome = TakesDisk | TakesGate | RetriesOnGate | GivesUp

  /** Where a boot stands in `acquire`. */
  datatype BootPc =
    | Arrived               // about to read the latch
    | Opening               // read it as per-disk: about to open and try the lock file
    | Contended(side: Side) // about to raise the waiter count
    | Notifying(side: Side) // between raising the count and notifying
    | Polling               // parked on the disk lock
    | Trying                // about to try the gate
    | Queueing              // about to queue on the gate
    | Parked                // queued on the gate
    | Leaving(why: Outcome) // about to lower the waiter count
    | Held(permit: Permit)
    | Gone

  datatype Boot = Boot(disk: Disk, pc: BootPc)

  datatype Waiter = Reader(boot: BootId) | Writer

  datatype Owner = ByBoot(boot: BootId) | ByScript

  /** Where the pass stands in `run_once`. */
  datatype PassPc =
    | Idle | Queued | Entered | Cleared | Ready | FirstRead
    | Asking                // has decided to yield: about to write the stop file
    | Watching | Woken | Reaped | Finishing | Releasing

  datatype Work = Between | Locked(disk: Disk) | Piping(disk: Disk)

  datatype Script =
    | Off
    | Launched
    | Listed(disks: set<Disk>)
    | Walking(disks: set<Disk>, snapshot: set<Disk>, work: Work)
    | Exited

  /** The latch PER_DISK, and whether the lock marker names the protocol this pooler speaks. */
  datatype Mode = Mode(latch: bool, marker: bool)

  /** The stop file, and whether it was there before the first pass. */
  datatype Stop = Stop(file: bool, leftover: bool)

  /** BOOTS_WAITING, and whether a notification is stored. */
  datatype Bell = Bell(waiting: nat, permit: bool)

  datatype Gate = Gate(readers: set<BootId>, writer: bool, queue: seq<Waiter>)

  datatype Pass = Pass(pc: PassPc, launched: bool, yielding: bool)

  /** The disks there are, and those a running VM holds open. */
  datatype World = World(existing: set<Disk>, open: set<Disk>)

  datatype State = State(
    mode: Mode,
    stop: Stop,
    bell: Bell,
    gate: Gate,
    locks: map<Disk, Owner>,
    boots: map<BootId, Boot>,
    pass: Pass,
    script: Script,
    world: World)

  datatype BootAct =
    | Arrive(disk: Disk)
    | ChooseDisk | ChooseGate
    | TakeLock | FindLockHeld | FindLockBroken
    | Count | Notify
    | PollTake | PollHeld | PollBroken | PollGiveUp
    | ReadGate | MissGate
    | Enqueue | Grant | LeaveQueue | DropGrant
    | Uncount
    | StartVm | ReleaseDisk | ReleaseRead

  datatype PassAct =
    | Begin | GrantWrite | ClearBefore | RemoveMarker | Launch | FailLaunch
    | Yield | AskToStop(wrote: bool) | KeepGoing | Wake | Reap | ClearAfter | Relatch | KeepLatch | ReleaseGate

  datatype ScriptAct =
    | List | Snapshot | LockDisk(disk: Disk) | FindInUse | FindFree | EnterBare(disk: Disk)
    | LeaveLocked | LeaveBare | Exit

  datatype Label =
    | ByBootStep(boot: BootId, act: BootAct)
    | ByPassStep(passAct: PassAct)
    | ByScriptStep(scriptAct: ScriptAct)
    | VmStop(disk: Disk)
    | VmCreate(disk: Disk)

  // ---- steps ---------------------------------------------------------------

  predicate Counted(pc: BootPc) {
    pc.Notifying? || pc.Polling? || pc.Queueing? || pc.Parked? || pc.Leaving?
  }

  predicate HoldsDisk(pc: BootPc) { pc == Leaving(TakesDisk) || pc == Held(DiskLock) }

  predicate HoldsGate(pc: BootPc) { pc == Leaving(TakesGate) || pc == Held(GateRead) }

  predicate HoldsPermit(pc: BootPc) { HoldsDisk(pc) || HoldsGate(pc) }

  /** The boot is in the per-disk arm of `acquire`. */
  predicate InDiskArm(pc: BootPc) {
    pc.Opening? || pc == Contended(OnDisk) || pc == Notifying(OnDisk) || pc.Polling? || HoldsDisk(pc)
  }

  function AfterNotify(side: Side): BootPc { if side == OnDisk then Polling else Queueing }

  function AfterUncount(why: Outcome): BootPc {
    match why
    case TakesDisk => Held(DiskLock)
    case TakesGate => Held(GateRead)
    case RetriesOnGate => Trying
    case GivesUp => Gone
  }

  function At(s: State, b: BootId, pc: BootPc): State
    requires b in s.boots
  {
    s.(boots := s.boots[b := s.boots[b].(pc := pc)])
  }

  /** The queue once `w` has left it. */
  function Leave(q: seq<Waiter>, w: Waiter): (r: seq<Waiter>)
    ensures forall x :: x in r <==> x in q && x != w
  {
    if q == [] then [] else
      var rest := Leave(q[1..], w);
      if q[0] == w then rest else [q[0]] + rest
  }

  /** tokio's RwLock is fair: a queued writer already fails `try_read`. */
  predicate GateOpen(s: State) { !s.gate.writer && Writer !in s.gate.queue }

  predicate BootEnabled(c: Config, s: State, b: BootId, act: BootAct) {
    if act.Arrive? then b !in s.boots && act.disk in s.world.existing
    else
      && b in s.boots
      && var pc, d := s.boots[b].pc, s.boots[b].disk;
         match act
         case ChooseDisk => pc == Arrived && s.mode.latch && d in c.lockable
         case ChooseGate => pc == Arrived && !(s.mode.latch && d in c.lockable)
         case TakeLock => pc == Opening && d !in s.locks
         case FindLockHeld => pc == Opening && d in s.locks
         case FindLockBroken => pc == Opening
         case Count => pc.Contended?
         case Notify => pc.Notifying?
         case PollTake => pc == Polling && d !in s.locks
         case PollHeld => pc == Polling && d in s.locks
         case PollBroken => pc == Polling
         case PollGiveUp => pc == Polling
         case ReadGate => pc == Trying && GateOpen(s)
         case MissGate => pc == Trying && !GateOpen(s)
         case Enqueue => pc == Queueing
         case Grant => pc == Parked && !s.gate.writer && |s.gate.queue| > 0 && s.gate.queue[0] == Reader(b)
         case LeaveQueue => pc == Parked
         case DropGrant => pc == Leaving(TakesGate)
         case Uncount => pc.Leaving? && s.bell.waiting > 0
         case StartVm => pc.Held?
         case ReleaseDisk => pc == Held(DiskLock)
         case ReleaseRead => pc == Held(GateRead)
         case Arrive(_) => false
  }

  function BootApply(c: Config, s: State, b: BootId, act: BootAct): (s': State)
    requires BootEnabled(c, s, b, act)
    ensures b in s'.boots && s'.boots == s.boots[b := s'.boots[b]]
    ensures !act.Arrive? ==> s'.boots[b].disk == s.boots[b].disk
  {
    if act.Arrive? then s.(boots := s.boots[b := Boot(act.disk, Arrived)])
    else
      var pc, d := s.boots[b].pc, s.boots[b].disk;
      match act
      case ChooseDisk => At(s, b, Opening)
      case ChooseGate => At(s, b, Trying)
      case TakeLock => At(s, b, Held(DiskLock)).(locks := s.locks[d := ByBoot(b)])
      case FindLockHeld => At(s, b, Contended(OnDisk))
      case FindLockBroken => At(s, b, Trying)
      case Count => At(s, b, Notifying(pc.side)).(bell := s.bell.(waiting := s.bell.waiting + 1))
      case Notify => At(s, b, AfterNotify(pc.side)).(bell := s.bell.(permit := true))
      case PollTake => At(s, b, Leaving(TakesDisk)).(locks := s.locks[d := ByBoot(b)])
      case PollHeld => s
      case PollBroken => At(s, b, Leaving(RetriesOnGate))
      case PollGiveUp => At(s, b, Leaving(GivesUp))
      case ReadGate => At(s, b, Held(GateRead)).(gate := s.gate.(readers := s.gate.readers + {b}))
      case MissGate => At(s, b, Contended(OnGate))
      case Enqueue => At(s, b, Parked).(gate := s.gate.(queue := s.gate.queue + [Reader(b)]))
      case Grant =>
        At(s, b, Leaving(TakesGate)).(
          gate := s.gate.(readers := s.gate.readers + {b}, queue := Leave(s.gate.queue, Reader(b))))
      case LeaveQueue => At(s, b, Leaving(GivesUp)).(gate := s.gate.(queue := Leave(s.gate.queue, Reader(b))))
      case DropGrant => At(s, b, Leaving(GivesUp)).(gate := s.gate.(readers := s.gate.readers - {b}))
      case Uncount => At(s, b, AfterUncount(pc.why)).(bell := s.bell.(waiting := s.bell.waiting - 1))
      case StartVm => s.(world := s.world.(open := s.world.open + {d}))
      case ReleaseDisk => At(s, b, Gone).(locks := s.locks - {d})
      case ReleaseRead => At(s, b, Gone).(gate := s.gate.(readers := s.gate.readers - {b}))
      case Arrive(_) => s
  }

  predicate PassEnabled(c: Config, s: State, act: PassAct) {
    match act
    case Begin => s.pass.pc == Idle
    case GrantWrite =>
      s.pass.pc == Queued && !s.gate.writer && s.gate.readers == {} && |s.gate.queue| > 0 && s.gate.queue[0] == Writer
    case ClearBefore => s.pass.pc == Entered
    case RemoveMarker => s.pass.pc == Cleared
    case Launch => s.pass.pc == Ready
    case FailLaunch => s.pass.pc == Ready
    // The first read of the count, and every re-read after a wakeup.
    case Yield => (s.pass.pc == FirstRead || s.pass.pc == Woken) && s.bell.waiting > 0
    case AskToStop(_) => s.pass.pc == Asking
    case KeepGoing => (s.pass.pc == FirstRead || s.pass.pc == Woken) && s.bell.waiting == 0
    case Wake => s.pass.pc == Watching && !s.pass.yielding && s.bell.permit
    case Reap => s.pass.pc == Watching && (s.script == Exited || !s.pass.launched)
    case ClearAfter => s.pass.pc == Reaped
    case Relatch => s.pass.pc == Finishing && c.runDir && s.pass.launched
    case KeepLatch => s.pass.pc == Finishing && !(c.runDir && s.pass.launched)
    case ReleaseGate => s.pass.pc == Releasing
  }

  function PassApply(c: Config, s: State, act: PassAct): State {
    match act
    case Begin => s.(pass := s.pass.(pc := Queued), gate := s.gate.(queue := s.gate.queue + [Writer]))
    case GrantWrite =>
      s.(pass := s.pass.(pc := Entered), gate := s.gate.(writer := true, queue := Leave(s.gate.queue, Writer)))
    case ClearBefore => s.(pass := s.pass.(pc := Cleared), stop := s.stop.(file := false, leftover := false))
    case RemoveMarker => s.(pass := s.pass.(pc := Ready), mode := s.mode.(marker := false))
    case Launch => s.(script := Launched, pass := s.pass.(pc := FirstRead, launched := true))
    case FailLaunch => s.(pass := s.pass.(pc := FirstRead, launched := false))
    case Yield => s.(pass := s.pass.(pc := Asking, yielding := true))
    case AskToStop(wrote) =>
      s.(pass := s.pass.(pc := Watching), stop := s.stop.(file := s.stop.file || (c.runDir && wrote)))
    case KeepGoing => s.(pass := s.pass.(pc := Watching))
    case Wake => s.(pass := s.pass.(pc := Woken), bell := s.bell.(permit := false))
    case Reap => s.(script := Off, pass := s.pass.(pc := Reaped))
    case ClearAfter => s.(pass := s.pass.(pc := Finishing), stop := s.stop.(file := false, leftover := false))
    case Relatch => s.(pass := s.pass.(pc := Releasing), mode := s.mode.(latch := s.mode.marker))
    case KeepLatch => s.(pass := s.pass.(pc := Releasing))
    case ReleaseGate => s.(pass := s.pass.(pc := Idle, yielding := false), gate := s.gate.(writer := false))
  }

  predicate ScriptEnabled(c: Config, s: State, act: ScriptAct) {
    match act
    case List => s.script == Launched
    case Snapshot => s.script.Listed?
    case LockDisk(d) =>
      c.honours && s.script.Walking? && s.script.work == Between && d in s.script.disks && d !in s.locks
    case FindInUse =>
      && s.script.Walking? && s.script.work.Locked?
      && (s.script.work.disk in s.script.snapshot || s.script.work.disk in s.world.open)
    case FindFree =>
      && s.script.Walking? && s.script.work.Locked?
      && s.script.work.disk !in s.script.snapshot && s.script.work.disk !in s.world.open
    case EnterBare(d) =>
      && !c.honours && s.script.Walking? && s.script.work == Between
      && d in s.script.disks && d !in s.script.snapshot
    case LeaveLocked => c.honours && s.script.Walking? && s.script.work.Piping?
    case LeaveBare => !c.honours && s.script.Walking? && s.script.work.Piping?
    case Exit => s.script == Launched || s.script.Listed? || (s.script.Walking? && s.script.work == Between)
  }

  function ScriptApply(c: Config, s: State, act: ScriptAct): State
    requires ScriptEnabled(c, s, act)
  {
    match act
    // A script that takes locks declares it at the start of every pass.
    case List => s.(script := Listed(s.world.existing), mode := s.mode.(marker := s.mode.marker || c.honours))
    case Snapshot => s.(script := Walking(s.script.disks, s.world.open, Between))
    case LockDisk(d) => s.(script := s.script.(work := Locked(d)), locks := s.locks[d := ByScript])
    case FindInUse =>
      s.(script := s.script.(work := Between), locks := s.locks - {s.script.work.disk})
    case FindFree => s.(script := s.script.(work := Piping(s.script.work.disk)))
    case EnterBare(d) => s.(script := s.script.(work := Piping(d)))
    case LeaveLocked =>
      s.(script := s.script.(work := Between), locks := s.locks - {s.script.work.disk})
    case LeaveBare => s.(script := s.script.(work := Between))
    case Exit => s.(script := Exited)
  }

  predicate Enabled(c: Config, s: State, l: Label) {
    match l
    case ByBootStep(b, act) => BootEnabled(c, s, b, act)
    case ByPassStep(act) => PassEnabled(c, s, act)
    case ByScriptStep(act) => ScriptEnabled(c, s, act)
    case VmStop(d) => d in s.world.open
    // A freshly created disk needs no permit: no pass has listed it.
    case VmCreate(d) => d !in s.world.existing
  }

  function Apply(c: Config, s: State, l: Label): State
    requires Enabled(c, s, l)
  {
    match l
    case ByBootStep(b, act) => BootApply(c, s, b, act)
    case ByPassStep(act) => PassApply(c, s, act)
    case ByScriptStep(act) => ScriptApply(c, s, act)
    case VmStop(d) => s.(world := s.world.(open := s.world.open - {d}))
    case VmCreate(d) => s.(world := s.world.(existing := s.world.existing + {d}, open := s.world.open + {d}))
  }

  /** A pooler that has just started: nothing in flight but running VMs. */
  predicate Init(c: Config, s: State) {
    && s.boots == map[] && s.locks == map[] && s.gate.readers == {} && !s.gate.writer && s.gate.queue == []
    && s.bell.waiting == 0 && s.pass.pc == Idle && s.script == Off && !s.pass.yielding
    && s.world.open <= s.world.existing
    && s.stop.leftover == s.stop.file
    && (!c.runDir ==> c.lockable == {})
  }

  /** `trace` is the states a pooler goes through taking `labels` in order. */
  ghost predicate IsRun(c: Config, trace: seq<State>, labels: seq<Label>) {
    && |trace| == |labels| + 1
    && Init(c, trace[0])
    && forall i :: 0 <= i < |labels| ==>
         Enabled(c, trace[i], labels[i]) && trace[i + 1] == Apply(c, trace[i], labels[i])
  }

  // ---- what must hold --------------------------------------------------------

  predicate Inside(s: State, d: Disk) { s.script.Walking? && s.script.work == Piping(d) }

  /** Exclusion: whatever disk the script is working on, no boot holds a permit
      for it and no running VM has it open. */
  ghost predicate Excluded(s: State) {
    forall d :: Inside(s, d) ==>
      && d !in s.world.open
      && forall b :: b in s.boots && HoldsPermit(s.boots[b].pc) ==> s.boots[b].disk != d
  }

  // ---- invariant -----------------------------------------------------------

  /** Who is where: the boots by what they have registered or taken. */
  datatype Shape = Shape(
    counted: set<BootId>,
    notifying: set<BootId>,
    reading: set<BootId>,
    parked: set<BootId>,
    locking: set<(BootId, Disk)>)

  ghost function ShapeOf(boots: map<BootId, Boot>): Shape {
    Shape(set b | b in boots && Counted(boots[b].pc),
          set b | b in boots && boots[b].pc.Notifying?,
          set b | b in boots && HoldsGate(boots[b].pc),
          set b | b in boots && boots[b].pc == Parked,
          set b | b in boots && HoldsDisk(boots[b].pc) :: (b, boots[b].disk))
  }

  ghost function Put<T>(s: set<T>, x: T, member: bool): set<T> { if member then s + {x} else s - {x} }

  /** The shape once boot `b` stands as `boot`. */
  ghost function Moved(shape: Shape, b: BootId, boot: Boot): Shape {
    Shape(Put(shape.counted, b, Counted(boot.pc)),
          Put(shape.notifying, b, boot.pc.Notifying?),
          Put(shape.reading, b, HoldsGate(boot.pc)),
          Put(shape.parked, b, boot.pc == Parked),
          Put(shape.locking, (b, boot.disk), HoldsDisk(boot.pc)))
  }

  ghost predicate Stands(shape: Shape, b: BootId, boot: Boot) { Moved(shape, b, boot) == shape }

  predicate InPass(p: PassPc) { p != Idle && p != Queued }

  ghost predicate GateInv(readers: set<BootId>, writer: bool, queue: seq<Waiter>,
                          reading: set<BootId>, parked: set<BootId>, pass: PassPc)
  {
    && (writer <==> InPass(pass))
    && (writer ==> readers == {})
    && readers == reading
    && (forall b :: Reader(b) in queue <==> b in parked)
    && (Writer in queue <==> pass == Queued)
  }

  /** The script's claim on a disk lock, if it has one. */
  function ScriptLock(c: Config, script: Script): set<Disk> {
    if c.honours && script.Walking? && script.work != Between then {script.work.disk} else {}
  }

  ghost predicate LockInv(locks: map<Disk, Owner>, locking: set<(BootId, Disk)>, byScript: set<Disk>) {
    && (forall b: BootId, d: Disk :: (b, d) in locking <==> d in locks && locks[d] == ByBoot(b))
    && (forall d :: d in byScript <==> d in locks && locks[d] == ByScript)
  }

  ghost predicate ScriptInv(c: Config, pass: PassPc, launched: bool, script: Script, existing: set<Disk>) {
    && (script != Off ==> pass in {FirstRead, Asking, Watching, Woken} && launched)
    && (script.Listed? || script.Walking? ==> script.disks <= existing)
    && (script.Walking? && script.work != Between ==> script.work.disk in script.disks)
    && (script.Walking? && script.work.Locked? ==> c.honours)
  }

  /** The stop file belongs to the pass that is running and has yielded. */
  predicate StopOwned(stopFile: bool, leftover: bool, pass: PassPc, yielding: bool) {
    stopFile ==>
      || (leftover && (pass == Idle || pass == Queued || pass == Entered))
      || ((pass == Watching || pass == Woken || pass == Reaped) && yielding)
  }

  ghost predicate Fits(c: Config, s: State, shape: Shape) {
    && GateInv(s.gate.readers, s.gate.writer, s.gate.queue, shape.reading, shape.parked, s.pass.pc)
    && LockInv(s.locks, shape.locking, ScriptLock(c, s.script))
    && s.bell.waiting == |shape.counted|
    && s.world.open <= s.world.existing
    && ScriptInv(c, s.pass.pc, s.pass.launched, s.script, s.world.existing)
    && StopOwned(s.stop.file, s.stop.leftover, s.pass.pc, s.pass.yielding)
    && (s.pass.yielding ==> s.pass.pc in {Asking, Watching, Reaped, Finishing, Releasing})
    && (s.pass.pc == Asking ==> s.pass.yielding)
    && (s.pass.pc == Watching && !s.pass.yielding && s.bell.waiting > 0 ==> s.bell.permit || shape.notifying != {})
  }

  ghost predicate BootsExist(boots: map<BootId, Boot>, existing: set<Disk>) {
    forall b :: b in boots ==> boots[b].disk in existing
  }

  /** Holds of every run, whatever the latch said at the start. */
  ghost predicate Inv(c: Config, s: State) {
    Fits(c, s, ShapeOf(s.boots)) && BootsExist(s.boots, s.world.existing)
  }

  lemma ShapeMoved(boots: map<BootId, Boot>, b: BootId, boot: Boot)
    requires b in boots ==> boots[b].disk == boot.disk
    ensures ShapeOf(boots[b := boot]) == Moved(ShapeOf(boots), b, boot)
    ensures b in boots ==> Stands(ShapeOf(boots), b, boots[b])
    ensures b !in boots ==> Stands(ShapeOf(boots), b, Boot(boot.disk, Gone))
  {
    var after, now := ShapeOf(boots[b := boot]), Moved(ShapeOf(boots), b, boot);
    assert after.counted == now.counted && after.notifying == now.notifying;
    assert after.reading == now.reading && after.parked == now.parked;
    forall x | x in now.locking ensures x in after.locking {
      if x != (b, boot.disk) {
        assert boots[b := boot][x.0] == boots[x.0];
      }
    }
    assert after.locking == now.locking;
  }

  /** What one boot's step does to the shared books, other boots aside. */
  ghost predicate Booked(s: State, s': State, b: BootId, pc: BootPc, boot: Boot) {
    && s' == s.(boots := s'.boots, locks := s'.locks, gate := s'.gate, bell := s'.bell, world := s'.world)
    && s'.gate.writer == s.gate.writer && s'.world.existing == s.world.existing
    && s'.gate.readers == Put(s.gate.readers, b, HoldsGate(boot.pc))
    && (forall x :: x in s'.gate.queue <==> if x == Reader(b) then boot.pc == Parked else x in s.gate.queue)
    && s'.locks == (if HoldsDisk(boot.pc) then s.locks[boot.disk := ByBoot(b)]
                    else if HoldsDisk(pc) then s.locks - {boot.disk} else s.locks)
    && (HoldsDisk(boot.pc) && !HoldsDisk(pc) ==> boot.disk !in s.locks)
    && s'.bell.waiting - s.bell.waiting == (if Counted(boot.pc) then 1 else 0) - (if Counted(pc) then 1 else 0)
    && (s.gate.writer ==> HoldsGate(boot.pc) ==> HoldsGate(pc))
    && (s'.bell.permit == s.bell.permit || s'.bell.permit)
    && (pc.Notifying? && !boot.pc.Notifying? ==> s'.bell.permit)
    && (Counted(boot.pc) && !Counted(pc) ==> boot.pc.Notifying?)
    && s'.world.open <= s.world.existing
  }

  /** What the books say of a boot standing at `boot`. */
  ghost predicate Known(s: State, b: BootId, boot: Boot) {
    && (b in s.gate.readers <==> HoldsGate(boot.pc))
    && (Reader(b) in s.gate.queue <==> boot.pc == Parked)
    && (HoldsDisk(boot.pc) ==> boot.disk in s.locks && s.locks[boot.disk] == ByBoot(b))
    && (s.gate.writer ==> s.gate.readers == {})
    && s.world.open <= s.world.existing && boot.disk in s.world.existing
  }

  predicate QueueStep(act: BootAct) {
    act.Enqueue? || act.Grant? || act.LeaveQueue?
  }

  lemma QueueStepBooks(c: Config, s: State, b: BootId, act: BootAct, s': State)
    requires BootEnabled(c, s, b, act) && s' == BootApply(c, s, b, act) && QueueStep(act)
    requires Known(s, b, s.boots[b])
    ensures Booked(s, s', b, s.boots[b].pc, s'.boots[b])
  {
  }

  predicate ReadStep(act: BootAct) {
    act.ReadGate? || act.DropGrant? || act.ReleaseRead?
  }

  lemma ReadStepBooks(c: Config, s: State, b: BootId, act: BootAct, s': State)
    requires BootEnabled(c, s, b, act) && s' == BootApply(c, s, b, act) && ReadStep(act)
    requires Known(s, b, s.boots[b])
    ensures Booked(s, s', b, s.boots[b].pc, s'.boots[b])
  {
  }

  predicate BellStep(act: BootAct) {
    act.Count? || act.Notify? || act.Uncount?
  }

  lemma BellStepBooks(c: Config, s: State, b: BootId, act: BootAct, s': State)
    requires BootEnabled(c, s, b, act) && s' == BootApply(c, s, b, act) && BellStep(act)
    requires Known(s, b, s.boots[b])
    ensures Booked(s, s', b, s.boots[b].pc, s'.boots[b])
  {
  }

  predicate LockStep(act: BootAct) {
    act.TakeLock? || act.PollTake? || act.ReleaseDisk?
  }

  lemma LockStepBooks(c: Config, s: State, b: BootId, act: BootAct, s': State)
    requires BootEnabled(c, s, b, act) && s' == BootApply(c, s, b, act) && LockStep(act)
    requires Known(s, b, s.boots[b])
    ensures Booked(s, s', b, s.boots[b].pc, s'.boots[b])
  {
  }

  lemma MoveBooks(c: Config, s: State, b: BootId, act: BootAct, boot: Boot, s': State)
    requires BootEnabled(c, s, b, act) && s' == BootApply(c, s, b, act)
    requires !QueueStep(act) && !ReadStep(act) && !BellStep(act) && !LockStep(act)
    requires boot == if act.Arrive? then Boot(act.disk, Gone) else s.boots[b]
    requires Known(s, b, boot)
    ensures Booked(s, s', b, boot.pc, s'.boots[b])
  {
  }

  lemma BookedLocks(locks: map<Disk, Owner>, locking: set<(BootId, Disk)>, byScript: set<Disk>,
                    b: BootId, boot: Boot, held: bool)
    requires LockInv(locks, locking, byScript) && ((b, boot.disk) in locking <==> held)
    requires HoldsDisk(boot.pc) && !held ==> boot.disk !in locks
    ensures LockInv(if HoldsDisk(boot.pc) then locks[boot.disk := ByBoot(b)]
                    else if held then locks - {boot.disk} else locks,
                    Put(locking, (b, boot.disk), HoldsDisk(boot.pc)), byScript)
  {
  }

  lemma BookedFits(c: Config, s: State, s': State, b: BootId, boot: Boot, pc: BootPc, shape: Shape)
    requires Fits(c, s, shape) && Stands(shape, b, boot.(pc := pc)) && Booked(s, s', b, pc, boot)
    ensures Fits(c, s', Moved(shape, b, boot))
  {
    BookedLocks(s.locks, shape.locking, ScriptLock(c, s.script), b, boot, HoldsDisk(pc));
  }

  lemma FitsKnown(c: Config, s: State, b: BootId, boot: Boot, shape: Shape)
    requires Fits(c, s, shape) && Stands(shape, b, boot) && boot.disk in s.world.existing
    ensures Known(s, b, boot)
  {
  }

  lemma BootKeeps(c: Config, s: State, b: BootId, act: BootAct)
    requires Inv(c, s) && BootEnabled(c, s, b, act)
    ensures Inv(c, BootApply(c, s, b, act))
  {
    hide Fits, ShapeOf, Moved, Booked, Known;
    var s' := BootApply(c, s, b, act);
    var boot := if act.Arrive? then Boot(act.disk, Gone) else s.boots[b];
    var shape := ShapeOf(s.boots);
    ShapeMoved(s.boots, b, s'.boots[b]);
    FitsKnown(c, s, b, boot, shape);
    if QueueStep(act) {
      QueueStepBooks(c, s, b, act, s');
    } else if ReadStep(act) {
      ReadStepBooks(c, s, b, act, s');
    } else if BellStep(act) {
      BellStepBooks(c, s, b, act, s');
    } else if LockStep(act) {
      LockStepBooks(c, s, b, act, s');
    } else {
      MoveBooks(c, s, b, act, boot, s');
    }
    BookedFits(c, s, s', b, s'.boots[b], boot.pc, shape);
  }

  lemma PassKeeps(c: Config, s: State, act: PassAct, shape: Shape)
    requires Fits(c, s, shape) && PassEnabled(c, s, act)
    ensures Fits(c, PassApply(c, s, act), shape)
    ensures PassApply(c, s, act).boots == s.boots && PassApply(c, s, act).world == s.world
  {
  }

  lemma ScriptKeeps(c: Config, s: State, act: ScriptAct, shape: Shape)
    requires Fits(c, s, shape) && ScriptEnabled(c, s, act)
    ensures Fits(c, ScriptApply(c, s, act), shape)
    ensures ScriptApply(c, s, act).boots == s.boots && ScriptApply(c, s, act).world == s.world
  {
  }

  lemma Keeps(c: Config, s: State, l: Label)
    requires Inv(c, s) && Enabled(c, s, l)
    ensures Inv(c, Apply(c, s, l))
  {
    hide BootApply, BootEnabled, PassApply, PassEnabled, ScriptApply, ScriptEnabled, ShapeOf;
    match l
    case ByBootStep(b, act) => BootKeeps(c, s, b, act);
    case ByPassStep(act) => PassKeeps(c, s, act, ShapeOf(s.boots));
    case ByScriptStep(act) => ScriptKeeps(c, s, act, ShapeOf(s.boots));
    case VmStop(d) =>
    case VmCreate(d) =>
  }

  /** The latch, if it can be acted on at all, is true to the deployed script. */
  predicate Truthful(c: Config, latch: bool) { latch && c.lockable != {} ==> c.honours }

  /** The latch, and every boot that acted on it, speak of the deployed script. */
  ghost predicate ModeInv(c: Config, latch: bool, marker: bool, pass: PassPc, boots: map<BootId, Boot>) {
    && Truthful(c, latch)
    && (marker ==> c.honours || pass in {Idle, Queued, Entered, Cleared, Releasing})
    && (forall b :: b in boots && InDiskArm(boots[b].pc) ==> c.honours)
  }

  /** What the script's two in-use checks have established. */
  predicate WalkInv(c: Config, script: Script, open: set<Disk>) {
    script.Walking? ==>
      && (!c.honours ==> open * script.disks <= script.snapshot)
      && (!c.honours && script.work.Piping? ==> script.work.disk !in script.snapshot)
      && (script.work.Piping? ==> script.work.disk !in open)
  }

  ghost predicate SafeInv(c: Config, s: State) {
    ModeInv(c, s.mode.latch, s.mode.marker, s.pass.pc, s.boots) && WalkInv(c, s.script, s.world.open)
  }

  /** A boot that holds a permit for `d` and a script at work on `d` exclude each other. */
  lemma PermitExcludes(c: Config, s: State, b: BootId)
    requires Inv(c, s) && ModeInv(c, s.mode.latch, s.mode.marker, s.pass.pc, s.boots)
    requires b in s.boots && HoldsPermit(s.boots[b].pc)
    ensures HoldsGate(s.boots[b].pc) ==> s.script == Off
    ensures HoldsDisk(s.boots[b].pc) ==> c.honours
    ensures s.script.Walking? && s.script.work != Between ==> s.script.work.disk != s.boots[b].disk
  {
    var shape := ShapeOf(s.boots);
    if HoldsGate(s.boots[b].pc) {
      assert b in shape.reading;
    } else {
      assert (b, s.boots[b].disk) in shape.locking;
    }
  }

  /** A boot gets into the per-disk arm only by reading the latch set. */
  lemma DiskArmEntry(c: Config, s: State, b: BootId, act: BootAct)
    requires BootEnabled(c, s, b, act)
    ensures
      InDiskArm(BootApply(c, s, b, act).boots[b].pc) ==>
        (s.mode.latch && c.lockable != {}) || (b in s.boots && InDiskArm(s.boots[b].pc))
    ensures BootApply(c, s, b, act).mode == s.mode && BootApply(c, s, b, act).pass == s.pass
  {
  }

  lemma ModeKeptByBoot(c: Config, s: State, b: BootId, act: BootAct)
    requires BootEnabled(c, s, b, act)
    requires ModeInv(c, s.mode.latch, s.mode.marker, s.pass.pc, s.boots)
    ensures ModeInv(c, s.mode.latch, s.mode.marker, s.pass.pc, BootApply(c, s, b, act).boots)
    ensures BootApply(c, s, b, act).mode == s.mode && BootApply(c, s, b, act).pass == s.pass
  {
    hide BootApply, BootEnabled, InDiskArm;
    DiskArmEntry(c, s, b, act);
  }

  lemma ModeKeptByPass(c: Config, s: State, act: PassAct)
    requires ModeInv(c, s.mode.latch, s.mode.marker, s.pass.pc, s.boots) && PassEnabled(c, s, act)
    ensures
      var s' := PassApply(c, s, act);
      ModeInv(c, s'.mode.latch, s'.mode.marker, s'.pass.pc, s'.boots)
  {
  }

  lemma ModeKeptByScript(c: Config, s: State, act: ScriptAct)
    requires ModeInv(c, s.mode.latch, s.mode.marker, s.pass.pc, s.boots) && ScriptEnabled(c, s, act)
    ensures
      var s' := ScriptApply(c, s, act);
      ModeInv(c, s'.mode.latch, s'.mode.marker, s'.pass.pc, s'.boots)
  {
  }

  lemma ModeKept(c: Config, s: State, l: Label)
    requires ModeInv(c, s.mode.latch, s.mode.marker, s.pass.pc, s.boots) && Enabled(c, s, l)
    ensures
      var s' := Apply(c, s, l);
      ModeInv(c, s'.mode.latch, s'.mode.marker, s'.pass.pc, s'.boots)
  {
    hide BootApply, BootEnabled, PassApply, PassEnabled, ScriptApply, ScriptEnabled;
    match l
    case ByBootStep(b, act) => ModeKeptByBoot(c, s, b, act);
    case ByPassStep(act) => ModeKeptByPass(c, s, act);
    case ByScriptStep(act) => ModeKeptByScript(c, s, act);
    case VmStop(_) =>
    case VmCreate(_) =>
  }

  /** A boot opens a disk only by starting its VM, and never moves the script. */
  lemma BootOpens(c: Config, s: State, b: BootId, act: BootAct)
    requires BootEnabled(c, s, b, act)
    ensures act.StartVm? ==> b in s.boots
    ensures
      var s' := BootApply(c, s, b, act);
      && s'.script == s.script
      && (s'.world.open == s.world.open
          || (act.StartVm? && s.boots[b].pc.Held? && s'.world.open == s.world.open + {s.boots[b].disk}))
  {
  }

  lemma WalkKeptByBoot(c: Config, s: State, b: BootId, act: BootAct)
    requires Inv(c, s) && SafeInv(c, s) && BootEnabled(c, s, b, act)
    ensures WalkInv(c, BootApply(c, s, b, act).script, BootApply(c, s, b, act).world.open)
  {
    hide GateInv, LockInv, ShapeOf, BootApply, BootEnabled;
    BootOpens(c, s, b, act);
    if act.StartVm? && s.boots[b].pc.Held? {
      var p := s.boots[b].pc.permit;
      assert p == DiskLock || p == GateRead;
      PermitExcludes(c, s, b);
    }
  }

  lemma WalkKeptByScript(c: Config, s: State, act: ScriptAct)
    requires WalkInv(c, s.script, s.world.open) && ScriptEnabled(c, s, act)
    ensures WalkInv(c, ScriptApply(c, s, act).script, ScriptApply(c, s, act).world.open)
  {
  }

  lemma PassLeavesDisks(c: Config, s: State, act: PassAct)
    requires PassEnabled(c, s, act)
    ensures PassApply(c, s, act).world == s.world
    ensures PassApply(c, s, act).script == s.script || !PassApply(c, s, act).script.Walking?
  {
  }

  lemma WalkKept(c: Config, s: State, l: Label)
    requires Inv(c, s) && SafeInv(c, s) && Enabled(c, s, l)
    ensures WalkInv(c, Apply(c, s, l).script, Apply(c, s, l).world.open)
  {
    hide GateInv, LockInv, ShapeOf, BootApply, BootEnabled, PassApply, PassEnabled, ScriptApply, ScriptEnabled;
    match l
    case ByBootStep(b, act) => WalkKeptByBoot(c, s, b, act);
    case ByPassStep(act) => PassLeavesDisks(c, s, act);
    case ByScriptStep(act) => WalkKeptByScript(c, s, act);
    case VmStop(_) =>
    case VmCreate(_) =>
  }

  lemma SafeExcludes(c: Config, s: State)
    requires Inv(c, s) && SafeInv(c, s)
    ensures Excluded(s)
  {
    forall b | b in s.boots && HoldsPermit(s.boots[b].pc)
      ensures s.script.Walking? && s.script.work != Between ==> s.script.work.disk != s.boots[b].disk
    {
      PermitExcludes(c, s, b);
    }
  }

  // ---- theorems ------------------------------------------------------------

  lemma {:induction false} RunKeeps(c: Config, trace: seq<State>, labels: seq<Label>, i: nat)
    requires IsRun(c, trace, labels) && i < |trace|
    ensures Inv(c, trace[i])
    ensures Truthful(c, trace[0].mode.latch) ==> SafeInv(c, trace[i])
  {
    if i > 0 {
      RunKeeps(c, trace, labels, i - 1);
      Keeps(c, trace[i - 1], labels[i - 1]);
      if Truthful(c, trace[0].mode.latch) {
        SafeStep(c, trace[i - 1], labels[i - 1]);
      }
    } else {
      assert ShapeOf(trace[0].boots) == Shape({}, {}, {}, {}, {});
    }
  }

  lemma SafeStep(c: Config, s: State, l: Label)
    requires Inv(c, s) && SafeInv(c, s) && Enabled(c, s, l)
    ensures SafeInv(c, Apply(c, s, l))
  {
    hide Apply, ModeInv, WalkInv, ShapeOf;
    ModeKept(c, s, l);
    WalkKept(c, s, l);
  }

  /** Exclusion over whole runs: while the latch starts out true to the deployed
      script, no interleaving of boots, passes, latch flips, lock-file errors,
      cancellations, VM stops and creations puts the script inside a disk that a
      boot holds a permit for or that a VM has open. */
  lemma Exclusion(c: Config, trace: seq<State>, labels: seq<Label>)
    requires IsRun(c, trace, labels)
    requires Truthful(c, trace[0].mode.latch)
    ensures forall i :: 0 <= i < |trace| ==> Excluded(trace[i])
  {
    forall i | 0 <= i < |trace| ensures Excluded(trace[i]) {
      RunKeeps(c, trace, labels, i);
      SafeExcludes(c, trace[i]);
    }
  }

  ghost predicate AlwaysExcluded(c: Config, s: State) {
    forall trace, labels :: IsRun(c, trace, labels) && trace[0] == s ==>
      forall i :: 0 <= i < |trace| ==> Excluded(trace[i])
  }

  lemma Extend(c: Config, trace: seq<State>, labels: seq<Label>, l: Label)
    returns (trace': seq<State>, labels': seq<Label>)
    requires IsRun(c, trace, labels) && Enabled(c, trace[|labels|], l)
    ensures IsRun(c, trace', labels') && trace'[0] == trace[0]
    ensures |labels'| == |labels| + 1 && trace'[|labels'|] == Apply(c, trace[|labels|], l)
    ensures trace'[|labels|] == trace[|labels|]
  {
    hide Enabled, Apply, Init;
    trace', labels' := trace + [Apply(c, trace[|labels|], l)], labels + [l];
    forall i | 0 <= i < |labels'|
      ensures Enabled(c, trace'[i], labels'[i]) && trace'[i + 1] == Apply(c, trace'[i], labels'[i])
    {
      if i < |labels| {
        assert trace'[i] == trace[i] && labels'[i] == labels[i] && trace'[i + 1] == trace[i + 1];
      }
    }
  }

  /** After a rollback the latch still speaks of the old script. A boot takes a
      disk lock the deployed script ignores, and a pass started later reaches that
      disk: the window is a whole pass, not a fraction of a second. */
  lemma RollbackRun(c: Config, s: State, d: Disk) returns (trace: seq<State>, labels: seq<Label>)
    requires Init(c, s) && s.mode.latch && !c.honours && d in c.lockable
    ensures IsRun(c, trace, labels) && trace[0] == s
    ensures !Excluded(trace[|labels|])
  {
    trace, labels := StoppedDisk(c, s, d);
    var m := trace[|labels|];
    hide Init;
    trace, labels := Extend(c, trace, labels, ByBootStep(0, Arrive(d)));
    trace, labels := Extend(c, trace, labels, ByBootStep(0, ChooseDisk));
    trace, labels := Extend(c, trace, labels, ByBootStep(0, TakeLock));
    var held := trace[|labels|];
    assert held.boots[0] == Boot(d, Held(DiskLock)) && held.world == m.world;
    assert held.pass.pc == Idle && held.gate == m.gate && held.script == Off;
    trace, labels := RollbackPass(c, trace, labels, d);
  }

  /** Any disk can be made to be there and stopped. */
  lemma StoppedDisk(c: Config, s: State, d: Disk) returns (trace: seq<State>, labels: seq<Label>)
    requires Init(c, s)
    ensures IsRun(c, trace, labels) && trace[0] == s
    ensures
      var m := trace[|labels|];
      && m == s.(world := m.world) && d in m.world.existing && d !in m.world.open
  {
    trace, labels := [s], [];
    if d !in s.world.existing {
      trace, labels := Extend(c, trace, labels, VmCreate(d));
    }
    if d in trace[|labels|].world.open {
      trace, labels := Extend(c, trace, labels, VmStop(d));
    }
  }

  lemma RollbackPass(c: Config, trace0: seq<State>, labels0: seq<Label>, d: Disk)
    returns (trace: seq<State>, labels: seq<Label>)
    requires IsRun(c, trace0, labels0) && !c.honours
    requires
      var s := trace0[|labels0|];
      && s.pass.pc == Idle && s.gate == Gate({}, false, []) && s.script == Off
      && d in s.world.existing && d !in s.world.open
      && 0 in s.boots && s.boots[0] == Boot(d, Held(DiskLock))
    ensures IsRun(c, trace, labels) && trace[0] == trace0[0]
    ensures !Excluded(trace[|labels|])
  {
    hide Init;
    trace, labels := trace0, labels0;
    trace, labels := Extend(c, trace, labels, ByPassStep(Begin));
    trace, labels := Extend(c, trace, labels, ByPassStep(GrantWrite));
    trace, labels := Extend(c, trace, labels, ByPassStep(ClearBefore));
    trace, labels := Extend(c, trace, labels, ByPassStep(RemoveMarker));
    trace, labels := Extend(c, trace, labels, ByPassStep(Launch));
    trace, labels := RollbackWalk(c, trace, labels, d);
  }

  lemma RollbackWalk(c: Config, trace0: seq<State>, labels0: seq<Label>, d: Disk)
    returns (trace: seq<State>, labels: seq<Label>)
    requires IsRun(c, trace0, labels0) && !c.honours
    requires
      var s := trace0[|labels0|];
      && s.script == Launched && d in s.world.existing && d !in s.world.open
      && 0 in s.boots && s.boots[0] == Boot(d, Held(DiskLock))
    ensures IsRun(c, trace, labels) && trace[0] == trace0[0]
    ensures !Excluded(trace[|labels|])
  {
    hide Init;
    trace, labels := trace0, labels0;
    trace, labels := Extend(c, trace, labels, ByScriptStep(List));
    trace, labels := Extend(c, trace, labels, ByScriptStep(Snapshot));
    trace, labels := Extend(c, trace, labels, ByScriptStep(EnterBare(d)));
    assert Inside(trace[|labels|], d);
    assert HoldsPermit(trace[|labels|].boots[0].pc);
  }

  /** Exclusion holds of every run from `s` exactly when the latch is not set, with some
      disk lockable, against a script that takes no locks. */
  lemma ExclusionExactly(c: Config, s: State)
    requires Init(c, s)
    ensures AlwaysExcluded(c, s) <==> (s.mode.latch && c.lockable != {} ==> c.honours)
  {
    if Truthful(c, s.mode.latch) {
      forall trace, labels | IsRun(c, trace, labels) && trace[0] == s
        ensures forall i :: 0 <= i < |trace| ==> Excluded(trace[i])
      {
        Exclusion(c, trace, labels);
      }
    } else {
      var d :| d in c.lockable;
      var trace, labels := RollbackRun(c, s, d);
    }
  }

  /** No request is lost: whenever a boot is parked and the running pass watches
      without having yielded, a notification is stored or some boot is between
      raising the count and notifying. */
  lemma NoLostPreemption(c: Config, trace: seq<State>, labels: seq<Label>, i: nat, b: BootId)
    requires IsRun(c, trace, labels) && i < |trace|
    requires b in trace[i].boots && Counted(trace[i].boots[b].pc)
    requires trace[i].pass.pc == Watching && !trace[i].pass.yielding
    ensures trace[i].bell.permit || exists b' :: b' in trace[i].boots && trace[i].boots[b'].pc.Notifying?
  {
    RunKeeps(c, trace, labels, i);
    var shape := ShapeOf(trace[i].boots);
    assert b in shape.counted;
    if !trace[i].bell.permit {
      var b' :| b' in shape.notifying;
      assert b' in trace[i].boots && trace[i].boots[b'].pc.Notifying?;
    }
  }

  /** A stored notification alone never stops a pass: the count is exactly the boots that
      wait, a pass decides to yield only at a read of it that finds one, and writes its
      stop file only after such a decision, with nothing of its own in between. */
  lemma YieldHasCause(c: Config, trace: seq<State>, labels: seq<Label>, i: nat)
    requires IsRun(c, trace, labels) && i < |labels|
    ensures trace[i].bell.waiting == |set b | b in trace[i].boots && Counted(trace[i].boots[b].pc)|
    ensures
      !trace[i].pass.yielding && trace[i + 1].pass.yielding ==>
        labels[i] == ByPassStep(Yield) && exists b :: b in trace[i].boots && Counted(trace[i].boots[b].pc)
    ensures !trace[i].stop.file && trace[i + 1].stop.file ==> exists j :: DecidedAt(trace, labels, j, i)
  {
    RunKeeps(c, trace, labels, i);
    CountIsTheBoots(c, trace[i]);
    StopStep(c, trace[i], labels[i]);
    if !trace[i].pass.yielding && trace[i + 1].pass.yielding {
      SomeoneIsCounted(c, trace[i]);
    }
    if !trace[i].stop.file && trace[i + 1].stop.file {
      var j := DecisionBefore(c, trace, labels, i);
    }
  }

  /** At `j` the pass read the count with a boot in it and decided to yield, and at `i`
      it is about to act on that. */
  ghost predicate DecidedAt(trace: seq<State>, labels: seq<Label>, j: int, i: int)
    requires 0 <= i < |trace| && |trace| == |labels| + 1
  {
    && 0 <= j < i && labels[j] == ByPassStep(Yield)
    && (exists b :: b in trace[j].boots && Counted(trace[j].boots[b].pc))
    && forall k :: j < k <= i ==> trace[k].pass.pc == Asking
  }

  lemma CountIsTheBoots(c: Config, s: State)
    requires Inv(c, s)
    ensures s.bell.waiting == |set b | b in s.boots && Counted(s.boots[b].pc)|
  {
    assert ShapeOf(s.boots).counted == set b | b in s.boots && Counted(s.boots[b].pc);
  }

  lemma SomeoneIsCounted(c: Config, s: State)
    requires Inv(c, s) && s.bell.waiting > 0
    ensures exists b :: b in s.boots && Counted(s.boots[b].pc)
  {
    CountIsTheBoots(c, s);
    var counted := set b | b in s.boots && Counted(s.boots[b].pc);
    var b :| b in counted;
  }

  lemma BootNeverStops(c: Config, s: State, b: BootId, act: BootAct)
    requires BootEnabled(c, s, b, act)
    ensures BootApply(c, s, b, act).pass == s.pass && BootApply(c, s, b, act).stop == s.stop
  {
  }

  /** Which steps raise the two signals, and how a pass gets to the point of asking. */
  lemma PassStops(c: Config, s: State, act: PassAct)
    requires PassEnabled(c, s, act)
    ensures
      var s' := PassApply(c, s, act);
      && (!s.pass.yielding && s'.pass.yielding ==> act == Yield && s.bell.waiting > 0)
      && (!s.stop.file && s'.stop.file ==> s.pass.pc == Asking)
      && (s.pass.pc != Asking && s'.pass.pc == Asking ==> act == Yield && s.bell.waiting > 0)
  {
  }

  lemma StopStep(c: Config, s: State, l: Label)
    requires Enabled(c, s, l)
    ensures
      var s' := Apply(c, s, l);
      && (!s.pass.yielding && s'.pass.yielding ==> l == ByPassStep(Yield) && s.bell.waiting > 0)
      && (!s.stop.file && s'.stop.file ==> s.pass.pc == Asking)
      && (s.pass.pc != Asking && s'.pass.pc == Asking ==> l == ByPassStep(Yield) && s.bell.waiting > 0)
  {
    hide BootApply, BootEnabled, ScriptApply, ScriptEnabled, PassApply, PassEnabled;
    match l
    case ByBootStep(b, act) => BootNeverStops(c, s, b, act);
    case ByPassStep(act) => PassStops(c, s, act);
    case ByScriptStep(act) => ScriptNeverStops(c, s, act);
    case VmStop(_) =>
    case VmCreate(_) =>
  }

  lemma ScriptNeverStops(c: Config, s: State, act: ScriptAct)
    requires ScriptEnabled(c, s, act)
    ensures ScriptApply(c, s, act).pass == s.pass && ScriptApply(c, s, act).stop == s.stop
  {
  }

  /** The boot may be gone by the time the file is there: it gives up between the read of
      the count and the write. */
  lemma StopFileAfterItsCause(c: Config, s: State, d: Disk) returns (trace: seq<State>, labels: seq<Label>)
    requires Init(c, s) && c.runDir && !s.mode.latch && !s.stop.file && d in s.world.existing
    ensures IsRun(c, trace, labels) && |labels| > 0
    ensures !trace[|labels| - 1].stop.file && trace[|labels|].stop.file && trace[|labels| - 1].bell.waiting == 0
  {
    trace, labels := [s], [];
    trace, labels := Extend(c, trace, labels, ByPassStep(Begin));
    trace, labels := Extend(c, trace, labels, ByPassStep(GrantWrite));
    trace, labels := Extend(c, trace, labels, ByPassStep(ClearBefore));
    trace, labels := Extend(c, trace, labels, ByPassStep(RemoveMarker));
    trace, labels := Extend(c, trace, labels, ByPassStep(Launch));
    trace, labels := BootIsCounted(c, trace, labels, d);
    trace, labels := BootGivesUp(c, trace, labels);
  }

  lemma BootIsCounted(c: Config, trace0: seq<State>, labels0: seq<Label>, d: Disk)
    returns (trace: seq<State>, labels: seq<Label>)
    requires IsRun(c, trace0, labels0)
    requires
      var m := trace0[|labels0|];
      && m.boots == map[] && d in m.world.existing && !m.mode.latch && m.gate.writer
      && m.bell.waiting == 0 && m.pass.pc == FirstRead && !m.stop.file
    ensures IsRun(c, trace, labels)
    ensures
      var t := trace[|labels|];
      && t.boots == map[0 := Boot(d, Notifying(OnGate))] && t.bell.waiting == 1 && t.pass.pc == Asking
      && !t.stop.file
  {
    hide Init, PassApply, PassEnabled;
    trace, labels := trace0, labels0;
    trace, labels := Extend(c, trace, labels, ByBootStep(0, Arrive(d)));
    trace, labels := Extend(c, trace, labels, ByBootStep(0, ChooseGate));
    trace, labels := Extend(c, trace, labels, ByBootStep(0, MissGate));
    trace, labels := Extend(c, trace, labels, ByBootStep(0, Count));
    trace, labels := Decides(c, trace, labels);
  }

  lemma Decides(c: Config, trace0: seq<State>, labels0: seq<Label>) returns (trace: seq<State>, labels: seq<Label>)
    requires IsRun(c, trace0, labels0)
    requires trace0[|labels0|].pass.pc == FirstRead && trace0[|labels0|].bell.waiting > 0
    ensures IsRun(c, trace, labels)
    ensures
      var m := trace0[|labels0|];
      trace[|labels|] == m.(pass := m.pass.(pc := Asking, yielding := true))
  {
    hide Init;
    trace, labels := Extend(c, trace0, labels0, ByPassStep(Yield));
  }

  lemma BootGivesUp(c: Config, trace0: seq<State>, labels0: seq<Label>) returns (trace: seq<State>, labels: seq<Label>)
    requires IsRun(c, trace0, labels0) && c.runDir
    requires
      var m := trace0[|labels0|];
      && 0 in m.boots && m.boots[0].pc == Notifying(OnGate) && m.bell.waiting == 1 && m.pass.pc == Asking
      && !m.stop.file
    ensures IsRun(c, trace, labels) && |labels| > 0
    ensures !trace[|labels| - 1].stop.file && trace[|labels|].stop.file && trace[|labels| - 1].bell.waiting == 0
  {
    hide Init, Leave, PassApply, PassEnabled, ScriptApply, ScriptEnabled;
    trace, labels := trace0, labels0;
    trace, labels := Extend(c, trace, labels, ByBootStep(0, Notify));
    trace, labels := Extend(c, trace, labels, ByBootStep(0, Enqueue));
    trace, labels := LeavesAndAsks(c, trace, labels);
  }

  lemma LeavesAndAsks(c: Config, trace0: seq<State>, labels0: seq<Label>)
    returns (trace: seq<State>, labels: seq<Label>)
    requires IsRun(c, trace0, labels0) && c.runDir
    requires
      var m := trace0[|labels0|];
      0 in m.boots && m.boots[0].pc == Parked && m.bell.waiting == 1 && m.pass.pc == Asking && !m.stop.file
    ensures IsRun(c, trace, labels) && |labels| > 0
    ensures !trace[|labels| - 1].stop.file && trace[|labels|].stop.file && trace[|labels| - 1].bell.waiting == 0
  {
    hide Init, Leave, ScriptApply, ScriptEnabled;
    trace, labels := trace0, labels0;
    trace, labels := Extend(c, trace, labels, ByBootStep(0, LeaveQueue));
    trace, labels := Extend(c, trace, labels, ByBootStep(0, Uncount));
    trace, labels := Extend(c, trace, labels, ByPassStep(AskToStop(true)));
  }

  lemma {:induction false} DecisionBefore(c: Config, trace: seq<State>, labels: seq<Label>, i: nat) returns (j: nat)
    requires IsRun(c, trace, labels) && i < |trace| && trace[i].pass.pc == Asking
    ensures DecidedAt(trace, labels, j, i)
  {
    hide Enabled, Apply;
    assert i > 0;
    StopStep(c, trace[i - 1], labels[i - 1]);
    if trace[i - 1].pass.pc == Asking {
      j := DecisionBefore(c, trace, labels, i - 1);
    } else {
      j := i - 1;
      RunKeeps(c, trace, labels, j);
      SomeoneIsCounted(c, trace[j]);
    }
  }

  /** Once any pass has cleared it, a stop file is there only inside the pass that
      asked for it, and no pass ever launches its script against one. */
  lemma NoStopFileOutlivesItsPass(c: Config, trace: seq<State>, labels: seq<Label>, i: nat)
    requires IsRun(c, trace, labels) && i < |trace| && trace[i].stop.file
    ensures trace[i].pass.pc != Ready
    ensures
      || (trace[0].stop.file && ByPassStep(ClearBefore) !in labels[..i])
      || (trace[i].pass.pc in {Watching, Woken, Reaped} && trace[i].pass.yielding)
  {
    RunKeeps(c, trace, labels, i);
    if trace[i].stop.leftover {
      LeftoverIsOld(c, trace, labels, i);
    }
  }

  lemma {:induction false} LeftoverIsOld(c: Config, trace: seq<State>, labels: seq<Label>, i: nat)
    requires IsRun(c, trace, labels) && i < |trace| && trace[i].stop.leftover
    ensures trace[0].stop.file && ByPassStep(ClearBefore) !in labels[..i]
  {
    if i > 0 {
      assert labels[..i] == labels[..i - 1] + [labels[i - 1]];
      LeftoverOnlyCleared(c, trace[i - 1], labels[i - 1]);
      LeftoverIsOld(c, trace, labels, i - 1);
    }
  }

  lemma LeftoverOnlyCleared(c: Config, s: State, l: Label)
    requires Enabled(c, s, l) && Apply(c, s, l).stop.leftover
    ensures s.stop.leftover && l != ByPassStep(ClearBefore)
  {
  }
}
