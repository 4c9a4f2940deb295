/**
 * The storage ladder under crashes (src/registry.rs, src/imgarchive.rs): freeze,
 * compact, archive as a dump, archive as an image and the two promotions of one
 * schema, client checkouts with their restores, and the durable tier.
 *
 * One schema is followed through all the places its data can be in. The registry
 * appears as the list of tiers it was given and how far the file has got in it;
 * module StoreLedger shows that this is what a run of the store looks like.
 */
module Offload {
  import opened Text
  import opened RegistryText
  import Picker

  const MIN_DUMP_BYTES: nat := 512
  const MIN_IMAGE_BYTES: nat := 1024

  /** What a database or a copy of it holds: a fresh cluster, or the schema's data as
      of its n-th write. */
  datatype Content = Blank | Version(n: nat)

  /** An object in S3, and the operation that wrote it. */
  datatype Obj = Obj(content: Content, len: nat, author: nat)

  /** The ids of VMs: the present one's, disks of earlier ones whose kill failed and that a
      restore has superseded, and how many have been made. */
  datatype Disks = Disks(id: nat, left: map<nat, Content>, made: nat)

  datatype Places = Places(
    vm: Option<Content>,
    disks: Disks,
    dumpFile: Option<Content>,
    imageFile: Option<Content>,
    dump: Option<Obj>,
    image: Option<Obj>)

  /** A tier given to the registry, and the operation that gave it. */
  datatype Mark = Mark(tier: Tier, author: nat)

  /** Tiers in the order given, the one the file holds, and the last one a restore gave. */
  datatype Ledger = Ledger(log: seq<Mark>, landed: nat, lastPut: nat)

  datatype Kind = FreezeOp | CompactOp | DumpArchive | ImageArchive | PromoteDump | PromoteImage

  datatype Stage =
    | Claimed              // holds the archiving guard
    | Evicted              // the warm entry is out of the map
    | Ready                // the VM is up for a dump
    | Halted               // the VM is stopped for an image
    | Saved(len: nat)      // the copy is made
    | Cleared(len: nat)    // and no older dump is left beside it
    | Flipped(at: nat)     // the tier is in the registry

  /** `target`: the VM the operation works on. */
  datatype Op = NoOp | Op(kind: Kind, stage: Stage, author: nat, target: Option<nat>)

  /** An operation that has looked at the row and not yet claimed: the VM it found there.
      Only an image archive goes by it; the others look for their VM after the claim. */
  datatype Look = Look(kind: Kind, vm: Option<nat>)

  /** A restore in progress: the data is on a VM; the VM is bound to the schema. */
  datatype Thaw = NoThaw | Restored(source: Tier) | Bound(source: Tier)

  /** Checkouts past the archiving check that have no entry yet, those that have one and
      are not counted, sessions counted; whether the map holds an entry, whether the VM
      runs; and the restore under way, by one of the first until it is bound. */
  datatype Clients = Clients(passing: nat, touched: nat, active: nat, warm: bool, up: bool, thaw: Thaw)

  /** What there was to restore when the last restore's tier was given. */
  datatype Snapshot = Snapshot(version: nat, chosen: Option<Obj>)

  datatype State = State(
    version: nat,
    places: Places,
    ledger: Ledger,
    pending: multiset<Look>,
    op: Op,
    ops: nat,
    clients: Clients,
    atPut: Snapshot)

  datatype Label =
    | Check(kind: Kind)
    | Claim(look: Look)
    | Evict
    | BringUp
    | Halt(stops: bool)
    | Save(len: nat, scratch: bool)
    | Fallback
    | Clear
    | Flip
    | Destroy(ok: bool)
    | Fail(stops: bool)
    | Land(upTo: nat)
    | Pass
    | GiveUp(entered: bool)
    | Touch
    | Start
    | Restore
    | Bind
    | RemoveThawed(ok: bool)
    | Count
    | Write
    | Leave
    | Chill
    | Crash

  // ---- choosing what to restore -------------------------------------------------------

  datatype RestoreKind = FromDump | FromImage

  predicate PlausibleDump(len: Option<nat>) { len.Some? && len.value >= MIN_DUMP_BYTES }

  predicate PlausibleImage(len: Option<nat>) { len.Some? && len.value >= MIN_IMAGE_BYTES }

  function ChooseRestore(dumpLen: Option<nat>, imageLen: Option<nat>): RestoreKind {
    if PlausibleDump(dumpLen) then FromDump else if PlausibleImage(imageLen) then FromImage else FromDump
  }

  /** What a HEAD comes back with. */
  datatype Head = Answer(len: Option<nat>) | Trouble

  function LenOf(h: Head): Option<nat> { if h.Answer? then h.len else None }

  function PickRestore(dump: Head, image: Head): RestoreKind {
    if PlausibleDump(LenOf(dump)) then FromDump else ChooseRestore(LenOf(dump), LenOf(image))
  }

  function ObjLen(o: Option<Obj>): Option<nat> { if o.Some? then Some(o.value.len) else None }

  function Picked(p: Places, k: RestoreKind): Option<Obj> { if k == FromDump then p.dump else p.image }

  /** The object a restore takes when both HEADs answer. */
  function Chosen(p: Places): Option<Obj> { Picked(p, PickRestore(Answer(ObjLen(p.dump)), Answer(ObjLen(p.image)))) }

  // ---- steps ---------------------------------------------------------------------------

  predicate FromVm(k: Kind) { k == FreezeOp || k == CompactOp || k == DumpArchive || k == ImageArchive }

  predicate AsImage(k: Kind) { k == ImageArchive || k == PromoteImage }

  /** The step down the ladder that an operation takes. */
  function JobOf(k: Kind): Picker.Kind {
    match k
    case FreezeOp => Picker.Freeze
    case CompactOp => Picker.Compact
    case DumpArchive => Picker.Archive
    case ImageArchive => Picker.ImageArchive
    case PromoteDump => Picker.Promote
    case PromoteImage => Picker.Promote
  }

  function Target(k: Kind): Tier { Picker.Target(JobOf(k)) }

  /** The tier an operation finds when it looks, before it claims. */
  predicate Suits(k: Kind, t: Tier) {
    Picker.Fits(JobOf(k), t) && (k == PromoteDump ==> t == Frozen) && (k == PromoteImage ==> t == Compacted)
  }

  function Current(s: State): Tier
    requires s.ledger.log != []
  {
    s.ledger.log[|s.ledger.log| - 1].tier
  }

  /** The present VM, if there is one. */
  function VmId(p: Places): Option<nat> { if p.vm.Some? then Some(p.disks.id) else None }

  predicate IsCurrent(p: Places, vm: Option<nat>) { vm.Some? && vm == VmId(p) }

  /** What is on a VM's disk, the present one's or a superseded one's. */
  function DiskOf(p: Places, vm: Option<nat>): Option<Content> {
    if IsCurrent(p, vm) then p.vm
    else if vm.Some? && vm.value in p.disks.left then Some(p.disks.left[vm.value])
    else None
  }

  /** A VM newly made, and what becomes of the disk of the one before it. */
  function NewVm(p: Places, content: Content): Places {
    p.(vm := Some(content),
       disks := Disks(p.disks.made + 1,
                      if p.vm.Some? then p.disks.left[p.disks.id := p.vm.value] else p.disks.left,
                      p.disks.made + 1))
  }

  /** Where the operation copies from. */
  function Source(p: Places, op: Op): Option<Content>
    requires op.Op?
  {
    match op.kind
    case PromoteDump => p.dumpFile
    case PromoteImage => p.imageFile
    case _ => DiskOf(p, op.target)
  }

  /** The operation is at its copy. A dump is taken from a running VM, an image only
      from a disk that no VM holds open. */
  predicate AtCopy(op: Op, p: Places, up: bool)
    requires op.Op?
  {
    match op.kind
    case FreezeOp => op.stage == Ready
    case DumpArchive => op.stage == Ready
    case CompactOp => op.stage == Evicted && !(IsCurrent(p, op.target) && up)
    case ImageArchive => op.stage == Halted && !(IsCurrent(p, op.target) && up)
    case PromoteDump => op.stage == Claimed
    case PromoteImage => op.stage == Claimed
  }

  /** A dump archive may land its dump in the schema's local dump file first, and
      removes it again. */
  function Copied(p: Places, op: Op, content: Content, len: nat, scratch: bool): Places
    requires op.Op?
  {
    match op.kind
    case FreezeOp => p.(dumpFile := Some(content))
    case CompactOp => p.(imageFile := Some(content))
    case DumpArchive =>
      p.(dump := Some(Obj(content, len, op.author)), dumpFile := if scratch then None else p.dumpFile)
    case PromoteDump => p.(dump := Some(Obj(content, len, op.author)))
    case _ => p.(image := Some(Obj(content, len, op.author)))
  }

  predicate Plausible(k: Kind, len: nat) {
    len >= if AsImage(k) || k == CompactOp then MIN_IMAGE_BYTES else MIN_DUMP_BYTES
  }

  /** Images and promoted dumps are measured before they are written anywhere; what a
      dump of a VM amounts to is known only afterwards. */
  predicate MeasuredFirst(k: Kind) { k != FreezeOp && k != DumpArchive }

  predicate CanFlip(op: Op) {
    && op.Op?
    && if AsImage(op.kind) then op.stage.Cleared? && Plausible(op.kind, op.stage.len)
       else op.stage.Saved? && Plausible(op.kind, op.stage.len)
  }

  function Destroyed(p: Places, op: Op): Places
    requires op.Op?
  {
    match op.kind
    case PromoteDump => p.(dumpFile := None)
    case PromoteImage => p.(imageFile := None)
    case _ =>
      if IsCurrent(p, op.target) then p.(vm := None)
      else if op.target.Some? then p.(disks := p.disks.(left := p.disks.left - {op.target.value}))
      else p
  }

  /** What a checkout brings up from the tier it finds. */
  function Restorable(p: Places, t: Tier): Option<Content> {
    match t
    case Live => p.vm
    case Frozen => p.dumpFile
    case Compacted => p.imageFile
    case Archived => if Chosen(p).Some? then Some(Chosen(p).value.content) else None
  }

  /** The operation has taken the schema's cell out of the map. */
  predicate Evicting(op: Op) { op.Op? && FromVm(op.kind) && op.stage != Claimed }

  predicate OpEnabled(s: State, l: Label)
    requires s.ledger.log != []
  {
    match l
    case Check(k) => Suits(k, Current(s))
    case Claim(look) => s.op == NoOp && look in s.pending
    case Evict =>
      && s.op.Op? && FromVm(s.op.kind) && s.op.stage == Claimed
      && (s.clients.warm ==> s.clients.active == 0 && s.op.kind != CompactOp)
    case BringUp => s.op.Op? && (s.op.kind == FreezeOp || s.op.kind == DumpArchive) && s.op.stage == Evicted
    case Halt(stops) =>
      && s.op.Op? && s.op.kind == ImageArchive && s.op.stage == Evicted
      && (IsCurrent(s.places, s.op.target) ==> stops)
    case Save(len, _) =>
      && s.op.Op? && AtCopy(s.op, s.places, s.clients.up) && Source(s.places, s.op).Some?
      && (s.op.kind == PromoteDump ==> Current(s) == Frozen)
      && (MeasuredFirst(s.op.kind) ==> Plausible(s.op.kind, len))
    case Fallback => s.op.Op? && s.op.kind == DumpArchive && s.op.stage in {Evicted, Ready}
    case Clear => s.op.Op? && AsImage(s.op.kind) && s.op.stage.Saved?
    case Flip => CanFlip(s.op)
    case Destroy(_) => s.op.Op? && s.op.stage.Flipped? && s.op.stage.at <= s.ledger.landed
    case Fail(stops) => s.op.Op? && !s.op.stage.Flipped? && (stops ==> Evicting(s.op))
    case _ => false
  }

  /** The VM is stopped, and every session with it. */
  function Stopped(cl: Clients): Clients { cl.(up := false, touched := 0, active := 0) }

  function OpApply(s: State, l: Label): State
    requires s.ledger.log != [] && OpEnabled(s, l)
  {
    match l
    case Check(k) => s.(pending := s.pending + multiset{Look(k, VmId(s.places))})
    case Claim(look) =>
      s.(pending := s.pending - multiset{look}, op := Op(look.kind, Claimed, s.ops + 1, look.vm), ops := s.ops + 1)
    case Evict =>
      s.(op := s.op.(stage := Evicted, target := if s.op.kind == ImageArchive then s.op.target else VmId(s.places)),
         clients := s.clients.(warm := false))
    case BringUp =>
      var p := if s.places.vm.Some? then s.places else NewVm(s.places, Blank);
      s.(op := s.op.(stage := Ready, target := VmId(p)), clients := s.clients.(up := true), places := p)
    case Halt(stops) =>
      s.(op := s.op.(stage := Halted), clients := if stops then Stopped(s.clients) else s.clients)
    case Save(len, scratch) =>
      s.(op := s.op.(stage := Saved(len)),
         places := Copied(s.places, s.op, Source(s.places, s.op).value, len, scratch))
    case Fallback => s.(op := s.op.(kind := ImageArchive, stage := Halted), clients := Stopped(s.clients))
    case Clear => s.(op := s.op.(stage := Cleared(s.op.stage.len)), places := s.places.(dump := None))
    case Flip =>
      s.(op := s.op.(stage := Flipped(|s.ledger.log|)),
         ledger := s.ledger.(log := s.ledger.log + [Mark(Target(s.op.kind), s.op.author)]))
    case Destroy(ok) =>
      s.(op := NoOp,
         places := if ok then Destroyed(s.places, s.op) else s.places,
         clients := if ok && FromVm(s.op.kind) && IsCurrent(s.places, s.op.target) then Stopped(s.clients)
                    else s.clients)
    case Fail(stops) => s.(op := NoOp, clients := if stops then Stopped(s.clients) else s.clients)
  }

  predicate ClientEnabled(s: State, l: Label)
    requires s.ledger.log != []
  {
    var cl := s.clients;
    match l
    case Pass => s.op == NoOp
    case GiveUp(entered) => if entered then cl.touched > 0 else cl.passing > (if cl.thaw.Restored? then 1 else 0)
    case Touch => cl.passing > (if cl.thaw.Restored? then 1 else 0) && cl.warm
    case Start => cl.passing > 0 && cl.thaw == NoThaw && Current(s) == Live && s.places.vm.Some?
    case Restore =>
      cl.passing > 0 && cl.thaw == NoThaw && Current(s) != Live && Restorable(s.places, Current(s)).Some?
    case Bind => cl.thaw.Restored? && cl.passing > 0
    case RemoveThawed(_) => cl.thaw.Bound?
    case Count => cl.touched > 0
    case Write => cl.active > 0 && cl.up && s.places.vm.Some?
    case Leave => cl.active > 0
    case Chill => cl.warm && cl.active == 0 && cl.touched == 0 && cl.thaw == NoThaw
    case _ => false
  }

  function ClientApply(s: State, l: Label): State
    requires s.ledger.log != [] && ClientEnabled(s, l)
  {
    var cl := s.clients;
    match l
    case Pass => s.(clients := cl.(passing := cl.passing + 1))
    case GiveUp(entered) =>
      s.(clients := if entered then cl.(touched := cl.touched - 1) else cl.(passing := cl.passing - 1))
    case Touch => s.(clients := cl.(passing := cl.passing - 1, touched := cl.touched + 1))
    case Start =>
      s.(clients := cl.(passing := cl.passing - 1, touched := cl.touched + 1, up := true,
                        warm := cl.warm || !Evicting(s.op)))
    case Restore =>
      s.(clients := cl.(thaw := Restored(Current(s)), up := true),
         places := NewVm(s.places, Restorable(s.places, Current(s)).value))
    case Bind =>
      s.(clients := cl.(thaw := Bound(cl.thaw.source), passing := cl.passing - 1, warm := cl.warm || !Evicting(s.op)),
         ledger := s.ledger.(log := s.ledger.log + [Mark(Live, 0)], lastPut := |s.ledger.log|),
         atPut := Snapshot(s.version, Chosen(s.places)))
    case RemoveThawed(ok) =>
      s.(clients := cl.(thaw := NoThaw, touched := cl.touched + 1),
         places := if !ok then s.places
                   else if cl.thaw.source == Frozen then s.places.(dumpFile := None)
                   else if cl.thaw.source == Compacted then s.places.(imageFile := None)
                   else s.places)
    case Count => s.(clients := cl.(touched := cl.touched - 1, active := cl.active + 1))
    case Write => s.(version := s.version + 1, places := s.places.(vm := Some(Version(s.version + 1))))
    case Leave => s.(clients := cl.(active := cl.active - 1))
    case Chill => s.(clients := cl.(warm := false, up := false))
  }

  predicate IsClient(l: Label) {
    || l.Pass? || l.GiveUp? || l.Touch? || l.Start? || l.Restore? || l.Bind? || l.RemoveThawed?
    || l.Count? || l.Write? || l.Leave? || l.Chill?
  }

  predicate Enabled(s: State, l: Label) {
    && s.ledger.log != []
    && if l.Land? then s.ledger.landed < l.upTo < |s.ledger.log|
       else if l.Crash? then s.ledger.landed < |s.ledger.log|
       else if IsClient(l) then ClientEnabled(s, l)
       else OpEnabled(s, l)
  }

  function Apply(s: State, l: Label): State
    requires Enabled(s, l)
  {
    if l.Land? then s.(ledger := s.ledger.(landed := l.upTo))
    else if l.Crash? then
      s.(ledger := Ledger([s.ledger.log[s.ledger.landed]], 0, 0), pending := multiset{}, op := NoOp,
         clients := Clients(0, 0, 0, false, s.clients.up, NoThaw))
    else if IsClient(l) then ClientApply(s, l)
    else OpApply(s, l)
  }

  // ---- what must hold --------------------------------------------------------------------

  predicate Is(c: Option<Content>, version: nat) { c == Some(Version(version)) }

  /** The place that a tier names holds the schema's data. */
  predicate Holds(p: Places, version: nat, t: Tier) { Is(Restorable(p, t), version) }

  /** A restart now would find the schema's data where the file says it is. */
  predicate ReloadSafe(s: State)
    requires s.ledger.landed < |s.ledger.log|
  {
    Holds(s.places, s.version, s.ledger.log[s.ledger.landed].tier)
  }

  /** The tier the last restore gave has not reached the file. */
  predicate PutPending(ledger: Ledger) { ledger.landed < ledger.lastPut }

  function Oldest(ledger: Ledger): nat { if PutPending(ledger) then ledger.lastPut else ledger.landed }

  predicate LedgerInv(ledger: Ledger, op: Op) {
    && ledger.landed < |ledger.log| && ledger.lastPut < |ledger.log|
    && (forall i :: ledger.lastPut < i < |ledger.log| ==> ledger.log[i].tier != Live)
    && (PutPending(ledger) ==> ledger.log[ledger.lastPut].tier == Live && ledger.landed == ledger.lastPut - 1)
    && (if op.Op? && op.stage.Flipped?
        then op.stage.at == |ledger.log| - 1 > 0 && ledger.log[op.stage.at] == Mark(Target(op.kind), op.author)
             && |ledger.log| - 2 <= Oldest(ledger)
        else Oldest(ledger) == |ledger.log| - 1)
  }

  predicate HoldInv(p: Places, version: nat, ledger: Ledger) {
    forall i :: Oldest(ledger) <= i < |ledger.log| ==> Holds(p, version, ledger.log[i].tier)
  }

  predicate NotAhead(c: Option<Content>, version: nat) { c.Some? && c.value.Version? ==> c.value.n <= version }

  function ContentOf(o: Option<Obj>): Option<Content> { if o.Some? then Some(o.value.content) else None }

  /** No copy is ahead of the data. */
  predicate PastInv(p: Places, version: nat) {
    && NotAhead(p.vm, version) && NotAhead(p.dumpFile, version) && NotAhead(p.imageFile, version)
    && NotAhead(ContentOf(p.dump), version) && NotAhead(ContentOf(p.image), version)
    && forall id :: id in p.disks.left ==> NotAhead(Some(p.disks.left[id]), version)
  }

  /** No checkout is on its way to a session. */
  predicate NoneOnTheWay(cl: Clients) { cl.passing == 0 && cl.touched == 0 && cl.thaw == NoThaw }

  predicate Quiet(cl: Clients) { NoneOnTheWay(cl) && cl.active == 0 && !cl.warm }

  /** A dump archive of an archived schema may overwrite its dump with one too small to
      be chosen: what is then chosen must not be an older image. */
  predicate ImageWillDo(p: Places, version: nat, t: Tier) {
    t == Archived && PlausibleImage(ObjLen(p.image)) ==> Is(ContentOf(p.image), version)
  }

  /** There is nothing on the VM's disk, or it is the data. */
  predicate DiskOk(p: Places, version: nat, vm: Option<nat>) {
    DiskOf(p, vm).None? || Is(DiskOf(p, vm), version)
  }

  /** Exactly when it is safe to claim (see module OffloadClaims). For a freeze or a dump
      archive the VM must still be there and no checkout on its way; a dump archive needs
      more, for the files it uses on the way. For an image archive no checkout may be on
      its way and the VM it looked at must be gone, or still be the schema's, or, if a
      restore has superseded it, nobody may have written since or be about to. For
      compaction no checkout may be without an entry. A promoted dump is checked again. A
      promoted image must be gone, or be the data with nobody using the schema. */
  predicate ClaimOk(look: Look, p: Places, version: nat, cl: Clients, t: Tier) {
    match look.kind
    case FreezeOp => NoneOnTheWay(cl) && p.vm.Some?
    case DumpArchive => NoneOnTheWay(cl) && p.vm.Some? && t != Frozen && ImageWillDo(p, version, t)
    case ImageArchive =>
      && NoneOnTheWay(cl)
      && (IsCurrent(p, look.vm) || DiskOf(p, look.vm).None? || (DiskOk(p, version, look.vm) && cl.active == 0))
    case CompactOp => cl.passing == 0
    case PromoteDump => t == Frozen ==> cl.passing == 0
    case PromoteImage => p.imageFile.None? || (Is(p.imageFile, version) && Quiet(cl))
  }

  /** While an operation that works on a VM is under way or about to be, the schema's VM
      is gone or holds the data: such an operation has looked at a live schema. */
  predicate VmInv(p: Places, version: nat, pending: multiset<Look>, op: Op) {
    (op.Op? && FromVm(op.kind)) || (exists look :: look in pending && FromVm(look.kind)) ==>
      p.vm.None? || Is(p.vm, version)
  }

  /** The copy of an operation about to flip the tier. */
  predicate CopyOk(p: Places, version: nat, op: Op)
    requires op.Op? && (op.stage.Saved? || op.stage.Cleared?)
  {
    var o := Obj(Version(version), op.stage.len, op.author);
    match op.kind
    case FreezeOp => Is(p.dumpFile, version)
    case CompactOp => Is(p.imageFile, version)
    case DumpArchive => p.dump == Some(o)
    case PromoteDump => p.dump == Some(o)
    case _ => p.image == Some(o) && Plausible(op.kind, op.stage.len) && (op.stage.Cleared? ==> p.dump == None)
  }

  predicate OpInv(p: Places, version: nat, op: Op, cl: Clients, t: Tier) {
    op.Op? ==>
      match op.stage
      case Claimed => ClaimOk(Look(op.kind, op.target), p, version, cl, t)
      case Saved(_) => Quiet(cl) && CopyOk(p, version, op)
      case Cleared(_) => Quiet(cl) && CopyOk(p, version, op) && AsImage(op.kind)
      case Flipped(_) => Quiet(cl)
      case _ =>
        && FromVm(op.kind) && Quiet(cl) && DiskOk(p, version, op.target)
        && (op.kind == FreezeOp ==> IsCurrent(p, op.target))
        && (op.kind == DumpArchive ==> IsCurrent(p, op.target) && t != Frozen && ImageWillDo(p, version, t))
  }

  predicate ClientInv(p: Places, version: nat, cl: Clients, t: Tier) {
    && (cl.warm ==> t == Live && cl.up)
    && (cl.touched > 0 || cl.active > 0 ==> cl.warm)
    && (cl.thaw != NoThaw ==> cl.thaw.source != Live)
    && (cl.thaw.Restored? ==> cl.passing > 0 && t == cl.thaw.source && Is(p.vm, version) && cl.up)
    && (cl.thaw.Bound? ==> t == Live && cl.warm)
  }

  /** Until a restore's tier lands, the file holds the tier restored from. */
  predicate ThawInv(ledger: Ledger, thaw: Thaw) {
    thaw.Bound? ==>
      && ledger.lastPut == |ledger.log| - 1
      && (PutPending(ledger) ==> ledger.log[ledger.landed].tier == thaw.source)
  }

  predicate Inv(s: State) {
    && PastInv(s.places, s.version)
    && LedgerInv(s.ledger, s.op) && ThawInv(s.ledger, s.clients.thaw)
    && HoldInv(s.places, s.version, s.ledger)
    && VmInv(s.places, s.version, s.pending, s.op)
    && OpInv(s.places, s.version, s.op, s.clients, Current(s))
    && ClientInv(s.places, s.version, s.clients, Current(s))
  }

  /** Ids are given out once. */
  predicate DisksOk(p: Places) {
    && (forall id :: id in p.disks.left ==> id <= p.disks.made)
    && (p.vm.Some? ==> p.disks.id <= p.disks.made && p.disks.id !in p.disks.left)
  }

  /** A pooler that has just started, with the data where the file says it is. */
  predicate Init(s: State) {
    && |s.ledger.log| == 1 && s.ledger.landed == 0 && s.ledger.lastPut == 0
    && Holds(s.places, s.version, s.ledger.log[0].tier) && PastInv(s.places, s.version)
    && DisksOk(s.places)
    && s.pending == multiset{} && s.op == NoOp && s.clients == Clients(0, 0, 0, false, s.clients.up, NoThaw)
  }

  /** What crash safety rests on: claims are made when it is safe to, and the pooler does
      not die while a restore's tier is unwritten. */
  predicate Sound(s: State, l: Label) {
    && (l.Claim? ==> s.ledger.log != [] && ClaimOk(l.look, s.places, s.version, s.clients, Current(s)))
    && (l.Crash? ==> !PutPending(s.ledger))
  }

  /** What a caller can see to: no checkout is on its way when an operation claims, the tier
      is still the one it looked at (which only the dump promotion checks again), and the
      VM an image archive looked at is still the schema's or is gone. */
  predicate Unchanged(s: State, look: Look)
    requires s.ledger.log != []
  {
    && NoneOnTheWay(s.clients)
    && (look.kind == PromoteDump || Suits(look.kind, Current(s)))
    && (look.kind == ImageArchive ==> IsCurrent(s.places, look.vm) || DiskOf(s.places, look.vm).None?)
  }

  predicate Orderly(s: State, l: Label) {
    && (l.Claim? ==> s.ledger.log != [] && Unchanged(s, l.look))
    && (l.Crash? ==> !PutPending(s.ledger))
  }

  /** It is then safe to claim. */
  lemma UnchangedIsOk(s: State, look: Look)
    requires Inv(s) && s.op == NoOp && Unchanged(s, look)
    ensures ClaimOk(look, s.places, s.version, s.clients, Current(s))
  {
    assert Holds(s.places, s.version, s.ledger.log[|s.ledger.log| - 1].tier);
  }

  // ---- every sound step keeps it ---------------------------------------------------------------

  lemma PastKeptByClient(s: State, l: Label)
    requires PastInv(s.places, s.version) && Enabled(s, l) && IsClient(l)
    ensures PastInv(Apply(s, l).places, Apply(s, l).version)
  {
  }

  lemma PastKeptBySave(s: State, l: Label)
    requires PastInv(s.places, s.version) && Enabled(s, l) && l.Save?
    ensures PastInv(Apply(s, l).places, Apply(s, l).version)
  {
    hide Chosen, Restorable;
    assert NotAhead(Source(s.places, s.op), s.version);
  }

  lemma PastKeptByOp(s: State, l: Label)
    requires PastInv(s.places, s.version) && Enabled(s, l) && !IsClient(l) && !l.Save?
    ensures PastInv(Apply(s, l).places, Apply(s, l).version)
  {
    hide Chosen, Restorable;
  }

  lemma PastKept(s: State, l: Label)
    requires PastInv(s.places, s.version) && Enabled(s, l)
    ensures PastInv(Apply(s, l).places, Apply(s, l).version)
  {
    hide PastInv, Enabled, Apply;
    if IsClient(l) {
      PastKeptByClient(s, l);
    } else if l.Save? {
      PastKeptBySave(s, l);
    } else {
      PastKeptByOp(s, l);
    }
  }

  lemma CheckKeeps(s: State, l: Label)
    requires Inv(s) && Enabled(s, l) && l.Check?
    ensures Inv(Apply(s, l))
  {
    LiveIsRight(s);
    var look := Look(l.kind, VmId(s.places));
    assert forall x :: x in Apply(s, l).pending ==> x in s.pending || x == look;
    hide PastInv, HoldInv, OpInv, ClientInv, ThawInv, LedgerInv, Is;
  }

  lemma ClaimKeeps(s: State, l: Label)
    requires Inv(s) && Enabled(s, l) && Sound(s, l) && l.Claim?
    ensures Inv(Apply(s, l))
  {
    assert l.look == Look(l.look.kind, l.look.vm);
    assert forall x :: x in Apply(s, l).pending ==> x in s.pending;
    hide PastInv, HoldInv, ClientInv, ThawInv, Is, ClaimOk;
  }

  lemma EvictKeeps(s: State, l: Label)
    requires Inv(s) && Enabled(s, l) && (l.Evict? || l.Halt? || l.Fallback?)
    ensures Inv(Apply(s, l))
  {
    LiveIsRight(s);
    hide PastInv, Holds, CopyOk, Chosen, Restorable, ThawInv;
  }

  lemma FailKeeps(s: State, l: Label)
    requires Inv(s) && Enabled(s, l) && l.Fail?
    ensures Inv(Apply(s, l))
  {
    hide PastInv, Holds, CopyOk, Chosen, Restorable, ClaimOk;
  }

  /** Nothing is brought up but the VM that holds the data. */
  lemma BringUpKeeps(s: State, l: Label)
    requires Inv(s) && Enabled(s, l) && l.BringUp?
    ensures Inv(Apply(s, l))
  {
    hide PastInv, CopyOk, Chosen, Restorable;
    assert Apply(s, l).places == s.places;
    hide Holds;
  }

  /** A copy of the data leaves the tier in force with the data. */
  lemma CopyHolds(p: Places, version: nat, op: Op, t: Tier, len: nat, scratch: bool)
    requires op.Op? && Holds(p, version, t)
    requires op.kind == DumpArchive ==> t != Frozen && ImageWillDo(p, version, t)
    requires op.kind == PromoteDump ==> t == Frozen
    requires MeasuredFirst(op.kind) ==> Plausible(op.kind, len)
    ensures Holds(Copied(p, op, Version(version), len, scratch), version, t)
  {
  }

  /** What an operation copies is the data. */
  lemma SourceIsRight(s: State, l: Label)
    requires Inv(s) && Enabled(s, l) && l.Save?
    ensures Is(Source(s.places, s.op), s.version) && Holds(s.places, s.version, Current(s)) && Quiet(s.clients)
    ensures s.op.kind == DumpArchive ==> Current(s) != Frozen && ImageWillDo(s.places, s.version, Current(s))
  {
    hide PastInv, Chosen, CopyOk;
    assert Holds(s.places, s.version, s.ledger.log[|s.ledger.log| - 1].tier);
  }

  /** The copy is the one about to be named, and the VM stays as it is. */
  lemma CopyIsOk(p: Places, version: nat, op: Op, len: nat, scratch: bool)
    requires op.Op? && (MeasuredFirst(op.kind) ==> Plausible(op.kind, len))
    ensures CopyOk(Copied(p, op, Version(version), len, scratch), version, op.(stage := Saved(len)))
    ensures Copied(p, op, Version(version), len, scratch).vm == p.vm
  {
  }

  lemma SaveKeeps(s: State, l: Label)
    requires Inv(s) && Enabled(s, l) && l.Save?
    ensures Inv(Apply(s, l))
  {
    PastKept(s, l);
    SourceIsRight(s, l);
    CopyHolds(s.places, s.version, s.op, Current(s), l.len, l.scratch);
    CopyIsOk(s.places, s.version, s.op, l.len, l.scratch);
    hide PastInv, Holds, Chosen, Restorable, ClaimOk, Copied, CopyOk, DiskOk, ImageWillDo;
  }

  lemma ClearKeeps(s: State, l: Label)
    requires Inv(s) && Enabled(s, l) && l.Clear?
    ensures Inv(Apply(s, l))
  {
    PastKept(s, l);
    hide PastInv;
  }

  lemma FlipKeeps(s: State, l: Label)
    requires Inv(s) && Enabled(s, l) && l.Flip?
    ensures Inv(Apply(s, l))
  {
    hide PastInv;
  }

  lemma DestroyKeeps(s: State, l: Label)
    requires Inv(s) && Enabled(s, l) && l.Destroy?
    ensures Inv(Apply(s, l))
  {
    PastKept(s, l);
    DestroyHolds(s, l);
    hide PastInv, Holds, Restorable, Chosen, CopyOk, ClaimOk, Is;
  }

  /** By then the tier in the file no longer names what is destroyed. */
  lemma DestroyHolds(s: State, l: Label)
    requires Inv(s) && Enabled(s, l) && l.Destroy?
    ensures Holds(Apply(s, l).places, s.version, Current(s)) && s.ledger.landed == |s.ledger.log| - 1
    ensures s.places.vm.None? || Is(s.places.vm, s.version) ==>
      Apply(s, l).places.vm.None? || Is(Apply(s, l).places.vm, s.version)
  {
    hide PastInv, ClientInv, ThawInv, CopyOk, ClaimOk;
    assert Holds(s.places, s.version, s.ledger.log[|s.ledger.log| - 1].tier);
  }

  lemma LandKeeps(s: State, l: Label)
    requires Inv(s) && Enabled(s, l) && (l.Land? || l.Crash?) && Sound(s, l)
    ensures Inv(Apply(s, l))
  {
    hide PastInv, Holds, CopyOk, ClaimOk;
  }

  lemma ThawKeeps(s: State, l: Label)
    requires Inv(s) && Enabled(s, l) && (l.Restore? || l.Bind? || l.RemoveThawed?)
    ensures Inv(Apply(s, l))
  {
    PastKept(s, l);
    hide PastInv;
  }

  lemma ComingKeeps(s: State, l: Label)
    requires Inv(s) && Enabled(s, l)
    requires l.Pass? || l.GiveUp? || l.Touch? || l.Start? || l.Count? || l.Leave? || l.Chill?
    ensures Inv(Apply(s, l))
  {
    hide PastInv, Restorable, CopyOk;
    LiveIsRight(s);
    hide Holds;
  }

  lemma LiveIsRight(s: State)
    requires Inv(s)
    ensures Current(s) == Live ==> Is(s.places.vm, s.version)
  {
    hide OpInv, PastInv, ClientInv, ThawInv;
    assert Holds(s.places, s.version, s.ledger.log[|s.ledger.log| - 1].tier);
  }

  lemma WriteKeeps(s: State, l: Label)
    requires Inv(s) && Enabled(s, l) && l.Write?
    ensures Inv(Apply(s, l))
  {
    PastKept(s, l);
    hide PastInv, Chosen;
  }

  lemma ClientKeeps(s: State, l: Label)
    requires Inv(s) && Enabled(s, l) && IsClient(l)
    ensures Inv(Apply(s, l))
  {
    hide Inv, Enabled, Apply;
    if l.Write? {
      WriteKeeps(s, l);
    } else if l.Restore? || l.Bind? || l.RemoveThawed? {
      ThawKeeps(s, l);
    } else {
      ComingKeeps(s, l);
    }
  }

  lemma Keeps(s: State, l: Label)
    requires Inv(s) && Enabled(s, l) && Sound(s, l)
    ensures Inv(Apply(s, l))
  {
    hide Inv, Apply, Sound;
    if IsClient(l) {
      ClientKeeps(s, l);
    } else if l.Save? {
      SaveKeeps(s, l);
    } else if l.Clear? {
      ClearKeeps(s, l);
    } else if l.Flip? {
      FlipKeeps(s, l);
    } else if l.Destroy? {
      DestroyKeeps(s, l);
    } else if l.Land? || l.Crash? {
      LandKeeps(s, l);
    } else if l.BringUp? {
      BringUpKeeps(s, l);
    } else if l.Fail? {
      FailKeeps(s, l);
    } else if l.Check? {
      CheckKeeps(s, l);
    } else if l.Claim? {
      ClaimKeeps(s, l);
    } else {
      EvictKeeps(s, l);
    }
  }

  // ---- runs -----------------------------------------------------------------------------------

  ghost predicate IsPath(trace: seq<State>, labels: seq<Label>) {
    && |trace| == |labels| + 1
    && forall i :: 0 <= i < |labels| ==> Enabled(trace[i], labels[i]) && trace[i + 1] == Apply(trace[i], labels[i])
  }

  ghost predicate SoundFrom(trace: seq<State>, labels: seq<Label>, k: nat)
    requires |trace| == |labels| + 1
  {
    forall i :: k <= i < |labels| ==> Sound(trace[i], labels[i])
  }

  /** A run whose claims are made when it is safe to. */
  ghost predicate IsRun(trace: seq<State>, labels: seq<Label>) {
    IsPath(trace, labels) && Init(trace[0]) && SoundFrom(trace, labels, 0)
  }

  lemma InitInv(s: State)
    requires Init(s)
    ensures Inv(s)
  {
  }

  lemma {:induction false} PathKeeps(trace: seq<State>, labels: seq<Label>, n: nat)
    requires IsPath(trace, labels) && SoundFrom(trace, labels, 0) && Inv(trace[0]) && n < |trace|
    ensures Inv(trace[n])
  {
    hide Enabled, Apply, Inv, Sound;
    if n > 0 {
      PathKeeps(trace, labels, n - 1);
      Keeps(trace[n - 1], labels[n - 1]);
    }
  }

  ghost predicate CrashSafe(s: State) {
    s.ledger.landed < |s.ledger.log| && (!PutPending(s.ledger) ==> ReloadSafe(s))
  }

  lemma InvIsCrashSafe(s: State)
    requires Inv(s)
    ensures CrashSafe(s)
  {
  }

  /** Crash safety of the offload direction: at every moment of every run with safe
      claims, with crashes and restarts between any two steps, the tier in the file names
      a place that holds the schema's data, unless a restore's tier is still unwritten. */
  lemma OffloadIsCrashSafe(trace: seq<State>, labels: seq<Label>, n: nat)
    requires IsRun(trace, labels) && n < |trace|
    ensures CrashSafe(trace[n])
  {
    hide Enabled, Apply, Init, Sound, Inv;
    InitInv(trace[0]);
    PathKeeps(trace, labels, n);
    InvIsCrashSafe(trace[n]);
  }

  /** A VM disk is destroyed only once the file says the schema is no longer live; a
      local file is removed, other than by a thaw, only once the file says the schema is
      archived, or by a dump archive clearing its scratch while no tier in force names
      that file. */
  lemma DestroyedOnlyWhenDurable(trace: seq<State>, labels: seq<Label>, n: nat)
    requires IsRun(trace, labels) && n < |labels|
    ensures trace[n].ledger.landed < |trace[n].ledger.log|
    ensures
      var before, after := trace[n].places, trace[n + 1].places;
      var durable := trace[n].ledger.log[trace[n].ledger.landed].tier;
      && (before.vm.Some? && after.vm.None? ==> durable != Live)
      && (before.imageFile.Some? && after.imageFile.None? ==> labels[n].RemoveThawed? || durable == Archived)
      && (before.dumpFile.Some? && after.dumpFile.None? ==>
            || labels[n].RemoveThawed? || durable == Archived
            || (labels[n].Save? && trace[n].op.kind == DumpArchive && Current(trace[n]) != Frozen
                && (durable != Frozen || PutPending(trace[n].ledger))))
  {
    hide Init, Sound;
    InitInv(trace[0]);
    assert Inv(trace[n]) by {
      hide Inv, Enabled, Apply;
      PathKeeps(trace, labels, n);
    }
    assert Enabled(trace[n], labels[n]) && trace[n + 1] == Apply(trace[n], labels[n]);
    OnlyDestroyDestroys(trace[n], labels[n]);
  }

  lemma OnlyDestroyDestroys(s: State, l: Label)
    requires Inv(s) && Enabled(s, l)
    ensures
      var durable := s.ledger.log[s.ledger.landed].tier;
      var p, p' := s.places, Apply(s, l).places;
      && (p.vm.Some? && p'.vm.None? ==> durable != Live)
      && (p.imageFile.Some? && p'.imageFile.None? ==> l.RemoveThawed? || durable == Archived)
      && (p.dumpFile.Some? && p'.dumpFile.None? ==>
            || l.RemoveThawed? || durable == Archived
            || (l.Save? && s.op.kind == DumpArchive && Current(s) != Frozen
                && (durable != Frozen || PutPending(s.ledger))))
  {
    hide HoldInv, ClientInv, ThawInv, PastInv, CopyOk, Restorable, Chosen, Apply;
    if IsClient(l) || l.Land? || l.Crash? {
      ClientsDestroyNothing(s, l);
    } else {
      OpDestroys(s, l);
    }
  }

  lemma ClientsDestroyNothing(s: State, l: Label)
    requires Enabled(s, l) && (IsClient(l) || l.Land? || l.Crash?)
    ensures
      var p, p' := s.places, Apply(s, l).places;
      && (p.vm.Some? ==> p'.vm.Some?)
      && (l.RemoveThawed? || (p'.dumpFile == p.dumpFile && p'.imageFile == p.imageFile))
  {
    hide Restorable, Chosen;
  }

  lemma OpDestroys(s: State, l: Label)
    requires Enabled(s, l) && !IsClient(l) && !l.Land? && !l.Crash?
    ensures
      var p, p' := s.places, Apply(s, l).places;
      && (p.vm.Some? && p'.vm.None? ==> l.Destroy? && FromVm(s.op.kind))
      && (p.imageFile.Some? && p'.imageFile.None? ==> l.Destroy? && s.op.kind == PromoteImage)
      && (p.dumpFile.Some? && p'.dumpFile.None? ==>
            (l.Destroy? && s.op.kind == PromoteDump) || (l.Save? && s.op.kind == DumpArchive))
  {
    hide Restorable, Chosen;
  }

  // ---- whose archive it is -----------------------------------------------------------------------

  /** If the tier is `Archived`, the object a restore takes is the one written by the
      operation that set it. */
  predicate Named(p: Places, m: Mark) { m.tier == Archived ==> Chosen(p).Some? && Chosen(p).value.author == m.author }

  predicate NamedInv(p: Places, ledger: Ledger) {
    forall i :: Oldest(ledger) <= i < |ledger.log| ==> Named(p, ledger.log[i])
  }

  /** No object is by an operation above `n`. */
  predicate AuthorsUpTo(p: Places, n: int) {
    (p.dump.Some? ==> p.dump.value.author <= n) && (p.image.Some? ==> p.image.value.author <= n)
  }

  /** An operation writes one object at most. */
  predicate TwoAuthors(p: Places) { p.dump.Some? && p.image.Some? ==> p.dump.value.author != p.image.value.author }

  predicate AuthorInv(p: Places, ledger: Ledger, op: Op, ops: nat) {
    && TwoAuthors(p) && AuthorsUpTo(p, ops)
    && (forall i :: 0 <= i < |ledger.log| ==> ledger.log[i].author <= ops)
    && (op.Op? ==> op.author == ops > 0)
    && (op.Op? && !op.stage.Flipped? ==> forall i :: 0 <= i < |ledger.log| ==> ledger.log[i].author < ops)
    && (op.Op? && op.stage in {Claimed, Evicted, Ready, Halted} ==> AuthorsUpTo(p, ops - 1))
  }

  /** No checkout overlaps the operation, and the tier is the one it looked at. */
  predicate SuitInv(op: Op, cl: Clients, t: Tier) {
    op.Op? && !op.stage.Flipped? ==>
      NoneOnTheWay(cl) && ((op.kind == PromoteDump && op.stage == Claimed) || Suits(op.kind, t))
  }

  /** While a restore from S3 is unwritten: what it restored, and that no other object is
      by that object's author. */
  predicate SnapInv(p: Places, version: nat, ledger: Ledger, atPut: Snapshot, op: Op)
    requires ledger.landed < |ledger.log|
  {
    PutPending(ledger) && ledger.log[ledger.landed].tier == Archived ==>
      var m := ledger.log[ledger.landed];
      && atPut.chosen.Some? && atPut.chosen.value.content == Version(atPut.version) && atPut.version <= version
      && atPut.chosen.value.author == m.author
      && (p.dump.Some? && p.dump.value.author == m.author ==> p.dump == atPut.chosen)
      && (p.image.Some? && p.image.value.author == m.author ==> p.image == atPut.chosen)
      && (op.Op? ==> m.author < op.author)
  }

  predicate AuthInv(s: State)
    requires s.ledger.landed < |s.ledger.log|
  {
    && NamedInv(s.places, s.ledger)
    && AuthorInv(s.places, s.ledger, s.op, s.ops)
    && SuitInv(s.op, s.clients, Current(s))
    && SnapInv(s.places, s.version, s.ledger, s.atPut, s.op)
  }

  /** Authorship at the start: operations are numbered on from there. */
  predicate Authored(s: State) {
    && |s.ledger.log| == 1 && Named(s.places, s.ledger.log[0]) && s.ledger.log[0].author <= s.ops
    && TwoAuthors(s.places) && AuthorsUpTo(s.places, s.ops)
  }

  lemma OrderlyIsSound(s: State, l: Label)
    requires Inv(s) && Enabled(s, l) && Orderly(s, l)
    ensures Sound(s, l)
  {
    if l.Claim? {
      UnchangedIsOk(s, l.look);
    }
  }

  lemma NamesKept(s: State, l: Label)
    requires Inv(s) && AuthInv(s) && Enabled(s, l) && Orderly(s, l)
    ensures NamedInv(Apply(s, l).places, Apply(s, l).ledger)
  {
    hide PastInv, ClientInv, ThawInv, HoldInv, SnapInv, Apply;
    if IsClient(l) || l.Land? || l.Crash? {
      ClientNamesKept(s, l);
    } else {
      OpNamesKept(s, l);
    }
  }

  lemma ClientNamesKept(s: State, l: Label)
    requires LedgerInv(s.ledger, s.op) && NamedInv(s.places, s.ledger) && Enabled(s, l) && Orderly(s, l)
    requires IsClient(l) || l.Land? || l.Crash?
    ensures NamedInv(Apply(s, l).places, Apply(s, l).ledger)
  {
    hide Restorable;
  }

  lemma CopyNamesKept(s: State, l: Label)
    requires Inv(s) && AuthInv(s) && Enabled(s, l) && (l.Save? || l.Clear?)
    ensures NamedInv(Apply(s, l).places, Apply(s, l).ledger)
  {
    hide PastInv, ClientInv, ThawInv, HoldInv, SnapInv, Restorable, VmInv, Chosen;
  }

  lemma FlipNamesKept(s: State, l: Label)
    requires Inv(s) && AuthInv(s) && Enabled(s, l) && l.Flip?
    ensures NamedInv(Apply(s, l).places, Apply(s, l).ledger)
  {
    hide PastInv, ClientInv, ThawInv, HoldInv, SnapInv, Restorable, VmInv;
  }

  lemma OpNamesKept(s: State, l: Label)
    requires Inv(s) && AuthInv(s) && Enabled(s, l) && !IsClient(l) && !l.Land? && !l.Crash?
    ensures NamedInv(Apply(s, l).places, Apply(s, l).ledger)
  {
    if l.Save? || l.Clear? {
      CopyNamesKept(s, l);
    } else if l.Flip? {
      FlipNamesKept(s, l);
    } else {
      OtherNamesKept(s, l);
    }
  }

  /** The other steps leave S3 and the tiers alone. */
  lemma OtherNamesKept(s: State, l: Label)
    requires s.ledger.landed < |s.ledger.log| && NamedInv(s.places, s.ledger) && Enabled(s, l) && !IsClient(l)
    requires !l.Land? && !l.Crash? && !l.Save? && !l.Clear? && !l.Flip?
    ensures NamedInv(Apply(s, l).places, Apply(s, l).ledger)
  {
    var s' := Apply(s, l);
    assert s'.ledger == s.ledger && s'.places.dump == s.places.dump && s'.places.image == s.places.image;
  }

  lemma ClientAuthorsKept(s: State, l: Label)
    requires AuthorInv(s.places, s.ledger, s.op, s.ops) && Enabled(s, l) && IsClient(l)
    ensures AuthorInv(Apply(s, l).places, Apply(s, l).ledger, Apply(s, l).op, Apply(s, l).ops)
  {
    hide Chosen, Restorable;
  }

  lemma OpAuthorsKept(s: State, l: Label)
    requires AuthorInv(s.places, s.ledger, s.op, s.ops) && Enabled(s, l) && !IsClient(l)
    ensures AuthorInv(Apply(s, l).places, Apply(s, l).ledger, Apply(s, l).op, Apply(s, l).ops)
  {
    hide Chosen, Restorable;
  }

  lemma AuthorsKept(s: State, l: Label)
    requires AuthorInv(s.places, s.ledger, s.op, s.ops) && Enabled(s, l)
    ensures AuthorInv(Apply(s, l).places, Apply(s, l).ledger, Apply(s, l).op, Apply(s, l).ops)
  {
    hide AuthorInv, Enabled, Apply;
    if IsClient(l) {
      ClientAuthorsKept(s, l);
    } else {
      OpAuthorsKept(s, l);
    }
  }

  lemma OpSuitKept(s: State, l: Label)
    requires Inv(s) && SuitInv(s.op, s.clients, Current(s)) && Enabled(s, l) && Orderly(s, l) && !IsClient(l)
    ensures Apply(s, l).ledger.log != [] && SuitInv(Apply(s, l).op, Apply(s, l).clients, Current(Apply(s, l)))
  {
    hide PastInv, HoldInv, CopyOk, ClaimOk, Restorable, Chosen, OpInv, ClientInv, ThawInv, Copied;
  }

  lemma ClientSuitKept(s: State, l: Label)
    requires Inv(s) && SuitInv(s.op, s.clients, Current(s)) && Enabled(s, l) && IsClient(l)
    ensures Apply(s, l).ledger.log != [] && SuitInv(Apply(s, l).op, Apply(s, l).clients, Current(Apply(s, l)))
  {
    hide PastInv, HoldInv, Restorable, Chosen, OpInv, ThawInv, LedgerInv, Suits;
  }

  lemma SuitKept(s: State, l: Label)
    requires Inv(s) && SuitInv(s.op, s.clients, Current(s)) && Enabled(s, l) && Orderly(s, l)
    ensures Apply(s, l).ledger.log != [] && SuitInv(Apply(s, l).op, Apply(s, l).clients, Current(Apply(s, l)))
  {
    assert s.ledger.log != [];
    hide Inv, Enabled, Apply, SuitInv, Orderly;
    if IsClient(l) {
      ClientSuitKept(s, l);
    } else {
      OpSuitKept(s, l);
    }
  }

  lemma ClientSnapKept(s: State, l: Label)
    requires Inv(s) && AuthInv(s) && Enabled(s, l) && IsClient(l) && Inv(Apply(s, l))
    ensures SnapInv(Apply(s, l).places, Apply(s, l).version, Apply(s, l).ledger, Apply(s, l).atPut, Apply(s, l).op)
  {
    hide PastInv, ClientInv, OpInv, ThawInv, SuitInv;
  }

  lemma OpSnapKept(s: State, l: Label)
    requires Inv(s) && AuthInv(s) && Enabled(s, l) && !IsClient(l) && Orderly(s, l) && Inv(Apply(s, l))
    ensures SnapInv(Apply(s, l).places, Apply(s, l).version, Apply(s, l).ledger, Apply(s, l).atPut, Apply(s, l).op)
  {
    hide PastInv, ClientInv, OpInv, ThawInv, HoldInv, NamedInv, SuitInv, Chosen, Restorable;
  }

  lemma SnapKept(s: State, l: Label)
    requires Inv(s) && AuthInv(s) && Enabled(s, l) && Orderly(s, l) && Inv(Apply(s, l))
    ensures SnapInv(Apply(s, l).places, Apply(s, l).version, Apply(s, l).ledger, Apply(s, l).atPut, Apply(s, l).op)
  {
    assert Apply(s, l).ledger.landed < |Apply(s, l).ledger.log| && s.ledger.landed < |s.ledger.log|;
    hide Inv, AuthInv, Enabled, Apply, SnapInv, Orderly;
    if IsClient(l) {
      ClientSnapKept(s, l);
    } else {
      OpSnapKept(s, l);
    }
  }

  lemma AuthKept(s: State, l: Label)
    requires Inv(s) && AuthInv(s) && Enabled(s, l) && Orderly(s, l)
    ensures Inv(Apply(s, l)) && AuthInv(Apply(s, l))
  {
    assert Inv(Apply(s, l)) by {
      hide Inv, Apply, Enabled;
      OrderlyIsSound(s, l);
      Keeps(s, l);
    }
    NamesKept(s, l);
    AuthorsKept(s, l);
    SuitKept(s, l);
    SnapKept(s, l);
    hide Apply, Enabled, NamedInv, AuthorInv, SuitInv, SnapInv, OpInv, HoldInv, ClientInv, PastInv, ThawInv;
  }

  ghost predicate OrderlyFrom(trace: seq<State>, labels: seq<Label>, k: nat)
    requires |trace| == |labels| + 1
  {
    forall i :: k <= i < |labels| ==> Orderly(trace[i], labels[i])
  }

  /** A run in which no claim overlaps a checkout or comes after the tier has changed. */
  ghost predicate IsOrderlyRun(trace: seq<State>, labels: seq<Label>) {
    IsPath(trace, labels) && Init(trace[0]) && Authored(trace[0]) && OrderlyFrom(trace, labels, 0)
  }

  lemma {:induction false} OrderlyKeeps(trace: seq<State>, labels: seq<Label>, n: nat)
    requires IsOrderlyRun(trace, labels) && n < |trace|
    ensures Inv(trace[n]) && AuthInv(trace[n])
  {
    if n == 0 {
      InitInv(trace[0]);
    } else {
      hide Enabled, Apply, Inv, AuthInv, Orderly, Init, Authored;
      OrderlyKeeps(trace, labels, n - 1);
      AuthKept(trace[n - 1], labels[n - 1]);
    }
  }

  /** The restore takes the object of the operation that gave this mark, and it holds
      the data. */
  predicate PicksFor(s: State, m: Mark) {
    Chosen(s.places).Some? && Chosen(s.places).value.author == m.author
    && Chosen(s.places).value.content == Version(s.version)
  }

  /** After any mix of archives, promotions, restores, failed attempts and crashes: when a
      checkout finds the tier `Archived` and both HEADs answer, its restore takes the
      object written by the operation that set it, and it holds the data. */
  lemma RestorePicksTheNewest(trace: seq<State>, labels: seq<Label>, n: nat)
    requires IsOrderlyRun(trace, labels) && n < |trace| && trace[n].ledger.log != [] && Current(trace[n]) == Archived
    ensures PicksFor(trace[n], trace[n].ledger.log[|trace[n].ledger.log| - 1])
  {
    OrderlyKeeps(trace, labels, n);
    hide Enabled, Apply, Init, Orderly, Chosen, AuthorInv, SuitInv, SnapInv, OpInv, ClientInv, ThawInv, PastInv;
  }

  /** Of the tier in the file this holds exactly when no restore is waiting to be written,
      or nobody has written since that restore and the object it took is still the one
      to take. */
  lemma DurablePickExactly(trace: seq<State>, labels: seq<Label>, n: nat)
    requires IsOrderlyRun(trace, labels) && n < |trace|
    requires trace[n].ledger.landed < |trace[n].ledger.log|
    requires trace[n].ledger.log[trace[n].ledger.landed].tier == Archived
    ensures
      var s := trace[n];
      PicksFor(s, s.ledger.log[s.ledger.landed]) <==>
        !PutPending(s.ledger) || (s.version == s.atPut.version && Chosen(s.places) == s.atPut.chosen)
  {
    OrderlyKeeps(trace, labels, n);
    hide Enabled, Apply, Init, Orderly, AuthorInv, SuitInv, OpInv, ClientInv, ThawInv, PastInv;
  }

  // ---- when a HEAD does not answer ----------------------------------------------------------------

  /** What a HEAD may say of an object. */
  predicate SaysOf(h: Head, o: Option<Obj>) { h.Answer? ==> h.len == ObjLen(o) }

  /** With trouble on the line, the pick is still the right one exactly when the HEAD
      that decides it answers: the image's for an image archive; for a dump archive
      the dump's, or else the image's must not turn up a plausible older image. */
  lemma PickSurvivesTroubleExactly(p: Places, dump: Head, image: Head)
    requires SaysOf(dump, p.dump) && SaysOf(image, p.image) && TwoAuthors(p)
    requires PlausibleDump(ObjLen(p.dump)) || PlausibleImage(ObjLen(p.image))
    ensures
      Picked(p, PickRestore(dump, image)) == Chosen(p) <==>
        if PlausibleDump(ObjLen(p.dump))
        then dump.Answer? || !(image.Answer? && PlausibleImage(ObjLen(p.image)))
        else image.Answer?
  {
  }

  // ---- the thaw direction -----------------------------------------------------------------------------

  /** A thaw removes the local file right after a `put` it does not wait for: a
      restart from there finds the data exactly when that `put` has been written. */
  lemma ThawIsSafeExactly(s: State)
    requires Inv(s) && s.clients.thaw.Bound? && s.clients.thaw.source in {Frozen, Compacted}
    ensures
      var s' := Apply(s, RemoveThawed(true));
      ReloadSafe(s') <==> !PutPending(s'.ledger)
  {
  }

  /** And a session that writes before it: the file still names the older copy. */
  lemma WriteBeforePutLands(s: State)
    requires Inv(s) && PutPending(s.ledger) && s.clients.thaw.Bound? && s.clients.active > 0
    ensures
      var s' := Apply(s, Write);
      !ReloadSafe(s')
  {
  }
}
