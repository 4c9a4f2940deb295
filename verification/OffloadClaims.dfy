/**
 * When it is safe to claim a schema for an offload (src/registry.rs). The offload
 * bodies look at the tier before they claim, and their evictions see counted sessions
 * only; for every kind of operation this module has the exact condition under which
 * a claim is safe whatever follows, with the run that loses the data otherwise.
 */
module OffloadClaims {
  import opened Text
  import opened RegistryText
  import opened Offload

  /** Whatever happens after this claim, as long as later ones are made when it is safe
      to and no crash comes while a restore is unwritten. */
  ghost predicate SafeAfter(s: State, l: Label) {
    forall trace, labels ::
      (IsPath(trace, labels) && labels != [] && trace[0] == s && labels[0] == l && SoundFrom(trace, labels, 1)) ==>
      forall i :: 0 <= i < |trace| ==> CrashSafe(trace[i])
  }

  // ---- reaching by sound steps ------------------------------------------------------------------

  ghost predicate Ends(trace: seq<State>, labels: seq<Label>, s: State, t: State) {
    IsPath(trace, labels) && SoundFrom(trace, labels, 0) && trace[0] == s && trace[|labels|] == t
  }

  ghost predicate Reach(s: State, t: State) { exists trace, labels :: Ends(trace, labels, s, t) }

  lemma Here(s: State)
    ensures Reach(s, s)
  {
    assert Ends([s], [], s, s);
  }

  lemma On(s: State, t: State, l: Label)
    requires Reach(s, t) && Enabled(t, l) && Sound(t, l)
    ensures Reach(s, Apply(t, l))
  {
    hide Enabled, Apply, Sound;
    var trace, labels :| Ends(trace, labels, s, t);
    var trace', labels' := trace + [Apply(t, l)], labels + [l];
    forall i | 0 <= i < |labels'|
      ensures Enabled(trace'[i], labels'[i]) && trace'[i + 1] == Apply(trace'[i], labels'[i])
      ensures Sound(trace'[i], labels'[i])
    {
      if i < |labels| {
        assert trace'[i] == trace[i] && labels'[i] == labels[i] && trace'[i + 1] == trace[i + 1];
      }
    }
    assert Ends(trace', labels', s, Apply(t, l));
  }

  /** A claim, and sound steps to a state that is not crash safe. */
  lemma LosesAfter(s: State, l: Label, t: State)
    requires Enabled(s, l) && Reach(Apply(s, l), t) && !CrashSafe(t)
    ensures !SafeAfter(s, l)
  {
    hide Enabled, Apply, CrashSafe, Sound;
    var trace, labels :| Ends(trace, labels, Apply(s, l), t);
    var trace', labels' := [s] + trace, [l] + labels;
    assert trace'[0] == s && labels'[0] == l && |trace'| == |trace| + 1 && |labels'| == |labels| + 1;
    forall i | 1 <= i < |labels'|
      ensures Enabled(trace'[i], labels'[i]) && trace'[i + 1] == Apply(trace'[i], labels'[i])
      ensures Sound(trace'[i], labels'[i])
    {
      var j := i - 1;
      assert trace'[i] == trace[j] && labels'[i] == labels[j] && trace'[i + 1] == trace[j + 1];
    }
    assert trace'[1] == trace[0] == Apply(s, l);
    assert IsPath(trace', labels') && SoundFrom(trace', labels', 1);
    assert trace'[|labels'|] == trace[|labels|] == t;
  }

  // ---- stretches of a run ------------------------------------------------------------------------

  lemma {:induction false} SessionsLeave(s: State, m: State, n: nat) returns (t: State)
    requires Reach(s, m) && m.ledger.log != [] && m.clients.active == n
    ensures t == m.(clients := m.clients.(active := 0)) && Reach(s, t)
    decreases n
  {
    if n == 0 {
      t := m;
    } else {
      On(s, m, Leave);
      t := SessionsLeave(s, Apply(m, Leave), n - 1);
    }
  }

  lemma {:induction false} EnteredGiveUp(s: State, m: State, n: nat) returns (t: State)
    requires Reach(s, m) && m.ledger.log != [] && m.clients.touched == n
    ensures t == m.(clients := m.clients.(touched := 0)) && Reach(s, t)
    decreases n
  {
    if n == 0 {
      t := m;
    } else {
      On(s, m, GiveUp(true));
      t := EnteredGiveUp(s, Apply(m, GiveUp(true)), n - 1);
    }
  }

  /** What a checkout under way needs to get to a session. */
  predicate CanArrive(m: State) {
    && m.ledger.log != []
    && (m.clients.thaw.Bound? ==> Current(m) == Live)
    && if m.clients.touched > 0 || m.clients.thaw.Bound? then m.clients.up && m.places.vm.Some?
       else
         && m.clients.passing > 0
         && if m.clients.thaw.Restored? then m.clients.up && m.places.vm.Some?
            else Restorable(m.places, Current(m)).Some?
  }

  predicate SameOp(a: Op, b: Op) {
    a.Op? == b.Op? && (a.Op? ==> a.kind == b.kind && a.stage == b.stage && a.author == b.author)
  }

  /** The operation, the copies and the durable tier are as they were. */
  predicate StandsStill(m: State, t: State) {
    && SameOp(m.op, t.op) && t.ops == m.ops && t.pending == m.pending
    && t.places == m.places.(vm := t.places.vm, disks := t.places.disks)
    && t.ledger.landed == m.ledger.landed && |m.ledger.log| <= |t.ledger.log|
    && (t.ledger.lastPut == m.ledger.lastPut || t.ledger.lastPut < |t.ledger.log|)
  }

  predicate HasEntry(t: State) {
    t.clients.touched > 0 && t.clients.up && t.places.vm.Some? && t.ledger.log != []
  }

  /** Its tier is live, no restore is left over, and an evicted schema stays out of the map. */
  predicate Served(m: State, t: State)
    requires t.ledger.log != []
  {
    && Current(t) == Live && t.clients.thaw == NoThaw && t.clients.active == m.clients.active
    && (Evicting(m.op) ==> t.clients.warm == m.clients.warm)
  }

  /** A checkout under way gets to a session on a running VM and writes, the operation
      standing still. A restore keeps its local file. */
  lemma ArrivesAndWrites(s: State, m: State) returns (t: State)
    requires Reach(s, m) && CanArrive(m)
    ensures Reach(s, t) && t.version == m.version + 1 && StandsStill(m, t)
  {
    t := m;
    if t.clients.touched == 0 {
      hide Restorable;
      t := GetsAnEntry(s, t);
    }
    On(s, t, Count);
    t := Apply(t, Count);
    On(s, t, Write);
    t := Apply(t, Write);
  }

  lemma GetsAnEntry(s: State, m: State) returns (t: State)
    requires Reach(s, m) && CanArrive(m) && m.clients.touched == 0
    ensures Reach(s, t) && HasEntry(t) && t.version == m.version && StandsStill(m, t)
    ensures t.places.vm == if m.clients.thaw == NoThaw then Restorable(m.places, Current(m)) else m.places.vm
    ensures Served(m, t) && (PastInv(m.places, m.version) ==> PastInv(t.places, t.version))
  {
    hide Chosen;
    if m.clients.thaw == NoThaw && Current(m) == Live {
      On(s, m, Start);
      t := Apply(m, Start);
    } else if m.clients.thaw == NoThaw {
      On(s, m, Restore);
      t := Apply(m, Restore);
      if PastInv(m.places, m.version) {
        PastKept(m, Restore);
      }
      hide Restorable, PastInv;
      t := ThawEnds(s, t);
    } else {
      hide Restorable;
      t := ThawEnds(s, m);
    }
  }

  lemma ThawEnds(s: State, m: State) returns (t: State)
    requires Reach(s, m) && m.ledger.log != [] && m.clients.thaw != NoThaw
    requires (m.clients.thaw.Restored? ==> m.clients.passing > 0) && m.clients.up && m.places.vm.Some?
    requires m.clients.thaw.Bound? ==> Current(m) == Live
    ensures Reach(s, t) && HasEntry(t) && t.version == m.version && StandsStill(m, t)
    ensures t.places == m.places && Served(m, t)
  {
    hide Restorable, Chosen;
    t := m;
    if t.clients.thaw.Restored? {
      On(s, t, Bind);
      t := Apply(t, Bind);
    }
    On(s, t, RemoveThawed(false));
    t := Apply(t, RemoveThawed(false));
  }

  /** The operation's copy is not the data: once the tier is flipped and written, a
      restart does not find it. */
  lemma FlipsAndLands(s: State, m: State) returns (t: State)
    requires Reach(s, m) && m.ledger.log != [] && m.ledger.landed < |m.ledger.log| && m.ledger.lastPut < |m.ledger.log|
    requires m.op.Op? && (m.op.stage.Saved? || m.op.stage.Cleared?) && Plausible(m.op.kind, m.op.stage.len)
    requires m.op.stage.Cleared? ==> AsImage(m.op.kind) && m.places.dump.None?
    requires !Is(CopyOf(m.places, m.op.kind), m.version)
    requires !AsImage(m.op.kind) && m.op.kind != FreezeOp && m.op.kind != CompactOp ==>
      m.places.dump.Some? && m.places.dump.value.len >= MIN_DUMP_BYTES
    requires AsImage(m.op.kind) ==> m.places.image.Some? && m.places.image.value.len >= MIN_IMAGE_BYTES
    ensures Reach(s, t) && !CrashSafe(t)
  {
    t := m;
    if AsImage(t.op.kind) && t.op.stage.Saved? {
      On(s, t, Clear);
      t := Apply(t, Clear);
    }
    On(s, t, Flip);
    t := Apply(t, Flip);
    var at := |t.ledger.log| - 1;
    On(s, t, Land(at));
    t := Apply(t, Land(at));
  }

  /** What an operation of this kind has written. */
  function CopyOf(p: Places, k: Kind): Option<Content> {
    match k
    case FreezeOp => p.dumpFile
    case CompactOp => p.imageFile
    case DumpArchive => ContentOf(p.dump)
    case PromoteDump => ContentOf(p.dump)
    case _ => ContentOf(p.image)
  }

  lemma {:induction false} PassersGiveUp(s: State, m: State, n: nat) returns (t: State)
    requires Reach(s, m) && m.ledger.log != [] && m.clients.passing == n && m.clients.thaw == NoThaw
    ensures t == m.(clients := m.clients.(passing := 0)) && Reach(s, t)
    decreases n
  {
    if n == 0 {
      t := m;
    } else {
      On(s, m, GiveUp(false));
      t := PassersGiveUp(s, Apply(m, GiveUp(false)), n - 1);
    }
  }

  // ---- the ways to lose ---------------------------------------------------------------------------

  const LEN: nat := MIN_IMAGE_BYTES

  /** The ledger is sane and no copy is ahead. */
  predicate Sane(m: State) {
    m.ledger.landed < |m.ledger.log| && m.ledger.lastPut < |m.ledger.log| && PastInv(m.places, m.version)
  }

  lemma InvSane(s: State)
    requires Inv(s)
    ensures Sane(s) && Holds(s.places, s.version, Current(s))
  {
  }

  function AfterClaim(s: State, look: Look): State {
    s.(pending := s.pending - multiset{look}, ops := s.ops + 1, op := Op(look.kind, Claimed, s.ops + 1, look.vm))
  }

  lemma Claims(s: State, look: Look)
    requires Enabled(s, Claim(look))
    ensures Apply(s, Claim(look)) == AfterClaim(s, look) && Reach(AfterClaim(s, look), AfterClaim(s, look))
  {
    Here(AfterClaim(s, look));
  }

  /** The copy is made. */
  lemma Copies(s: State, m: State, len: nat, scratch: bool) returns (t: State)
    requires Reach(s, m) && m.ledger.log != [] && m.op.Op? && AtCopy(m.op, m.places, m.clients.up)
    requires Source(m.places, m.op).Some? && (m.op.kind == PromoteDump ==> Current(m) == Frozen)
    requires MeasuredFirst(m.op.kind) ==> Plausible(m.op.kind, len)
    ensures Reach(s, t)
    ensures
      && t == m.(op := m.op.(stage := Saved(len)),
                 places := Copied(m.places, m.op, Source(m.places, m.op).value, len, scratch))
  {
    hide Reach;
    On(s, m, Save(len, scratch));
    t := Apply(m, Save(len, scratch));
  }

  lemma Halts(s: State, m: State) returns (t: State)
    requires Reach(s, m) && m.ledger.log != [] && m.op.Op? && m.op.kind == ImageArchive && m.op.stage == Evicted
    ensures Reach(s, t) && t == m.(op := m.op.(stage := Halted), clients := Stopped(m.clients))
  {
    hide Reach;
    On(s, m, Halt(true));
    t := Apply(m, Halt(true));
  }

  /** Compaction finds no warm entry. */
  lemma EvictsCold(s: State, m: State) returns (t: State)
    requires Reach(s, m) && m.ledger.log != [] && m.op.Op? && m.op.kind == CompactOp && m.op.stage == Claimed
    requires !m.clients.warm
    ensures Reach(s, t) && t == m.(op := m.op.(stage := Evicted, target := VmId(m.places)))
  {
    hide Reach;
    On(s, m, Evict);
    t := Apply(m, Evict);
  }

  /** A dump of the running VM is taken and then a checkout under way writes. */
  lemma DumpThenWrite(s: State, m: State) returns (t: State)
    requires Reach(s, m) && Sane(m) && m.op.Op? && (m.op.kind == FreezeOp || m.op.kind == DumpArchive)
    requires m.op.stage == Ready && IsCurrent(m.places, m.op.target) && m.clients.up
    requires CanArrive(m) && !NoneOnTheWay(m.clients)
    ensures Reach(s, t) && !CrashSafe(t)
  {
    hide CrashSafe, Enabled, Apply, Reach;
    t := Copies(s, m, LEN, false);
    assert CanArrive(t);
    var saved := t;
    t := ArrivesAndWrites(s, t);
    hide Restorable, Chosen, CanArrive;
    assert CopyOf(t.places, t.op.kind) == CopyOf(saved.places, saved.op.kind) == m.places.vm;
    t := FlipsAndLands(s, t);
  }

  /** The eviction, once no session is counted. */
  lemma EvictsIdle(s: State, m: State) returns (t: State)
    requires Reach(s, m) && m.ledger.log != [] && m.op.Op? && FromVm(m.op.kind) && m.op.kind != CompactOp
    requires m.op.stage == Claimed && m.clients.active == 0
    ensures
      var target := if m.op.kind == ImageArchive then m.op.target else VmId(m.places);
      Reach(s, t) && t == m.(op := m.op.(stage := Evicted, target := target), clients := m.clients.(warm := false))
  {
    hide Reach;
    On(s, m, Evict);
    t := Apply(m, Evict);
  }

  /** The claim, every session leaving, and the eviction. */
  lemma Evicts(s: State, look: Look) returns (t: State)
    requires Inv(s) && Enabled(s, Claim(look)) && FromVm(look.kind) && look.kind != CompactOp
    ensures Reach(Apply(s, Claim(look)), t)
    ensures
      var target := if look.kind == ImageArchive then look.vm else VmId(s.places);
      t == s.(pending := s.pending - multiset{look}, ops := s.ops + 1,
              op := Op(look.kind, Evicted, s.ops + 1, target),
              clients := s.clients.(active := 0, warm := false))
  {
    Claims(s, look);
    assert s.ledger.log != [];
    hide Inv, Enabled, Apply, Reach;
    var c := AfterClaim(s, look);
    t := SessionsLeave(c, c, c.clients.active);
    t := EvictsIdle(c, t);
  }

  lemma BringsUp(s: State, m: State) returns (t: State)
    requires Reach(s, m) && m.ledger.log != [] && m.op.Op? && (m.op.kind == FreezeOp || m.op.kind == DumpArchive)
    requires m.op.stage == Evicted
    ensures
      var p := if m.places.vm.Some? then m.places else NewVm(m.places, Blank);
      && Reach(s, t)
      && t == m.(op := m.op.(stage := Ready, target := VmId(p)), clients := m.clients.(up := true), places := p)
  {
    hide Reach;
    On(s, m, BringUp);
    t := Apply(m, BringUp);
  }

  /** And the VM up for a dump. */
  lemma GetsReady(s: State, look: Look) returns (t: State)
    requires Inv(s) && Enabled(s, Claim(look)) && (look.kind == FreezeOp || look.kind == DumpArchive)
    ensures Reach(Apply(s, Claim(look)), t)
    ensures
      var p := if s.places.vm.Some? then s.places else NewVm(s.places, Blank);
      t == s.(pending := s.pending - multiset{look}, ops := s.ops + 1,
              op := Op(look.kind, Ready, s.ops + 1, VmId(p)),
              clients := s.clients.(active := 0, warm := false, up := true), places := p)
  {
    t := Evicts(s, look);
    Claims(s, look);
    assert s.ledger.log != [];
    hide Inv, Reach;
    t := BringsUp(AfterClaim(s, look), t);
  }

  lemma InvCanArrive(s: State)
    requires Inv(s) && !NoneOnTheWay(s.clients)
    ensures CanArrive(s)
  {
    hide OpInv, PastInv;
    assert Holds(s.places, s.version, s.ledger.log[|s.ledger.log| - 1].tier);
  }

  /** A checkout is on its way when a freeze or a dump archive claims. */
  lemma OverlappedDumpLoses(s: State, look: Look)
    requires Inv(s) && Enabled(s, Claim(look)) && (look.kind == FreezeOp || look.kind == DumpArchive)
    requires !NoneOnTheWay(s.clients)
    ensures !SafeAfter(s, Claim(look))
  {
    var m := GetsReady(s, look);
    InvSane(s);
    InvCanArrive(s);
    hide Inv, SafeAfter, Enabled, Apply, CrashSafe;
    assert CanArrive(m);
    var t := DumpThenWrite(Apply(s, Claim(look)), m);
    LosesAfter(s, Claim(look), t);
  }

  /** The VM is gone when a freeze or a dump archive claims: a fresh one is dumped. */
  lemma WrongDumpLoses(s: State, look: Look)
    requires Inv(s) && Enabled(s, Claim(look)) && (look.kind == FreezeOp || look.kind == DumpArchive)
    requires s.places.vm.None?
    ensures !SafeAfter(s, Claim(look))
  {
    var m := GetsReady(s, look);
    InvSane(s);
    Claims(s, look);
    hide Inv, SafeAfter, CrashSafe, Apply, Enabled, Reach;
    var c := AfterClaim(s, look);
    var t := Copies(c, m, LEN, false);
    t := FlipsAndLands(c, t);
    LosesAfter(s, Claim(look), t);
  }

  /** A dump archive clears its scratch over the schema's frozen dump. */
  lemma ScratchLoses(s: State, look: Look)
    requires Inv(s) && look.kind == DumpArchive && Enabled(s, Claim(look)) && Current(s) == Frozen
    ensures !SafeAfter(s, Claim(look))
  {
    var m := GetsReady(s, look);
    assert !PutPending(s.ledger) && s.ledger.log[s.ledger.landed].tier == Frozen;
    Claims(s, look);
    hide Inv, SafeAfter, Apply, Enabled, Reach;
    var t := Copies(AfterClaim(s, look), m, LEN, true);
    LosesAfter(s, Claim(look), t);
  }

  /** A dump too small to be chosen overwrites the one that was, beside an older image. */
  lemma SmallDumpLoses(s: State, look: Look)
    requires Inv(s) && look.kind == DumpArchive && Enabled(s, Claim(look))
    requires !ImageWillDo(s.places, s.version, Current(s))
    ensures !SafeAfter(s, Claim(look))
  {
    var m := GetsReady(s, look);
    assert !PutPending(s.ledger) && s.ledger.log[s.ledger.landed].tier == Archived;
    Claims(s, look);
    hide Inv, SafeAfter, Apply, Enabled, Reach;
    var t := Copies(AfterClaim(s, look), m, 0, false);
    LosesAfter(s, Claim(look), t);
  }

  /** A restore has superseded the VM an image archive looked at, whose disk is still there:
      what was written since, or is yet to be by a session, is not on it. */
  lemma SupersededImageLoses(s: State, look: Look)
    requires Inv(s) && look.kind == ImageArchive && Enabled(s, Claim(look))
    requires !IsCurrent(s.places, look.vm) && DiskOf(s.places, look.vm).Some?
    requires !Is(DiskOf(s.places, look.vm), s.version) || s.clients.active > 0
    ensures !SafeAfter(s, Claim(look))
  {
    InvSane(s);
    ClientFacts(s);
    Claims(s, look);
    hide Inv, SafeAfter, CrashSafe, Reach, Enabled, Apply;
    var c := AfterClaim(s, look);
    var t := c;
    if s.clients.active > 0 {
      t := Writes(c, t);
    }
    var disk := DiskOf(t.places, look.vm);
    assert disk == DiskOf(s.places, look.vm) && NotAhead(disk, s.version) && !Is(disk, t.version);
    t := SessionsLeave(c, t, t.clients.active);
    t := EvictsIdle(c, t);
    t := Halts(c, t);
    t := Copies(c, t, LEN, false);
    t := FlipsAndLands(c, t);
    LosesAfter(s, Claim(look), t);
  }

  /** An upload of a local file leaves it to be restored from. */
  lemma StillArrives(s: State, t: State)
    requires CanArrive(s) && Current(s) == Frozen && t.ledger == s.ledger && t.clients == s.clients
    requires t.places == s.places.(dump := t.places.dump)
    ensures CanArrive(t)
  {
    hide Chosen;
  }

  /** A checkout restores the frozen schema after its dump is uploaded, and writes. */
  lemma OverlappedPromotionLoses(s: State, look: Look)
    requires Inv(s) && look.kind == PromoteDump && Enabled(s, Claim(look))
    requires Current(s) == Frozen && s.clients.passing > 0
    ensures !SafeAfter(s, Claim(look))
  {
    InvSane(s);
    InvCanArrive(s);
    ClientFacts(s);
    Claims(s, look);
    hide Inv, SafeAfter, CrashSafe, Apply, Enabled, Reach;
    var c := AfterClaim(s, look);
    assert Is(s.places.dumpFile, s.version);
    var t := Copies(c, c, LEN, false);
    var copy := ContentOf(t.places.dump);
    assert copy == s.places.dumpFile;
    StillArrives(s, t);
    hide CanArrive, Restorable, Chosen, Holds;
    t := ArrivesAndWrites(c, t);
    assert CopyOf(t.places, PromoteDump) == copy;
    t := FlipsAndLands(c, t);
    LosesAfter(s, Claim(look), t);
  }

  /** The image uploaded. */
  lemma ImageSaved(s: State, look: Look) returns (t: State)
    requires Inv(s) && look.kind == PromoteImage && Enabled(s, Claim(look)) && s.places.imageFile.Some?
    ensures Reach(Apply(s, Claim(look)), t)
    ensures
      t == s.(pending := s.pending - multiset{look}, ops := s.ops + 1,
              op := Op(PromoteImage, Saved(LEN), s.ops + 1, look.vm),
              places := s.places.(image := Some(Obj(s.places.imageFile.value, LEN, s.ops + 1))))
  {
    Claims(s, look);
    hide Inv, Apply, Enabled, Reach;
    t := Copies(AfterClaim(s, look), AfterClaim(s, look), LEN, false);
  }

  /** A left-over image that is not the data is promoted. */
  lemma WrongPromotionLoses(s: State, look: Look)
    requires Inv(s) && look.kind == PromoteImage && Enabled(s, Claim(look))
    requires s.places.imageFile.Some? && !Is(s.places.imageFile, s.version)
    ensures !SafeAfter(s, Claim(look))
  {
    var t := ImageSaved(s, look);
    InvSane(s);
    hide Inv, SafeAfter, CrashSafe, Enabled, Apply;
    t := FlipsAndLands(Apply(s, Claim(look)), t);
    LosesAfter(s, Claim(look), t);
  }

  lemma Writes(s: State, m: State) returns (t: State)
    requires Reach(s, m) && m.ledger.log != [] && m.clients.active > 0 && m.clients.up && m.places.vm.Some?
    ensures Reach(s, t) && t == m.(version := m.version + 1, places := m.places.(vm := Some(Version(m.version + 1))))
  {
    hide Reach;
    On(s, m, Write);
    t := Apply(m, Write);
  }

  /** The image is the data, and a session writes after it is uploaded. */
  lemma UsedPromotionLoses(s: State, look: Look)
    requires Inv(s) && look.kind == PromoteImage && Enabled(s, Claim(look)) && s.places.imageFile.Some?
    requires s.clients.active > 0 || !NoneOnTheWay(s.clients)
    ensures !SafeAfter(s, Claim(look))
  {
    var c := Apply(s, Claim(look));
    var t := ImageSaved(s, look);
    InvSane(s);
    var copy := ContentOf(t.places.image);
    assert copy == s.places.imageFile;
    if s.clients.active > 0 {
      assert s.clients.up && s.places.vm.Some?;
      hide Inv, SafeAfter, CrashSafe, Enabled, Apply, Reach;
      t := Writes(c, t);
    } else {
      InvCanArrive(s);
      hide Inv, SafeAfter, CrashSafe, Enabled, Apply, Reach;
      assert CanArrive(t);
      t := ArrivesAndWrites(c, t);
    }
    hide Inv, SafeAfter, CrashSafe, Enabled, Apply, CanArrive, Restorable, Chosen;
    assert CopyOf(t.places, PromoteImage) == copy && NotAhead(copy, s.version) && t.version == s.version + 1;
    t := FlipsAndLands(c, t);
    LosesAfter(s, Claim(look), t);
  }

  /** The image is the data and nobody uses the schema, but its live entry stays in the
      map: the next checkout is served from a VM that is no longer the schema's. */
  lemma WarmPromotionLoses(s: State, look: Look)
    requires Inv(s) && look.kind == PromoteImage && Enabled(s, Claim(look))
    requires s.places.imageFile.Some? && s.clients.warm
    requires NoneOnTheWay(s.clients) && s.clients.active == 0
    ensures !SafeAfter(s, Claim(look))
  {
    var c := Apply(s, Claim(look));
    var t := ImageSaved(s, look);
    InvSane(s);
    assert s.clients.up && s.places.vm.Some? by { InvWarm(s); }
    hide Inv, SafeAfter, Reach, CrashSafe;
    t := Promoted(c, t);
    t := ServedAnew(c, t);
    hide Enabled, Apply;
    NotReloaded(t);
    LosesAfter(s, Claim(look), t);
  }

  lemma InvWarm(s: State)
    requires Inv(s) && s.clients.warm
    ensures s.clients.up && Is(s.places.vm, s.version)
  {
    hide OpInv, PastInv;
    assert Holds(s.places, s.version, s.ledger.log[|s.ledger.log| - 1].tier);
  }

  /** A promotion runs to its end. */
  lemma Promoted(s: State, m: State) returns (t: State)
    requires Reach(s, m) && Sane(m) && m.op.Op? && m.op.kind == PromoteImage && m.op.stage == Saved(LEN)
    ensures Reach(s, t) && t.op == NoOp && t.version == m.version && t.clients == m.clients
    ensures t.places == m.places.(dump := None, imageFile := None)
    ensures t.ledger == Ledger(m.ledger.log + [Mark(Archived, m.op.author)], |m.ledger.log|, m.ledger.lastPut)
  {
    hide Reach;
    On(s, m, Clear);
    t := Apply(m, Clear);
    On(s, t, Flip);
    t := Apply(t, Flip);
    On(s, t, Land(|m.ledger.log|));
    t := Apply(t, Land(|m.ledger.log|));
    On(s, t, Destroy(true));
    t := Apply(t, Destroy(true));
  }

  lemma ServedAnew(s: State, m: State) returns (t: State)
    requires Reach(s, m) && m.ledger.log != [] && m.op == NoOp && m.clients.warm && m.clients.up && m.places.vm.Some?
    requires m.clients.thaw == NoThaw
    ensures Reach(s, t) && t.version == m.version + 1 && t.ledger == m.ledger
    ensures t.places == m.places.(vm := t.places.vm)
  {
    hide Reach;
    On(s, m, Pass);
    t := Apply(m, Pass);
    On(s, t, Touch);
    t := Apply(t, Touch);
    On(s, t, Count);
    t := Apply(t, Count);
    On(s, t, Write);
    t := Apply(t, Write);
  }

  /** The archived image is not the data. */
  lemma NotReloaded(t: State)
    requires t.ledger.landed < |t.ledger.log| && t.ledger.lastPut < t.ledger.landed
    requires t.ledger.log[t.ledger.landed].tier == Archived
    requires t.places.dump.None? && t.places.image.Some? && t.places.image.value.len >= MIN_IMAGE_BYTES
    requires !Is(ContentOf(t.places.image), t.version)
    ensures !CrashSafe(t)
  {
  }

  // ---- a session the map does not know of ----------------------------------------------------------

  /** An eviction took a checkout's cell out of the map and failed; the checkout is now a
      session that no later eviction sees. */
  predicate Orphaned(m: State) {
    && Sane(m) && m.op == NoOp && Current(m) == Live && Is(m.places.vm, m.version)
    && NoneOnTheWay(m.clients) && m.clients.active > 0 && !m.clients.warm && m.clients.up
  }

  /** A freeze that claims by the book then loses what the session writes. */
  lemma OrphanLoses(s: State, m: State) returns (t: State)
    requires Reach(s, m) && Orphaned(m)
    ensures Reach(s, t) && !CrashSafe(t)
  {
    hide Reach, CrashSafe;
    t := SecondClaim(s, m);
    hide Orphaned;
    t := FreezeReady(s, t);
    hide Enabled, Apply;
    t := Copies(s, t, LEN, false);
    t := Writes(s, t);
    t := FlipsAndLands(s, t);
  }

  lemma SecondClaim(s: State, m: State) returns (t: State)
    requires Reach(s, m) && Orphaned(m)
    ensures Reach(s, t)
    ensures t == m.(pending := t.pending, ops := t.ops, op := Op(FreezeOp, Claimed, m.ops + 1, VmId(m.places)))
  {
    hide Reach;
    On(s, m, Check(FreezeOp));
    t := Apply(m, Check(FreezeOp));
    var look := Look(FreezeOp, VmId(m.places));
    On(s, t, Claim(look));
    t := Apply(t, Claim(look));
  }

  lemma FreezeReady(s: State, m: State) returns (t: State)
    requires Reach(s, m) && m.ledger.log != [] && m.op.Op? && m.op.kind == FreezeOp && m.op.stage == Claimed
    requires !m.clients.warm && m.places.vm.Some?
    ensures Reach(s, t)
    ensures t == m.(op := m.op.(stage := Ready, target := VmId(m.places)), clients := m.clients.(up := true))
  {
    hide Reach;
    On(s, m, Evict);
    t := Apply(m, Evict);
    On(s, t, BringUp);
    t := Apply(t, BringUp);
  }

  /** Evicted with a checkout still under way. */
  predicate Straggles(m: State) {
    && Sane(m) && CanArrive(m) && Evicting(m.op) && m.op.stage == Evicted && !m.clients.warm && m.clients.active == 0
    && !m.clients.thaw.Bound?
    && (m.clients.touched > 0 ==> Current(m) == Live && m.clients.thaw == NoThaw)
    && Is(if m.clients.touched > 0 || m.clients.thaw.Restored? then m.places.vm
          else Restorable(m.places, Current(m)), m.version)
  }

  lemma StragglerIsOrphaned(s: State, m: State) returns (t: State)
    requires Reach(s, m) && Straggles(m)
    ensures Reach(s, t) && Orphaned(t)
  {
    hide Reach, Chosen;
    t := m;
    if t.clients.touched == 0 {
      t := GetsAnEntry(s, t);
    }
    hide Restorable, CanArrive, Straggles;
    assert Current(t) == Live && Is(t.places.vm, t.version) && t.clients.touched > 0 && t.clients.up;
    t := CountsAndFails(s, t);
  }

  lemma CountsAndFails(s: State, m: State) returns (t: State)
    requires Reach(s, m) && Sane(m) && Current(m) == Live && Is(m.places.vm, m.version) && Evicting(m.op)
    requires m.op.stage == Evicted && m.clients.touched > 0 && m.clients.up && m.clients.thaw == NoThaw
    requires !m.clients.warm
    ensures Reach(s, t) && Orphaned(t)
  {
    hide Reach;
    On(s, m, Count);
    t := Apply(m, Count);
    On(s, t, Fail(false));
    t := Apply(t, Fail(false));
    hide Enabled, Apply;
    t := EnteredGiveUp(s, t, t.clients.touched);
    t := PassersGiveUp(s, t, t.clients.passing);
  }

  /** The claim, the thaw under way finished, sessions gone. */
  lemma Settles(s: State, look: Look) returns (t: State)
    requires Inv(s) && Enabled(s, Claim(look))
    ensures Reach(AfterClaim(s, look), t)
    ensures
      t == AfterClaim(s, look).(clients := s.clients.(
        active := 0,
        thaw := if s.clients.thaw.Bound? then NoThaw else s.clients.thaw,
        touched := s.clients.touched + if s.clients.thaw.Bound? then 1 else 0))
  {
    Claims(s, look);
    hide Inv, Reach;
    var c := AfterClaim(s, look);
    t := c;
    if t.clients.thaw.Bound? {
      On(c, t, RemoveThawed(false));
      t := Apply(t, RemoveThawed(false));
    }
    t := SessionsLeave(c, t, t.clients.active);
  }

  /** Who has an entry is on the live VM; a restore not yet bound has the data. */
  lemma ClientFacts(s: State)
    requires Inv(s)
    ensures
      s.clients.touched > 0 || s.clients.thaw.Bound? || s.clients.warm ==>
        Current(s) == Live && s.clients.up && Is(s.places.vm, s.version) && !s.clients.thaw.Restored?
    ensures s.clients.thaw.Restored? ==> Is(s.places.vm, s.version) && s.clients.passing > 0 && s.clients.up
  {
    hide OpInv, PastInv;
    assert Holds(s.places, s.version, s.ledger.log[|s.ledger.log| - 1].tier);
  }

  lemma OverlappedImageLoses(s: State, look: Look)
    requires Inv(s) && look.kind == ImageArchive && Enabled(s, Claim(look)) && !NoneOnTheWay(s.clients)
    ensures !SafeAfter(s, Claim(look))
  {
    var c := AfterClaim(s, look);
    var t := Settles(s, look);
    InvSane(s);
    InvCanArrive(s);
    ClientFacts(s);
    Claims(s, look);
    hide Inv, SafeAfter, CrashSafe, Reach, Enabled, Apply;
    t := EvictsIdle(c, t);
    assert Straggles(t);
    t := StragglerIsOrphaned(c, t);
    t := OrphanLoses(c, t);
    LosesAfter(s, Claim(look), t);
  }

  /** Compaction leaves a warm entry alone, so those who have it are safe from it; a
      checkout that has none yet is not. */
  lemma OverlappedCompactLoses(s: State, look: Look)
    requires Inv(s) && look.kind == CompactOp && Enabled(s, Claim(look)) && s.clients.passing > 0
    ensures !SafeAfter(s, Claim(look))
  {
    var c := AfterClaim(s, look);
    var t := Settles(s, look);
    InvSane(s);
    InvCanArrive(s);
    ClientFacts(s);
    Claims(s, look);
    hide Inv, SafeAfter, CrashSafe, Reach, Enabled, Apply;
    t := EnteredGiveUp(c, t, t.clients.touched);
    t := Cools(c, t);
    t := EvictsCold(c, t);
    assert Straggles(t);
    t := StragglerIsOrphaned(c, t);
    t := OrphanLoses(c, t);
    LosesAfter(s, Claim(look), t);
  }

  lemma Cools(s: State, m: State) returns (t: State)
    requires Reach(s, m) && m.ledger.log != [] && m.clients.active == 0 && m.clients.touched == 0
    requires m.clients.warm ==> m.clients.thaw == NoThaw
    ensures Reach(s, t)
    ensures t == m.(clients := m.clients.(warm := false, up := m.clients.up && !m.clients.warm))
  {
    hide Reach;
    t := m;
    if m.clients.warm {
      On(s, m, Chill);
      t := Apply(m, Chill);
    }
  }

  // ---- exactly ------------------------------------------------------------------------------------------

  lemma UnsafeClaimLoses(s: State, look: Look)
    requires Inv(s) && Enabled(s, Claim(look)) && !ClaimOk(look, s.places, s.version, s.clients, Current(s))
    ensures !SafeAfter(s, Claim(look))
  {
    InvSane(s);
    hide Inv, SafeAfter, Enabled;
    match look.kind
    case FreezeOp =>
      if !NoneOnTheWay(s.clients) {
        OverlappedDumpLoses(s, look);
      } else {
        WrongDumpLoses(s, look);
      }
    case DumpArchive =>
      if !NoneOnTheWay(s.clients) {
        OverlappedDumpLoses(s, look);
      } else if s.places.vm.None? {
        WrongDumpLoses(s, look);
      } else if Current(s) == Frozen {
        ScratchLoses(s, look);
      } else {
        SmallDumpLoses(s, look);
      }
    case ImageArchive =>
      if !NoneOnTheWay(s.clients) {
        OverlappedImageLoses(s, look);
      } else {
        SupersededImageLoses(s, look);
      }
    case CompactOp => OverlappedCompactLoses(s, look);
    case PromoteDump => OverlappedPromotionLoses(s, look);
    case PromoteImage =>
      if !Is(s.places.imageFile, s.version) {
        WrongPromotionLoses(s, look);
      } else if s.clients.active > 0 || !NoneOnTheWay(s.clients) {
        UsedPromotionLoses(s, look);
      } else {
        WarmPromotionLoses(s, look);
      }
  }

  lemma SafeClaimIsSafe(s: State, look: Look)
    requires Inv(s) && ClaimOk(look, s.places, s.version, s.clients, Current(s))
    ensures SafeAfter(s, Claim(look))
  {
    hide Inv, Apply, Enabled, CrashSafe, ClaimOk;
    assert s.ledger.log != [] by { InvSane(s); }
    forall trace, labels, i |
      IsPath(trace, labels) && labels != [] && trace[0] == s && labels[0] == Claim(look)
      && SoundFrom(trace, labels, 1) && 0 <= i < |trace|
      ensures CrashSafe(trace[i])
    {
      assert Sound(trace[0], labels[0]);
      assert SoundFrom(trace, labels, 0);
      PathKeeps(trace, labels, i);
      InvIsCrashSafe(trace[i]);
    }
  }

  /** For every kind of operation, in every state of the ladder: a claim is safe whatever
      follows if and only if `ClaimOk` holds of it. */
  lemma ClaimIsSafeExactly(s: State, look: Look)
    requires Inv(s) && Enabled(s, Claim(look))
    ensures SafeAfter(s, Claim(look)) <==> ClaimOk(look, s.places, s.version, s.clients, Current(s))
  {
    hide Inv, SafeAfter, ClaimOk;
    if ClaimOk(look, s.places, s.version, s.clients, Current(s)) {
      SafeClaimIsSafe(s, look);
    } else {
      UnsafeClaimLoses(s, look);
    }
  }

  // ---- such states come about ------------------------------------------------------------------------

  lemma ReachInv(s: State, t: State)
    requires Init(s) && Reach(s, t)
    ensures Inv(t)
  {
    hide Enabled, Apply, Inv, Sound, Init;
    var trace, labels :| Ends(trace, labels, s, t);
    InitInv(s);
    PathKeeps(trace, labels, |labels|);
  }

  /** The looks of operations at the state's row. */
  function LookAt(s: State, k: Kind): Look { Look(k, VmId(s.places)) }

  lemma Looks(s: State, m: State, k: Kind) returns (t: State)
    requires Reach(s, m) && m.ledger.log != [] && Suits(k, Current(m))
    ensures Reach(s, t) && t == m.(pending := m.pending + multiset{LookAt(m, k)})
  {
    hide Reach;
    On(s, m, Check(k));
    t := Apply(m, Check(k));
  }

  /** Several operations look at a live schema, and one of them, a freeze, runs from
      beginning to end before the others claim. */
  lemma StaleClaims(s: State) returns (t: State)
    requires Init(s) && s.ledger.log[0].tier == Live
    ensures Reach(s, t) && Inv(t) && t.op == NoOp && Current(t) == Frozen && t.places.vm.None?
    ensures t.places.disks == s.places.disks && Quiet(t.clients)
    ensures
      t.pending == multiset{LookAt(s, FreezeOp), LookAt(s, DumpArchive), LookAt(s, ImageArchive), LookAt(s, CompactOp)}
  {
    Here(s);
    assert Is(s.places.vm, s.version);
    hide Reach;
    t := Looks(s, s, FreezeOp);
    t := Looks(s, t, FreezeOp);
    t := Looks(s, t, DumpArchive);
    t := Looks(s, t, ImageArchive);
    t := Looks(s, t, CompactOp);
    hide Init;
    t := FreezeClaims(s, t);
    t := FreezeReady(s, t);
    t := FreezeEnds(s, t);
    ReachInv(s, t);
  }

  lemma FreezeClaims(s: State, m: State) returns (t: State)
    requires Reach(s, m) && m.ledger.log != [] && m.op == NoOp && LookAt(m, FreezeOp) in m.pending
    requires NoneOnTheWay(m.clients) && m.places.vm.Some?
    ensures Reach(s, t) && t == AfterClaim(m, LookAt(m, FreezeOp))
  {
    hide Reach;
    On(s, m, Claim(LookAt(m, FreezeOp)));
    t := Apply(m, Claim(LookAt(m, FreezeOp)));
  }

  lemma FreezeEnds(s: State, m: State) returns (t: State)
    requires Reach(s, m) && |m.ledger.log| == 1 && m.ledger.landed == 0
    requires m.op.Op? && m.op.kind == FreezeOp && m.op.stage == Ready && IsCurrent(m.places, m.op.target)
    ensures Reach(s, t) && t.op == NoOp && t.pending == m.pending && t.places.vm.None?
    ensures t.places.disks == m.places.disks
    ensures t.clients == Stopped(m.clients) && t.ledger.log != [] && Current(t) == Frozen
  {
    hide Reach;
    t := Copies(s, m, LEN, false);
    t := Finishes(s, t, true);
  }

  /** An operation that has its copy flips the tier, waits for it and is done. */
  lemma Finishes(s: State, m: State, ok: bool) returns (t: State)
    requires Reach(s, m) && m.ledger.landed < |m.ledger.log| && CanFlip(m.op)
    ensures Reach(s, t) && t.op == NoOp && t.pending == m.pending && t.version == m.version && t.ops == m.ops
    ensures t.places == (if ok then Destroyed(m.places, m.op) else m.places)
    ensures
      t.ledger == Ledger(m.ledger.log + [Mark(Target(m.op.kind), m.op.author)], |m.ledger.log|, m.ledger.lastPut)
    ensures
      t.clients == if ok && FromVm(m.op.kind) && IsCurrent(m.places, m.op.target) then Stopped(m.clients)
                   else m.clients
  {
    hide Reach;
    On(s, m, Flip);
    t := Apply(m, Flip);
    On(s, t, Land(|m.ledger.log|));
    t := Apply(t, Land(|m.ledger.log|));
    On(s, t, Destroy(ok));
    t := Apply(t, Destroy(ok));
  }

  lemma StaleConditions(s: State, t: State)
    requires t.ledger.log != [] && t.places.vm.None? && t.places.disks == s.places.disks && Quiet(t.clients)
    requires s.places.vm.Some? && s.places.disks.id !in s.places.disks.left
    ensures !ClaimOk(LookAt(s, FreezeOp), t.places, t.version, t.clients, Current(t))
    ensures !ClaimOk(LookAt(s, DumpArchive), t.places, t.version, t.clients, Current(t))
    ensures ClaimOk(LookAt(s, ImageArchive), t.places, t.version, t.clients, Current(t))
    ensures ClaimOk(LookAt(s, CompactOp), t.places, t.version, t.clients, Current(t))
  {
  }

  /** Of those left over, a second freeze and a dump archive lose the data: they boot a
      fresh VM and copy its empty database over the schema's. Compaction and the image
      archive find nothing to image. */
  lemma StaleClaimIsReachable(s: State) returns (t: State)
    requires Init(s) && s.ledger.log[0].tier == Live
    ensures Reach(s, t)
    ensures forall k :: k in {FreezeOp, DumpArchive, ImageArchive, CompactOp} ==> Enabled(t, Claim(LookAt(s, k)))
    ensures !SafeAfter(t, Claim(LookAt(s, FreezeOp))) && !SafeAfter(t, Claim(LookAt(s, DumpArchive)))
    ensures SafeAfter(t, Claim(LookAt(s, ImageArchive))) && SafeAfter(t, Claim(LookAt(s, CompactOp)))
  {
    t := StaleClaims(s);
    assert s.places.vm.Some? && s.places.disks.id !in s.places.disks.left;
    StaleConditions(s, t);
    hide Inv, SafeAfter, Reach, Init, ClaimOk;
    assert t.ledger.log != [] by { InvSane(t); }
    ClaimIsSafeExactly(t, LookAt(s, FreezeOp));
    ClaimIsSafeExactly(t, LookAt(s, DumpArchive));
    ClaimIsSafeExactly(t, LookAt(s, ImageArchive));
    ClaimIsSafeExactly(t, LookAt(s, CompactOp));
  }

  /** A promotion looks at a compacted schema, which is then thawed and written to; the
      local image could not be removed. The promotion archives it under the session. */
  lemma StalePromotionIsReachable(s: State) returns (t: State)
    requires Init(s) && s.ledger.log[0].tier == Compacted
    ensures Reach(s, t) && t.ledger.log != [] && Current(t) == Live && t.clients.active > 0
    ensures Enabled(t, Claim(LookAt(s, PromoteImage))) && !SafeAfter(t, Claim(LookAt(s, PromoteImage)))
  {
    Here(s);
    hide Reach, SafeAfter;
    t := Looks(s, s, PromoteImage);
    On(s, t, Pass);
    t := Apply(t, Pass);
    t := ThawsAndWrites(s, t);
    ReachInv(s, t);
    hide Inv, Init;
    ClaimIsSafeExactly(t, LookAt(s, PromoteImage));
  }

  /** A checkout finds a compacted schema and becomes a session that writes. */
  lemma ThawsAndWrites(s: State, m: State) returns (t: State)
    requires Reach(s, m) && m.ledger.log != [] && m.op == NoOp
    requires m.clients == Clients(1, 0, 0, false, m.clients.up, NoThaw)
    requires Current(m) != Live && Is(Restorable(m.places, Current(m)), m.version)
    ensures Reach(s, t) && t.op == NoOp && t.pending == m.pending && t.ledger.log != [] && Current(t) == Live
    ensures t.clients == Clients(0, 0, 1, true, true, NoThaw) && t.version == m.version + 1
    ensures
      t.places == NewVm(m.places, Version(m.version)).(vm := Some(Version(t.version)))
    ensures t.ledger.landed == m.ledger.landed && |t.ledger.log| == |m.ledger.log| + 1
    ensures t.ledger.lastPut == |m.ledger.log| && t.ops == m.ops
  {
    hide Reach;
    On(s, m, Restore);
    t := Apply(m, Restore);
    hide Restorable, Chosen;
    On(s, t, Bind);
    t := Apply(t, Bind);
    On(s, t, RemoveThawed(false));
    t := Apply(t, RemoveThawed(false));
    On(s, t, Count);
    t := Apply(t, Count);
    t := Writes(s, t);
  }

  /** An image archive looks at a live schema. A compaction runs to its end, but its kill
      fails; a checkout thaws the schema onto another VM, writes and leaves. The tier is
      live again and nobody is there, but the claim images the old disk. */
  lemma SupersededClaimIsReachable(s: State) returns (t: State)
    requires Init(s) && s.ledger.log[0].tier == Live
    ensures Reach(s, t) && t.ledger.log != [] && Current(t) == Live && Quiet(t.clients)
    ensures Enabled(t, Claim(LookAt(s, ImageArchive))) && !SafeAfter(t, Claim(LookAt(s, ImageArchive)))
  {
    Here(s);
    assert Is(s.places.vm, s.version);
    hide Reach, SafeAfter;
    t := Looks(s, s, ImageArchive);
    t := Looks(s, t, CompactOp);
    assert t.pending == multiset{LookAt(s, ImageArchive), LookAt(s, CompactOp)} && Sane(t);
    assert t.places == s.places && t.op == NoOp && t.clients == s.clients && Current(t) == Live;
    hide Enabled, Apply, Sane;
    t := ComesAndGoes(s, t);
    t := SupersededState(s, t);
    ReachInv(s, t);
    hide Inv, Init;
    assert Enabled(t, Claim(LookAt(s, ImageArchive))) by { ClaimEnabled(t, LookAt(s, ImageArchive)); }
    ClaimIsSafeExactly(t, LookAt(s, ImageArchive));
  }

  lemma ClaimEnabled(s: State, look: Look)
    requires s.ledger.log != [] && s.op == NoOp && look in s.pending
    ensures Enabled(s, Claim(look))
  {
  }

  /** A checkout comes and gives up, and the reaper stops the VM. */
  lemma ComesAndGoes(s: State, m: State) returns (t: State)
    requires Reach(s, m) && m.ledger.log != [] && m.op == NoOp && Current(m) == Live && m.places.vm.Some?
    requires m.clients == Clients(0, 0, 0, false, m.clients.up, NoThaw)
    ensures Reach(s, t) && t == m.(clients := Clients(0, 0, 0, false, false, NoThaw))
  {
    hide Reach;
    On(s, m, Pass);
    t := Apply(m, Pass);
    On(s, t, Start);
    t := Apply(t, Start);
    On(s, t, GiveUp(true));
    t := Apply(t, GiveUp(true));
    t := Cools(s, t);
  }

  lemma SupersededState(s: State, m: State) returns (t: State)
    requires Reach(s, m) && Sane(m) && m.op == NoOp && LookAt(m, CompactOp) in m.pending
    requires m.clients == Clients(0, 0, 0, false, false, NoThaw) && Is(m.places.vm, m.version)
    requires m.places.disks.id <= m.places.disks.made
    ensures Reach(s, t) && t.ledger.log != [] && Current(t) == Live && Quiet(t.clients) && t.op == NoOp
    ensures t.pending == m.pending - multiset{LookAt(m, CompactOp)} && t.version == m.version + 1
    ensures !IsCurrent(t.places, VmId(m.places)) && DiskOf(t.places, VmId(m.places)) == Some(Version(m.version))
  {
    hide Reach;
    t := CompactsInVain(s, m);
    On(s, t, Pass);
    t := Apply(t, Pass);
    hide Enabled, Apply;
    t := ThawsAndWrites(s, t);
    t := SessionsLeave(s, t, 1);
    t := Cools(s, t);
  }

  lemma CompactsInVain(s: State, m: State) returns (t: State)
    requires Reach(s, m) && Sane(m) && m.op == NoOp && LookAt(m, CompactOp) in m.pending
    requires m.clients == Clients(0, 0, 0, false, false, NoThaw) && Is(m.places.vm, m.version)
    ensures Reach(s, t) && t.op == NoOp && t.version == m.version && t.clients == m.clients
    ensures t.pending == m.pending - multiset{LookAt(m, CompactOp)} && t.ledger.log != [] && Current(t) == Compacted
    ensures t.places == m.places.(imageFile := m.places.vm)
  {
    hide Reach;
    On(s, m, Claim(LookAt(m, CompactOp)));
    t := Apply(m, Claim(LookAt(m, CompactOp)));
    t := EvictsCold(s, t);
    hide Enabled, Apply;
    t := Copies(s, t, LEN, false);
    t := Finishes(s, t, false);
  }

  /** A checkout has looked for an offload and found none; it has no entry yet. Then it has
      one, and is not counted. Both are invisible to the eviction of a dump archive;
      compaction overlooks only the first. */
  lemma OverlapIsReachable(s: State) returns (cold: State, warm: State)
    requires Init(s) && s.ledger.log[0].tier == Live
    ensures Reach(s, cold) && !cold.clients.warm && cold.clients.passing == 1 && cold.clients.active == 0
    ensures Reach(s, warm) && warm.clients.warm && warm.clients.touched == 1 && warm.clients.active == 0
    ensures
      var dump, compact := Claim(LookAt(s, DumpArchive)), Claim(LookAt(s, CompactOp));
      && Enabled(cold, dump) && !SafeAfter(cold, dump) && Enabled(cold, compact) && !SafeAfter(cold, compact)
      && Enabled(warm, dump) && !SafeAfter(warm, dump) && Enabled(warm, compact) && SafeAfter(warm, compact)
  {
    Here(s);
    hide Reach, SafeAfter;
    cold := Looks(s, s, DumpArchive);
    cold := Looks(s, cold, CompactOp);
    On(s, cold, Pass);
    cold := Apply(cold, Pass);
    assert Is(cold.places.vm, cold.version);
    On(s, cold, Start);
    warm := Apply(cold, Start);
    ReachInv(s, cold);
    ReachInv(s, warm);
    hide Inv, Init;
    ClaimIsSafeExactly(cold, LookAt(s, DumpArchive));
    ClaimIsSafeExactly(cold, LookAt(s, CompactOp));
    ClaimIsSafeExactly(warm, LookAt(s, DumpArchive));
    ClaimIsSafeExactly(warm, LookAt(s, CompactOp));
  }

  // ---- an older image beside the dump ------------------------------------------------------------------

  /** The schema is archived as an image, restored, written to, and archived as a dump: the
      dump holds the data and the older image is still there. A failed HEAD of the dump
      then makes the restore take the image. */
  lemma TroubleCanPickAnOlderImage(s: State) returns (t: State)
    requires Init(s) && s.ledger.log[0].tier == Live
    ensures Reach(s, t) && Inv(t) && Current(t) == Archived && t.version == s.version + 1
    ensures Chosen(t.places).Some? && Is(ContentOf(Chosen(t.places)), t.version)
    ensures
      var image := PickRestore(Trouble, Answer(ObjLen(t.places.image)));
      Is(ContentOf(Picked(t.places, image)), s.version)
  {
    Here(s);
    assert Is(s.places.vm, s.version);
    hide Reach;
    t := Looks(s, s, ImageArchive);
    t := ImageArchived(s, t);
    On(s, t, Pass);
    t := Apply(t, Pass);
    hide Enabled, Apply;
    t := ThawsAndWrites(s, t);
    t := SessionsLeave(s, t, 1);
    t := Looks(s, t, DumpArchive);
    t := DumpArchived(s, t);
    ReachInv(s, t);
  }

  lemma ImageArchived(s: State, m: State) returns (t: State)
    requires Reach(s, m) && Sane(m) && m.op == NoOp && LookAt(m, ImageArchive) in m.pending
    requires m.clients == Clients(0, 0, 0, false, m.clients.up, NoThaw) && Is(m.places.vm, m.version)
    ensures Reach(s, t) && t.op == NoOp && t.version == m.version && Sane(t) && Current(t) == Archived
    ensures t.clients == Clients(0, 0, 0, false, false, NoThaw) && t.places.vm.None? && t.places.dump.None?
    ensures t.places.image == Some(Obj(Version(m.version), LEN, m.ops + 1))
  {
    hide Reach;
    var look := LookAt(m, ImageArchive);
    On(s, m, Claim(look));
    t := Apply(m, Claim(look));
    t := EvictsIdle(s, t);
    t := Halts(s, t);
    t := Copies(s, t, LEN, false);
    On(s, t, Clear);
    t := Apply(t, Clear);
    hide Enabled, Apply;
    t := Finishes(s, t, true);
  }

  lemma DumpArchived(s: State, m: State) returns (t: State)
    requires Reach(s, m) && m.ledger.landed < |m.ledger.log| && m.op == NoOp && LookAt(m, DumpArchive) in m.pending
    requires m.clients == Clients(0, 0, 0, true, true, NoThaw) && Current(m) == Live && Is(m.places.vm, m.version)
    ensures Reach(s, t) && t.ledger.log != [] && t.version == m.version && Current(t) == Archived
    ensures t.places.image == m.places.image && t.places.dump == Some(Obj(Version(m.version), LEN, m.ops + 1))
  {
    hide Reach;
    var look := LookAt(m, DumpArchive);
    On(s, m, Claim(look));
    t := Apply(m, Claim(look));
    hide Enabled, Apply;
    t := EvictsIdle(s, t);
    t := BringsUp(s, t);
    t := Copies(s, t, LEN, false);
    t := Finishes(s, t, true);
  }

  // ---- the durable tier is not always the one to restore by --------------------------------------------

  lemma ExtendOrderly(trace: seq<State>, labels: seq<Label>, l: Label)
    returns (trace': seq<State>, labels': seq<Label>)
    requires IsOrderlyRun(trace, labels) && Enabled(trace[|labels|], l) && Orderly(trace[|labels|], l)
    ensures IsOrderlyRun(trace', labels') && trace' == trace + [Apply(trace[|labels|], l)] && labels' == labels + [l]
  {
    hide Enabled, Apply, Orderly, Init, Authored;
    trace', labels' := trace + [Apply(trace[|labels|], l)], labels + [l];
    forall i | 0 <= i < |labels'|
      ensures Enabled(trace'[i], labels'[i]) && trace'[i + 1] == Apply(trace'[i], labels'[i])
      ensures Orderly(trace'[i], labels'[i])
    {
      if i < |labels| {
        assert trace'[i] == trace[i] && labels'[i] == labels[i] && trace'[i + 1] == trace[i + 1];
      }
    }
  }

  /** From every archived start: a checkout restores the schema and leaves, its `put`
      still unwritten, and an image archive runs up to the tier. The file says
      `Archived` by the old operation; the object to restore is by the new one. */
  lemma DurablePickFails(s: State) returns (trace: seq<State>, labels: seq<Label>)
    requires Init(s) && Authored(s) && s.ledger.log[0].tier == Archived
    ensures IsOrderlyRun(trace, labels) && trace[0] == s
    ensures
      var t := trace[|labels|];
      && t.ledger.landed < |t.ledger.log| && t.ledger.log[t.ledger.landed] == s.ledger.log[0]
      && Chosen(t.places).Some? && Chosen(t.places).value.author == s.ops + 1 > s.ledger.log[0].author
      && !PicksFor(t, t.ledger.log[t.ledger.landed])
  {
    trace, labels := RestoredAgain(s);
    hide Init, Restorable, Chosen;
    trace, labels := ExtendOrderly(trace, labels, RemoveThawed(true));
    trace, labels := ExtendOrderly(trace, labels, GiveUp(true));
    trace, labels := ImageRuns(trace, labels);
  }

  lemma RestoredAgain(s: State) returns (trace: seq<State>, labels: seq<Label>)
    requires Init(s) && Authored(s) && s.ledger.log[0].tier == Archived
    ensures IsOrderlyRun(trace, labels) && trace[0] == s && s.ledger.log[0].author <= s.ops
    ensures
      var t := trace[|labels|];
      && t.ledger == Ledger(s.ledger.log + [Mark(Live, 0)], 0, 1) && t.op == NoOp && t.ops == s.ops
      && t.places.vm.Some? && t.clients == Clients(0, 0, 0, true, true, Bound(Archived))
  {
    assert s.ledger == Ledger(s.ledger.log, 0, 0) && |s.ledger.log| == 1 && s.op == NoOp;
    assert Restorable(s.places, Archived).Some? && s.clients == Clients(0, 0, 0, false, s.clients.up, NoThaw);
    assert IsOrderlyRun([s], []);
    hide Init, Authored, Chosen, PastInv, Restorable;
    trace, labels := ExtendOrderly([s], [], Pass);
    trace, labels := RestoresOne(trace, labels);
    trace, labels := ExtendOrderly(trace, labels, Bind);
  }

  lemma RestoresOne(trace0: seq<State>, labels0: seq<Label>) returns (trace: seq<State>, labels: seq<Label>)
    requires IsOrderlyRun(trace0, labels0)
    requires
      var m := trace0[|labels0|];
      && m.ledger.log != [] && Current(m) != Live && m.clients.passing > 0 && m.clients.thaw == NoThaw
      && Restorable(m.places, Current(m)).Some?
    ensures IsOrderlyRun(trace, labels) && trace[0] == trace0[0]
    ensures
      var m, t := trace0[|labels0|], trace[|labels|];
      && t == m.(places := t.places, clients := m.clients.(thaw := Restored(Current(m)), up := true))
      && t.places.vm.Some?
  {
    hide Init, Authored, Restorable;
    trace, labels := ExtendOrderly(trace0, labels0, Restore);
  }

  lemma ImageRuns(trace0: seq<State>, labels0: seq<Label>) returns (trace: seq<State>, labels: seq<Label>)
    requires IsOrderlyRun(trace0, labels0)
    requires
      var m := trace0[|labels0|];
      && |m.ledger.log| == 2 && m.ledger.landed == 0 && Current(m) == Live && m.op == NoOp && m.places.vm.Some?
      && NoneOnTheWay(m.clients) && m.clients.active == 0 && m.ledger.log[0].author <= m.ops
    ensures IsOrderlyRun(trace, labels) && trace[0] == trace0[0]
    ensures
      var m, t := trace0[|labels0|], trace[|labels|];
      && t.ledger == m.ledger && Chosen(t.places).Some? && Chosen(t.places).value.author == m.ops + 1
  {
    hide Init, Authored, Restorable;
    trace, labels := trace0, labels0;
    trace, labels := ExtendOrderly(trace, labels, Check(ImageArchive));
    var look := Look(ImageArchive, VmId(trace0[|labels0|].places));
    trace, labels := ExtendOrderly(trace, labels, Claim(look));
    trace, labels := ExtendOrderly(trace, labels, Evict);
    trace, labels := ImageCleared(trace, labels);
  }

  lemma ImageCleared(trace0: seq<State>, labels0: seq<Label>) returns (trace: seq<State>, labels: seq<Label>)
    requires IsOrderlyRun(trace0, labels0)
    requires
      var m := trace0[|labels0|];
      && m.ledger.log != [] && m.op.Op? && m.op.kind == ImageArchive && m.op.stage == Evicted
      && IsCurrent(m.places, m.op.target)
    ensures IsOrderlyRun(trace, labels) && trace[0] == trace0[0]
    ensures
      var m, t := trace0[|labels0|], trace[|labels|];
      && t.ledger == m.ledger && Chosen(t.places).Some? && Chosen(t.places).value.author == m.op.author
  {
    hide Init, Authored, Restorable;
    trace, labels := trace0, labels0;
    trace, labels := ExtendOrderly(trace, labels, Halt(true));
    trace, labels := ExtendOrderly(trace, labels, Save(LEN, false));
    trace, labels := ExtendOrderly(trace, labels, Clear);
  }
}
