/**
 * What a pass makes of the latch, and when exclusion is back after a rollback
 * (src/reclaim.rs). Every pass that ran a script sets the latch by what that script
 * declared; between scripts exclusion holds from then on exactly if no boot can still
 * act on what the latch used to say.
 */
module ReclaimRecovery {
  import opened Reclaim

  // ---- the latch is what the last script declared ---------------------------------------------

  /** The script launched at `j` is the last one before `n`. */
  predicate LaunchOf(labels: seq<Label>, j: nat, n: nat)
    requires n <= |labels|
  {
    j < n && labels[j] == ByPassStep(Launch) && forall k :: j < k < n ==> labels[k] != ByPassStep(Launch)
  }

  /** A script got as far as declaring what it is. */
  predicate ListedIn(labels: seq<Label>, j: nat, n: nat)
    requires n <= |labels|
  {
    exists k :: j < k < n && labels[k] == ByScriptStep(List)
  }

  /** Between the launch and the release of the gate. */
  predicate AfterLaunch(pc: PassPc) { pc in {FirstRead, Asking, Watching, Woken, Reaped, Finishing} }

  /** The marker of an earlier pass is gone before a script is launched; a script that was
      launched is there until it is reaped. */
  predicate MarkInv(c: Config, mode: Mode, pass: Pass, script: Script) {
    && (mode.marker ==> c.honours || pass.pc in {Idle, Queued, Entered, Cleared, Releasing})
    && (pass.pc == Ready ==> !mode.marker)
    && (pass.launched && pass.pc in {FirstRead, Asking, Watching, Woken} ==> script != Off)
  }

  lemma MarkKeptByPass(c: Config, s: State, act: PassAct)
    requires PassEnabled(c, s, act) && MarkInv(c, s.mode, s.pass, s.script)
    ensures
      var s' := PassApply(c, s, act);
      && MarkInv(c, s'.mode, s'.pass, s'.script)
      && (act != Launch && AfterLaunch(s'.pass.pc) && s'.pass.launched ==>
            AfterLaunch(s.pass.pc) && s.pass.launched && s'.mode.marker == s.mode.marker)
      && (act == Launch ==> !s'.mode.marker)
      && (act != Relatch ==> s'.mode.latch == s.mode.latch)
  {
  }

  lemma MarkKeptByScript(c: Config, s: State, act: ScriptAct)
    requires ScriptEnabled(c, s, act) && MarkInv(c, s.mode, s.pass, s.script)
    requires s.script != Off ==> s.pass.pc in {FirstRead, Asking, Watching, Woken}
    ensures
      var s' := ScriptApply(c, s, act);
      && MarkInv(c, s'.mode, s'.pass, s'.script) && s'.pass == s.pass
      && (s'.mode.marker <==> s.mode.marker || (act == List && c.honours))
      && s'.mode.latch == s.mode.latch
  {
  }

  lemma MarkStep(c: Config, s: State, l: Label)
    requires Inv(c, s) && MarkInv(c, s.mode, s.pass, s.script) && Enabled(c, s, l)
    ensures
      var s' := Apply(c, s, l);
      && MarkInv(c, s'.mode, s'.pass, s'.script)
      && (l == ByPassStep(Launch) ==> !s'.mode.marker)
      && (l != ByPassStep(Launch) && AfterLaunch(s'.pass.pc) && s'.pass.launched ==>
            && AfterLaunch(s.pass.pc) && s.pass.launched
            && (s'.mode.marker <==> s.mode.marker || (l == ByScriptStep(List) && c.honours)))
      && (l != ByPassStep(Relatch) ==> s'.mode.latch == s.mode.latch)
  {
    hide BootApply, BootEnabled, PassApply, PassEnabled, ScriptApply, ScriptEnabled, ShapeOf, MarkInv, AfterLaunch;
    hide GateInv, LockInv;
    match l
    case ByBootStep(b, act) =>
      DiskArmEntry(c, s, b, act);
      BootOpens(c, s, b, act);
    case ByPassStep(act) => MarkKeptByPass(c, s, act);
    case ByScriptStep(act) => MarkKeptByScript(c, s, act);
    case VmStop(_) =>
    case VmCreate(_) =>
  }

  lemma {:induction false} RunMarks(c: Config, trace: seq<State>, labels: seq<Label>, n: nat)
    requires IsRun(c, trace, labels) && n < |trace|
    ensures Inv(c, trace[n]) && MarkInv(c, trace[n].mode, trace[n].pass, trace[n].script)
  {
    hide Inv, Enabled, Apply, MarkInv, Init;
    RunKeeps(c, trace, labels, n);
    if n > 0 {
      RunMarks(c, trace, labels, n - 1);
      MarkStep(c, trace[n - 1], labels[n - 1]);
    } else {
      InitMarks(c, trace[0]);
    }
  }

  lemma InitMarks(c: Config, s: State)
    requires Init(c, s)
    ensures MarkInv(c, s.mode, s.pass, s.script) && s.pass.pc == Idle
  {
  }

  lemma {:induction false} MarkerTells(c: Config, trace: seq<State>, labels: seq<Label>, n: nat) returns (j: nat)
    requires IsRun(c, trace, labels) && n < |trace|
    requires AfterLaunch(trace[n].pass.pc) && trace[n].pass.launched
    ensures LaunchOf(labels, j, n)
    ensures trace[n].mode.marker <==> c.honours && ListedIn(labels, j, n)
  {
    hide Inv, Enabled, Apply, MarkInv, Init;
    InitMarks(c, trace[0]);
    assert n > 0;
    hide AfterLaunch;
    RunMarks(c, trace, labels, n - 1);
    MarkStep(c, trace[n - 1], labels[n - 1]);
    if labels[n - 1] == ByPassStep(Launch) {
      j := n - 1;
    } else {
      j := MarkerTells(c, trace, labels, n - 1);
      assert labels[n - 1] == ByScriptStep(List) ==> ListedIn(labels, j, n);
      assert ListedIn(labels, j, n - 1) ==> ListedIn(labels, j, n);
    }
  }

  /** Renegotiation: the latch is touched only after a pass's script is gone, and is then
      whether the deployed script takes locks and got as far as saying so. */
  lemma RelatchTells(c: Config, trace: seq<State>, labels: seq<Label>, i: nat) returns (j: nat)
    requires IsRun(c, trace, labels) && i < |labels|
    ensures labels[i] != ByPassStep(Relatch) ==> trace[i + 1].mode.latch == trace[i].mode.latch
    ensures labels[i] == ByPassStep(Relatch) ==>
      && trace[i].script == Off && LaunchOf(labels, j, i)
      && (trace[i + 1].mode.latch <==> c.honours && ListedIn(labels, j, i))
  {
    hide Init, ShapeOf, MarkInv, GateInv, LockInv;
    assert Enabled(c, trace[i], labels[i]) && trace[i + 1] == Apply(c, trace[i], labels[i]);
    hide BootApply, BootEnabled, ScriptApply, ScriptEnabled;
    j := 0;
    RunMarks(c, trace, labels, i);
    if labels[i] == ByPassStep(Relatch) {
      hide IsRun;
      j := MarkerTells(c, trace, labels, i);
    } else {
      hide Inv, PassApply, PassEnabled;
      MarkStep(c, trace[i], labels[i]);
    }
  }

  lemma PassReleasing(c: Config, s: State, act: PassAct)
    requires PassEnabled(c, s, act) && PassApply(c, s, act).pass.pc == Releasing
    ensures PassApply(c, s, act).pass.launched == s.pass.launched && s.pass.pc != Releasing
    ensures act == if c.runDir && s.pass.launched then Relatch else KeepLatch
  {
  }

  /** How a pass gets to its release, and that nothing but its own steps take it on. */
  lemma ReleasingStep(c: Config, s: State, l: Label)
    requires Inv(c, s) && Enabled(c, s, l) && Apply(c, s, l).pass.pc == Releasing
    ensures Apply(c, s, l).pass.launched == s.pass.launched
    ensures s.pass.pc != Releasing ==>
      l == ByPassStep(if c.runDir && s.pass.launched then Relatch else KeepLatch)
    ensures s.pass.pc == Releasing ==> !l.ByPassStep? && !l.ByScriptStep? && Apply(c, s, l).mode == s.mode
  {
    hide BootApply, BootEnabled, PassApply, PassEnabled, ScriptApply, ScriptEnabled, ShapeOf, GateInv, LockInv;
    match l
    case ByBootStep(b, act) => DiskArmEntry(c, s, b, act);
    case ByPassStep(act) => PassReleasing(c, s, act);
    case ByScriptStep(act) => ScriptStays(c, s, act);
    case VmStop(_) =>
    case VmCreate(_) =>
  }

  lemma ScriptStays(c: Config, s: State, act: ScriptAct)
    requires ScriptEnabled(c, s, act)
    ensures s.script != Off && ScriptApply(c, s, act).pass == s.pass
  {
  }

  /** So with a run dir every pass that launched its script hands the gate back with the
      latch renegotiated. */
  lemma {:induction false} PassSettlesTheLatch(c: Config, trace: seq<State>, labels: seq<Label>, n: nat)
    returns (j: nat)
    requires IsRun(c, trace, labels) && n < |trace|
    requires trace[n].pass.pc == Releasing && c.runDir && trace[n].pass.launched
    ensures LaunchOf(labels, j, n)
    ensures trace[n].mode.latch <==> c.honours && ListedIn(labels, j, n)
  {
    hide Inv, Enabled, Apply, Init;
    InitMarks(c, trace[0]);
    RunKeeps(c, trace, labels, n - 1);
    ReleasingStep(c, trace[n - 1], labels[n - 1]);
    if trace[n - 1].pass.pc == Releasing {
      j := PassSettlesTheLatch(c, trace, labels, n - 1);
    } else {
      j := RelatchTells(c, trace, labels, n - 1);
    }
    assert labels[n - 1] != ByPassStep(Launch) && labels[n - 1] != ByScriptStep(List);
    assert ListedIn(labels, j, n - 1) <==> ListedIn(labels, j, n);
  }

  // ---- exclusion from here on -------------------------------------------------------------------

  ghost predicate IsPath(c: Config, trace: seq<State>, labels: seq<Label>) {
    && |trace| == |labels| + 1
    && forall i :: 0 <= i < |labels| ==>
         Enabled(c, trace[i], labels[i]) && trace[i + 1] == Apply(c, trace[i], labels[i])
  }

  ghost predicate ExcludedFrom(c: Config, s: State) {
    forall trace, labels :: IsPath(c, trace, labels) && trace[0] == s ==>
      forall i :: 0 <= i < |trace| ==> Excluded(trace[i])
  }

  predicate NoneInDiskArm(boots: map<BootId, Boot>) { forall b :: b in boots ==> !InDiskArm(boots[b].pc) }

  lemma {:induction false} SafePath(c: Config, trace: seq<State>, labels: seq<Label>, i: nat)
    requires IsPath(c, trace, labels) && i < |trace| && Inv(c, trace[0]) && SafeInv(c, trace[0])
    ensures Inv(c, trace[i]) && SafeInv(c, trace[i])
  {
    hide Inv, SafeInv, Enabled, Apply;
    if i > 0 {
      SafePath(c, trace, labels, i - 1);
      Keeps(c, trace[i - 1], labels[i - 1]);
      SafeStep(c, trace[i - 1], labels[i - 1]);
    }
  }

  lemma SettledIsSafe(c: Config, s: State)
    requires Inv(c, s) && MarkInv(c, s.mode, s.pass, s.script) && s.script == Off
    requires Truthful(c, s.mode.latch) && (c.honours || NoneInDiskArm(s.boots))
    ensures ExcludedFrom(c, s)
  {
    hide Fits, BootsExist, InDiskArm, Enabled, Apply;
    assert SafeInv(c, s);
    forall trace, labels, i | IsPath(c, trace, labels) && trace[0] == s && 0 <= i < |trace|
      ensures Excluded(trace[i])
    {
      SafePath(c, trace, labels, i);
      SafeExcludes(c, trace[i]);
    }
  }

  // ---- and only then: a boot left in the disk arm meets the next script -------------------------

  ghost predicate Ends(c: Config, trace: seq<State>, labels: seq<Label>, s: State, t: State) {
    IsPath(c, trace, labels) && trace[0] == s && trace[|labels|] == t
  }

  ghost predicate Reach(c: Config, s: State, t: State) { exists trace, labels :: Ends(c, trace, labels, s, t) }

  lemma Here(c: Config, s: State)
    ensures Reach(c, s, s)
  {
    assert Ends(c, [s], [], s, s);
  }

  lemma On(c: Config, s: State, m: State, l: Label) returns (t: State)
    requires Reach(c, s, m) && Enabled(c, m, l)
    ensures t == Apply(c, m, l) && Reach(c, s, t)
  {
    hide Enabled, Apply;
    t := Apply(c, m, l);
    var trace, labels :| Ends(c, trace, labels, s, m);
    var trace', labels' := trace + [t], labels + [l];
    forall i | 0 <= i < |labels'|
      ensures Enabled(c, trace'[i], labels'[i]) && trace'[i + 1] == Apply(c, trace'[i], labels'[i])
    {
      if i < |labels| {
        assert trace'[i] == trace[i] && labels'[i] == labels[i] && trace'[i + 1] == trace[i + 1];
      }
    }
    assert Ends(c, trace', labels', s, t);
  }

  lemma ReachedBreaks(c: Config, s: State, t: State)
    requires Reach(c, s, t) && !Excluded(t)
    ensures !ExcludedFrom(c, s)
  {
    hide Enabled, Apply, Excluded;
    var trace, labels :| Ends(c, trace, labels, s, t);
  }

  /** A boot has the lock of a stopped disk, and no script is running. */
  ghost predicate Holding(c: Config, m: State, b: BootId, d: Disk) {
    && Inv(c, m) && MarkInv(c, m.mode, m.pass, m.script) && m.script == Off
    && b in m.boots && m.boots[b].disk == d && HoldsDisk(m.boots[b].pc)
    && d in m.world.existing && d !in m.world.open
  }

  /** A step of the pass leaves that as it is. */
  lemma PassOn(c: Config, s: State, m: State, act: PassAct, b: BootId, d: Disk) returns (t: State)
    requires Reach(c, s, m) && Holding(c, m, b, d) && PassEnabled(c, m, act) && act != Launch
    ensures t == PassApply(c, m, act) && Reach(c, s, t) && Holding(c, t, b, d)
  {
    hide PassEnabled, Inv, MarkInv, ShapeOf;
    t := On(c, s, m, ByPassStep(act));
    Keeps(c, m, ByPassStep(act));
    MarkStep(c, m, ByPassStep(act));
    hide HoldsDisk;
  }

  lemma PassReaps(c: Config, s: State, m: State, b: BootId, d: Disk) returns (t: State)
    requires Reach(c, s, m) && Holding(c, m, b, d) && m.pass.pc == Watching
    ensures Reach(c, s, t) && Holding(c, t, b, d) && t.pass.pc == Reaped
  {
    assert PassEnabled(c, m, Reap);
    hide Reach, Holding, PassEnabled;
    t := PassOn(c, s, m, Reap, b, d);
  }

  /** A pass without a script can be brought to its end. */
  lemma PassEnds(c: Config, s: State, m: State, b: BootId, d: Disk) returns (t: State)
    requires Reach(c, s, m) && Holding(c, m, b, d) && m.pass.pc in {Watching, Reaped, Finishing, Releasing}
    ensures Reach(c, s, t) && Holding(c, t, b, d) && t.pass.pc == Idle
  {
    hide Reach, Holding;
    t := m;
    if t.pass.pc == Watching {
      t := PassReaps(c, s, t, b, d);
    }
    if t.pass.pc == Reaped {
      t := PassOn(c, s, t, ClearAfter, b, d);
    }
    if t.pass.pc == Finishing {
      t := PassOn(c, s, t, if c.runDir && t.pass.launched then Relatch else KeepLatch, b, d);
    }
    t := PassOn(c, s, t, ReleaseGate, b, d);
  }

  lemma PassWatches(c: Config, s: State, m: State, b: BootId, d: Disk) returns (t: State)
    requires Reach(c, s, m) && Holding(c, m, b, d) && m.pass.pc in {FirstRead, Asking, Woken}
    ensures Reach(c, s, t) && Holding(c, t, b, d) && t.pass.pc == Watching
  {
    hide Reach, Holding;
    t := m;
    if t.pass.pc != Asking {
      t := PassOn(c, s, t, if t.bell.waiting > 0 then Yield else KeepGoing, b, d);
    }
    if t.pass.pc == Asking {
      t := PassOn(c, s, t, AskToStop(true), b, d);
    }
  }

  /** Nobody but boot `b` need stay: the others leave the queue, */
  lemma {:induction false} QueueEmpties(c: Config, s: State, m: State, b: BootId, d: Disk) returns (t: State)
    requires Reach(c, s, m) && Holding(c, m, b, d)
    ensures Reach(c, s, t) && Holding(c, t, b, d) && t.pass == m.pass
    ensures forall x :: x in t.gate.queue ==> x == Writer
    decreases ShapeOf(m.boots).parked
  {
    t := m;
    if x :| x in m.gate.queue && x != Writer {
      ShapeMoved(m.boots, x.boot, m.boots[x.boot].(pc := Leaving(GivesUp)));
      t := LeavesQueue(c, s, m, x.boot, b, d);
      t := QueueEmpties(c, s, t, b, d);
    }
  }

  lemma LeavesQueue(c: Config, s: State, m: State, other: BootId, b: BootId, d: Disk) returns (t: State)
    requires Reach(c, s, m) && Holding(c, m, b, d) && other in m.boots && m.boots[other].pc == Parked
    ensures Reach(c, s, t) && Holding(c, t, b, d) && t.pass == m.pass
    ensures t.boots == m.boots[other := m.boots[other].(pc := Leaving(GivesUp))]
  {
    var l := ByBootStep(other, LeaveQueue);
    hide Reach, Inv, MarkInv;
    t := On(c, s, m, l);
    Keeps(c, m, l);
    MarkStep(c, m, l);
  }

  /** and give the gate back. */
  lemma {:induction false} ReadersLeave(c: Config, s: State, m: State, b: BootId, d: Disk) returns (t: State)
    requires Reach(c, s, m) && Holding(c, m, b, d)
    requires forall x :: x in m.gate.queue ==> x == Writer
    ensures Reach(c, s, t) && Holding(c, t, b, d) && t.pass == m.pass && t.gate == m.gate.(readers := {})
    decreases m.gate.readers
  {
    t := m;
    if other :| other in m.gate.readers {
      assert other in ShapeOf(m.boots).reading;
      t := LeavesGate(c, s, m, other, b, d);
      t := ReadersLeave(c, s, t, b, d);
    }
  }

  lemma LeavesGate(c: Config, s: State, m: State, other: BootId, b: BootId, d: Disk) returns (t: State)
    requires Reach(c, s, m) && Holding(c, m, b, d) && other in m.boots && HoldsGate(m.boots[other].pc)
    ensures Reach(c, s, t) && Holding(c, t, b, d) && t.pass == m.pass
    ensures t.gate == m.gate.(readers := m.gate.readers - {other})
  {
    var l := ByBootStep(other, if m.boots[other].pc.Leaving? then DropGrant else ReleaseRead);
    hide Reach, Inv, MarkInv;
    t := On(c, s, m, l);
    Keeps(c, m, l);
    MarkStep(c, m, l);
  }

  /** So a pass can always be brought to the launch of its script. */
  lemma PassGetsReady(c: Config, s: State, m: State, b: BootId, d: Disk) returns (t: State)
    requires Reach(c, s, m) && Holding(c, m, b, d)
    ensures Reach(c, s, t) && Holding(c, t, b, d) && t.pass.pc == Ready
  {
    hide Reach, Holding;
    t := m;
    if t.pass.pc in {FirstRead, Asking, Woken} {
      t := PassWatches(c, s, t, b, d);
    }
    if t.pass.pc in {Watching, Reaped, Finishing, Releasing} {
      t := PassEnds(c, s, t, b, d);
    }
    if t.pass.pc == Idle {
      t := PassOn(c, s, t, Begin, b, d);
    }
    if t.pass.pc == Queued {
      t := EntersGate(c, s, t, b, d);
    }
    if t.pass.pc == Entered {
      t := PassOn(c, s, t, ClearBefore, b, d);
    }
    if t.pass.pc == Cleared {
      t := PassOn(c, s, t, RemoveMarker, b, d);
    }
  }

  lemma EntersGate(c: Config, s: State, m: State, b: BootId, d: Disk) returns (t: State)
    requires Reach(c, s, m) && Holding(c, m, b, d) && m.pass.pc == Queued
    ensures Reach(c, s, t) && Holding(c, t, b, d) && t.pass.pc == Entered
  {
    t := QueueEmpties(c, s, m, b, d);
    t := ReadersLeave(c, s, t, b, d);
    assert PassEnabled(c, t, GrantWrite) by {
      assert Writer in t.gate.queue;
    }
    hide Reach, Holding;
    t := PassOn(c, s, t, GrantWrite, b, d);
  }

  /** Once the script is launched it walks into the disk. */
  lemma HolderIsMet(c: Config, s: State, m: State, b: BootId, d: Disk)
    requires Reach(c, s, m) && Holding(c, m, b, d) && !c.honours
    ensures !ExcludedFrom(c, s)
  {
    var t := PassGetsReady(c, s, m, b, d);
    hide Reach, Inv, MarkInv;
    t := On(c, s, t, ByPassStep(Launch));
    t := On(c, s, t, ByScriptStep(List));
    t := On(c, s, t, ByScriptStep(Snapshot));
    t := On(c, s, t, ByScriptStep(EnterBare(d)));
    assert Inside(t, d) && HoldsPermit(t.boots[b].pc);
    ReachedBreaks(c, s, t);
  }

  /** Between scripts. */
  ghost predicate Settled(c: Config, m: State) {
    Inv(c, m) && MarkInv(c, m.mode, m.pass, m.script) && m.script == Off
  }

  lemma BootOn(c: Config, s: State, m: State, b: BootId, act: BootAct) returns (t: State)
    requires Reach(c, s, m) && Settled(c, m) && BootEnabled(c, m, b, act)
    ensures t == BootApply(c, m, b, act) && Reach(c, s, t) && Settled(c, t)
  {
    hide BootEnabled, BootApply, Inv, MarkInv;
    t := On(c, s, m, ByBootStep(b, act));
    Keeps(c, m, ByBootStep(b, act));
    MarkStep(c, m, ByBootStep(b, act));
    BootOpens(c, m, b, act);
  }

  /** Who has a lock no script has. */
  lemma LockHasAHolder(c: Config, m: State, d: Disk) returns (h: BootId)
    requires Settled(c, m) && d in m.locks
    ensures h in m.boots && m.boots[h].disk == d && HoldsDisk(m.boots[h].pc)
  {
    assert m.locks[d] != ByScript;
    h := m.locks[d].boot;
    assert (h, d) in ShapeOf(m.boots).locking;
  }

  /** If a boot is in the disk arm, someone can get hold of a disk lock. */
  lemma SomeoneLocks(c: Config, s: State, m: State, b: BootId) returns (t: State, h: BootId)
    requires Reach(c, s, m) && Settled(c, m) && b in m.boots && InDiskArm(m.boots[b].pc)
    ensures Reach(c, s, t) && Settled(c, t) && h in t.boots && HoldsDisk(t.boots[h].pc)
  {
    hide Reach, Settled;
    t, h := m, b;
    var d := m.boots[b].disk;
    if HoldsDisk(m.boots[b].pc) {
    } else if d in m.locks {
      h := LockHasAHolder(c, m, d);
    } else if m.boots[b].pc == Opening {
      t := BootOn(c, s, t, b, TakeLock);
    } else {
      t := PollsAndLocks(c, s, t, b);
    }
  }

  lemma PollsAndLocks(c: Config, s: State, m: State, b: BootId) returns (t: State)
    requires Reach(c, s, m) && Settled(c, m) && b in m.boots && m.boots[b].disk !in m.locks
    requires m.boots[b].pc in {Contended(OnDisk), Notifying(OnDisk), Polling}
    ensures Reach(c, s, t) && Settled(c, t) && b in t.boots && HoldsDisk(t.boots[b].pc)
  {
    hide Reach, Settled;
    t := m;
    if t.boots[b].pc.Contended? {
      t := BootOn(c, s, t, b, Count);
    }
    if t.boots[b].pc.Notifying? {
      t := BootOn(c, s, t, b, Notify);
    }
    t := BootOn(c, s, t, b, PollTake);
  }

  lemma LeftoverBootBreaks(c: Config, s: State, m: State, b: BootId)
    requires Reach(c, s, m) && Settled(c, m) && b in m.boots && InDiskArm(m.boots[b].pc) && !c.honours
    ensures !ExcludedFrom(c, s)
  {
    var t, h := SomeoneLocks(c, s, m, b);
    var d := t.boots[h].disk;
    hide Reach, ShapeOf, Fits, MarkInv, HoldsDisk;
    if d in t.world.open {
      Keeps(c, t, VmStop(d));
      t := On(c, s, t, VmStop(d));
    }
    HolderIsMet(c, s, t, h, d);
  }

  lemma {:induction false} Unused(keys: set<BootId>) returns (b: BootId)
    ensures forall x :: x in keys ==> x < b
  {
    if x :| x in keys {
      var rest := Unused(keys - {x});
      b := if rest > x then rest else x + 1;
      assert forall y :: y in keys ==> y == x || y in keys - {x};
    } else {
      b := 0;
    }
  }

  lemma FalseLatchBreaks(c: Config, s: State)
    requires Settled(c, s) && s.mode.latch && c.lockable != {} && !c.honours
    ensures !ExcludedFrom(c, s)
  {
    Here(c, s);
    var t := s;
    var d :| d in c.lockable;
    hide Reach, Inv, ExcludedFrom;
    if d !in t.world.existing {
      Keeps(c, t, VmCreate(d));
      t := On(c, s, t, VmCreate(d));
    }
    hide MarkInv;
    var b := Unused(t.boots.Keys);
    t := BootOn(c, s, t, b, Arrive(d));
    t := BootOn(c, s, t, b, ChooseDisk);
    LeftoverBootBreaks(c, s, t, b);
  }

  /** Between scripts, of every run from every start, a rolled-back one included:
      exclusion holds from here on, whatever follows, if and only if the latch is true to
      the deployed script and no boot in the disk arm counts on a script that takes
      locks and does not. */
  lemma ExcludedFromHereExactly(c: Config, trace: seq<State>, labels: seq<Label>, n: nat)
    requires IsRun(c, trace, labels) && n < |trace| && trace[n].script == Off
    ensures
      ExcludedFrom(c, trace[n]) <==>
        Truthful(c, trace[n].mode.latch) && (c.honours || NoneInDiskArm(trace[n].boots))
  {
    RunMarks(c, trace, labels, n);
    var s := trace[n];
    hide IsRun, Inv, MarkInv, ExcludedFrom, InDiskArm;
    if !Truthful(c, s.mode.latch) {
      FalseLatchBreaks(c, s);
    } else if b :| b in s.boots && InDiskArm(s.boots[b].pc) && !c.honours {
      Here(c, s);
      LeftoverBootBreaks(c, s, s, b);
    } else {
      SettledIsSafe(c, s);
    }
  }

  /** After a rollback, then: once a pass has renegotiated the latch and the boots that
      had read the old one are gone, exclusion is back for good. */
  lemma PassRestoresExclusion(c: Config, trace: seq<State>, labels: seq<Label>, i: nat, n: nat)
    requires IsRun(c, trace, labels) && i < n < |trace| && labels[i] == ByPassStep(Relatch)
    requires trace[n].script == Off && NoneInDiskArm(trace[n].boots)
    ensures ExcludedFrom(c, trace[n])
    ensures forall k :: n <= k < |trace| ==> Excluded(trace[k])
  {
    hide Init, Inv, Enabled, Apply, ExcludedFrom, Excluded, NoneInDiskArm;
    assert Truthful(c, trace[n].mode.latch) by { LatchStaysTrue(c, trace, labels, i, n); }
    ExcludedFromHereExactly(c, trace, labels, n);
    forall k | n <= k < |trace| ensures Excluded(trace[k]) {
      RestIsExcluded(c, trace, labels, n, k);
    }
  }

  lemma {:induction false} LatchStaysTrue(c: Config, trace: seq<State>, labels: seq<Label>, i: nat, n: nat)
    requires IsRun(c, trace, labels) && i < n < |trace| && labels[i] == ByPassStep(Relatch)
    ensures trace[n].mode.latch ==> c.honours
  {
    hide Init, Inv, Enabled, Apply;
    var j := RelatchTells(c, trace, labels, n - 1);
    if i < n - 1 {
      LatchStaysTrue(c, trace, labels, i, n - 1);
    }
  }

  lemma RestIsExcluded(c: Config, trace: seq<State>, labels: seq<Label>, n: nat, k: nat)
    requires IsRun(c, trace, labels) && n <= k < |trace| && ExcludedFrom(c, trace[n])
    ensures Excluded(trace[k])
  {
    hide Init, Enabled, Apply, Excluded;
    assert IsPath(c, trace[n..], labels[n..]);
    assert trace[n..][0] == trace[n] && trace[n..][k - n] == trace[k];
  }
}
