/**
 * What becomes of a boot (src/reclaim.rs): why it ever leaves, who may get the gate
 * before a queued pass, what wakes a pass, and which disks are open.
 */
module ReclaimBoots {
  import opened Reclaim

  // ---- a boot leaves only by its own choice --------------------------------------------------

  /** Steps by which a boot gives back its permit, or gives up waiting for one. */
  predicate IsChoice(act: BootAct) {
    act in {ReleaseDisk, ReleaseRead, PollGiveUp, LeaveQueue, DropGrant}
  }

  predicate Out(pc: BootPc) { pc == Gone || pc == Leaving(GivesUp) }

  lemma OutStep(c: Config, s: State, b: BootId, act: BootAct)
    requires BootEnabled(c, s, b, act) && Out(BootApply(c, s, b, act).boots[b].pc)
    ensures IsChoice(act) || (b in s.boots && Out(s.boots[b].pc))
  {
  }

  lemma OthersStand(c: Config, s: State, l: Label, b: BootId)
    requires Enabled(c, s, l) && !(l.ByBootStep? && l.boot == b)
    ensures b in Apply(c, s, l).boots <==> b in s.boots
    ensures b in s.boots ==> Apply(c, s, l).boots[b] == s.boots[b]
  {
    hide BootApply, BootEnabled;
  }

  /** A lock file that cannot be opened, a lock that is held, a gate that is closed: none of
      it costs a boot. One that is gone, or about to be, has given its permit back or has
      given up waiting. */
  lemma {:induction false} BootsLeaveByChoice(c: Config, trace: seq<State>, labels: seq<Label>, n: nat, b: BootId)
    returns (j: nat)
    requires IsRun(c, trace, labels) && n < |trace| && b in trace[n].boots && Out(trace[n].boots[b].pc)
    ensures j < n && labels[j].ByBootStep? && labels[j].boot == b && IsChoice(labels[j].act)
  {
    hide BootApply, BootEnabled, PassApply, PassEnabled, ScriptApply, ScriptEnabled;
    assert n > 0;
    hide Init;
    var s, l := trace[n - 1], labels[n - 1];
    assert Enabled(c, s, l) && trace[n] == Apply(c, s, l);
    if l.ByBootStep? && l.boot == b {
      OutStep(c, s, b, l.act);
      if IsChoice(l.act) {
        j := n - 1;
        return;
      }
    } else {
      OthersStand(c, s, l, b);
    }
    j := BootsLeaveByChoice(c, trace, labels, n - 1, b);
  }

  /** The boot is in the gate's arm of `acquire`. */
  predicate AtGate(pc: BootPc) {
    || pc == Trying || pc == Contended(OnGate) || pc == Notifying(OnGate) || pc == Queueing || pc == Parked
    || pc == Leaving(RetriesOnGate) || pc == Leaving(TakesGate) || pc == Held(GateRead)
  }

  lemma GateStep(c: Config, s: State, b: BootId, act: BootAct)
    requires BootEnabled(c, s, b, act) && AtGate(BootApply(c, s, b, act).boots[b].pc)
    ensures act in {ChooseGate, FindLockBroken, PollBroken} || (b in s.boots && AtGate(s.boots[b].pc))
    ensures act == ChooseGate ==> !s.mode.latch || s.boots[b].disk !in c.lockable
  {
  }

  /** With per-disk locks a boot waits for its own disk only. It comes to the gate if it read
      the latch unset, its disk cannot be locked, or the lock file turned out unusable. */
  lemma {:induction false} GateIsForCause(c: Config, trace: seq<State>, labels: seq<Label>, n: nat, b: BootId)
    returns (j: nat)
    requires IsRun(c, trace, labels) && n < |trace| && b in trace[n].boots && AtGate(trace[n].boots[b].pc)
    ensures j < n && labels[j].ByBootStep? && labels[j].boot == b && b in trace[j].boots
    ensures
      || labels[j].act == FindLockBroken || labels[j].act == PollBroken
      || (labels[j].act == ChooseGate && (!trace[j].mode.latch || trace[j].boots[b].disk !in c.lockable))
  {
    hide BootApply, BootEnabled, PassApply, PassEnabled, ScriptApply, ScriptEnabled;
    assert n > 0;
    hide Init;
    var s, l := trace[n - 1], labels[n - 1];
    assert Enabled(c, s, l) && trace[n] == Apply(c, s, l);
    if l.ByBootStep? && l.boot == b {
      GateStep(c, s, b, l.act);
      if l.act in {ChooseGate, FindLockBroken, PollBroken} {
        j := n - 1;
        assert b in s.boots by { OnlyArrives(c, s, b, l.act); }
        return;
      }
    } else {
      OthersStand(c, s, l, b);
    }
    j := GateIsForCause(c, trace, labels, n - 1, b);
  }

  lemma OnlyArrives(c: Config, s: State, b: BootId, act: BootAct)
    requires BootEnabled(c, s, b, act)
    ensures act.Arrive? <==> b !in s.boots
  {
  }

  // ---- a queued pass is not overtaken --------------------------------------------------------------

  /** The boots queued ahead of the pass. */
  function Ahead(q: seq<Waiter>): set<BootId> {
    if q == [] || q[0] == Writer then {} else {q[0].boot} + Ahead(q[1..])
  }

  lemma {:induction false} AheadAppend(q: seq<Waiter>, w: Waiter)
    requires Writer in q
    ensures Ahead(q + [w]) == Ahead(q)
  {
    assert (q + [w])[0] == q[0];
    if q[0] != Writer {
      assert (q + [w])[1..] == q[1..] + [w];
      AheadAppend(q[1..], w);
    }
  }

  lemma {:induction false} AheadLeave(q: seq<Waiter>, b: BootId)
    ensures Ahead(Leave(q, Reader(b))) <= Ahead(q)
  {
    if q != [] {
      AheadLeave(q[1..], b);
      if q[0] != Reader(b) {
        var rest := Leave(q[1..], Reader(b));
        assert ([q[0]] + rest)[1..] == rest;
      }
    }
  }

  lemma QueueStep(c: Config, s: State, b: BootId, act: BootAct)
    requires BootEnabled(c, s, b, act) && Writer in s.gate.queue
    ensures
      var s' := BootApply(c, s, b, act);
      && s'.pass == s.pass
      && Ahead(s'.gate.queue) <= Ahead(s.gate.queue) && s'.gate.readers <= s.gate.readers + Ahead(s.gate.queue)
  {
    hide Leave;
    if act == Enqueue {
      AheadAppend(s.gate.queue, Reader(b));
    } else if act == LeaveQueue || act == Grant {
      AheadLeave(s.gate.queue, b);
    }
  }

  lemma WaitStep(c: Config, s: State, l: Label)
    requires Inv(c, s) && Enabled(c, s, l) && s.pass.pc == Queued && Apply(c, s, l).pass.pc == Queued
    ensures
      var s' := Apply(c, s, l);
      Ahead(s'.gate.queue) <= Ahead(s.gate.queue) && s'.gate.readers <= s.gate.readers + Ahead(s.gate.queue)
  {
    hide BootApply, BootEnabled, ScriptApply, ScriptEnabled, ShapeOf, LockInv, Ahead;
    match l
    case ByBootStep(b, act) => QueueStep(c, s, b, act);
    case ByPassStep(_) =>
    case ByScriptStep(act) => ScriptLeavesGate(c, s, act);
    case VmStop(_) =>
    case VmCreate(_) =>
  }

  lemma ScriptLeavesGate(c: Config, s: State, act: ScriptAct)
    requires ScriptEnabled(c, s, act)
    ensures ScriptApply(c, s, act).gate == s.gate
  {
  }

  /** The gate is fair: while a pass is queued, no boot gets it but those queued before. */
  lemma {:induction false} NoBootOvertakesThePass(c: Config, trace: seq<State>, labels: seq<Label>, j: nat, n: nat)
    requires IsRun(c, trace, labels) && j <= n < |trace| && forall k :: j <= k <= n ==> trace[k].pass.pc == Queued
    ensures trace[n].gate.readers <= trace[j].gate.readers + Ahead(trace[j].gate.queue)
    ensures Ahead(trace[n].gate.queue) <= Ahead(trace[j].gate.queue)
  {
    hide Inv, Enabled, Apply, Init, Ahead;
    if j < n {
      NoBootOvertakesThePass(c, trace, labels, j, n - 1);
      RunKeeps(c, trace, labels, n - 1);
      assert trace[n - 1].pass.pc == Queued && trace[n].pass.pc == Queued;
      WaitStep(c, trace[n - 1], labels[n - 1]);
    }
  }

  // ---- wakeups -----------------------------------------------------------------------------------

  predicate IsNotify(l: Label) { l.ByBootStep? && l.act == Notify }

  function Notifies(labels: seq<Label>): nat {
    if labels == [] then 0 else
      Notifies(labels[..|labels| - 1]) + if IsNotify(labels[|labels| - 1]) then 1 else 0
  }

  function Wakes(labels: seq<Label>): nat {
    if labels == [] then 0 else
      Wakes(labels[..|labels| - 1]) + if labels[|labels| - 1] == ByPassStep(Wake) then 1 else 0
  }

  function Stored(bell: Bell): nat { if bell.permit then 1 else 0 }

  lemma BootBell(c: Config, s: State, b: BootId, act: BootAct)
    requires BootEnabled(c, s, b, act)
    ensures BootApply(c, s, b, act).bell.permit <==> s.bell.permit || act == Notify
  {
  }

  lemma PassBell(c: Config, s: State, act: PassAct)
    requires PassEnabled(c, s, act)
    ensures act == Wake ==> s.bell.permit
    ensures PassApply(c, s, act).bell.permit <==> s.bell.permit && act != Wake
  {
  }

  lemma ScriptBell(c: Config, s: State, act: ScriptAct)
    requires ScriptEnabled(c, s, act)
    ensures ScriptApply(c, s, act).bell == s.bell
  {
  }

  lemma BellStep(c: Config, s: State, l: Label)
    requires Enabled(c, s, l)
    ensures
      Stored(Apply(c, s, l).bell) + (if l == ByPassStep(Wake) then 1 else 0)
      <= Stored(s.bell) + if IsNotify(l) then 1 else 0
    ensures IsNotify(l) ==> Apply(c, s, l).bell.permit
  {
    hide BootApply, BootEnabled, PassApply, PassEnabled, ScriptApply, ScriptEnabled;
    match l
    case ByBootStep(b, act) => BootBell(c, s, b, act);
    case ByPassStep(act) => PassBell(c, s, act);
    case ByScriptStep(act) => ScriptBell(c, s, act);
    case VmStop(_) =>
    case VmCreate(_) =>
  }

  /** A pass is woken at most once for each notification, the one stored at the start included. */
  lemma {:induction false} WakesAreNotified(c: Config, trace: seq<State>, labels: seq<Label>, n: nat)
    requires IsRun(c, trace, labels) && n < |trace|
    ensures Wakes(labels[..n]) + Stored(trace[n].bell) <= Notifies(labels[..n]) + Stored(trace[0].bell)
  {
    hide Enabled, Apply, Init;
    if n > 0 {
      WakesAreNotified(c, trace, labels, n - 1);
      BellStep(c, trace[n - 1], labels[n - 1]);
      assert labels[..n][..n - 1] == labels[..n - 1];
    }
  }

  // ---- open disks ---------------------------------------------------------------------------------

  /** A VM on the disk is started or made. */
  predicate Opens(s: State, l: Label, d: Disk) {
    || (l.ByBootStep? && l.act == StartVm && l.boot in s.boots && s.boots[l.boot].disk == d)
    || l == VmCreate(d)
  }

  lemma OpenStep(c: Config, s: State, l: Label, d: Disk)
    requires Enabled(c, s, l)
    ensures d in Apply(c, s, l).world.open <==> Opens(s, l, d) || (d in s.world.open && l != VmStop(d))
  {
    hide PassApply, PassEnabled, ScriptApply, ScriptEnabled;
    if l.ByPassStep? {
      PassLeavesDisks(c, s, l.passAct);
    } else if l.ByScriptStep? {
      ScriptLeavesDisks(c, s, l.scriptAct);
    }
  }

  lemma ScriptLeavesDisks(c: Config, s: State, act: ScriptAct)
    requires ScriptEnabled(c, s, act)
    ensures ScriptApply(c, s, act).world == s.world
  {
  }

  /** A disk is open exactly if a VM has been started on it, or was running at the start,
      and has not been stopped since. */
  lemma {:induction false} OpenExactly(c: Config, trace: seq<State>, labels: seq<Label>, n: nat, d: Disk)
    requires IsRun(c, trace, labels) && n < |trace|
    ensures
      d in trace[n].world.open <==>
        || (d in trace[0].world.open && VmStop(d) !in labels[..n])
        || exists j :: 0 <= j < n && Opens(trace[j], labels[j], d) && VmStop(d) !in labels[j..n]
  {
    hide Enabled, Apply, Init, Opens;
    if n > 0 {
      OpenExactly(c, trace, labels, n - 1, d);
      OpenStep(c, trace[n - 1], labels[n - 1], d);
      assert labels[..n] == labels[..n - 1] + [labels[n - 1]];
      assert forall j :: 0 <= j < n ==> labels[j..n] == labels[j..n - 1] + [labels[n - 1]];
      NotAStop(trace[n - 1], labels[n - 1], d);
    }
  }

  /** A script ends by its own exit and by nothing it finds on a disk; its pass goes on only
      once it has, and however it went, ends by handing the gate back. */
  lemma ScriptEndsItself(c: Config, trace: seq<State>, labels: seq<Label>, n: nat)
    requires IsRun(c, trace, labels) && n < |labels|
    ensures trace[n + 1].script == Exited && trace[n].script != Exited ==> labels[n] == ByScriptStep(Exit)
    ensures trace[n + 1].script == Off && trace[n].script != Off ==>
      labels[n] == ByPassStep(Reap) && trace[n].script == Exited
    ensures trace[n + 1].pass.pc == Idle && trace[n].pass.pc != Idle ==>
      labels[n] == ByPassStep(ReleaseGate) && trace[n].script == Off && trace[n].gate.writer
  {
    hide Init, Inv, Enabled, Apply;
    RunKeeps(c, trace, labels, n);
    EndStep(c, trace[n], labels[n]);
  }

  lemma EndStep(c: Config, s: State, l: Label)
    requires Inv(c, s) && Enabled(c, s, l)
    ensures
      var s' := Apply(c, s, l);
      && (s'.script == Exited && s.script != Exited ==> l == ByScriptStep(Exit))
      && (s'.script == Off && s.script != Off ==> l == ByPassStep(Reap) && s.script == Exited)
      && (s'.pass.pc == Idle && s.pass.pc != Idle ==>
            l == ByPassStep(ReleaseGate) && s.script == Off && s.gate.writer)
  {
    hide BootApply, BootEnabled, ScriptApply, ScriptEnabled, LockInv, ShapeOf;
    if l.ByBootStep? {
      BootOpens(c, s, l.boot, l.act);
      DiskArmEntry(c, s, l.boot, l.act);
    } else if l.ByScriptStep? {
      ScriptEnds(c, s, l.scriptAct);
    }
  }

  lemma ScriptEnds(c: Config, s: State, act: ScriptAct)
    requires ScriptEnabled(c, s, act)
    ensures ScriptApply(c, s, act).pass == s.pass && ScriptApply(c, s, act).script != Off
    ensures ScriptApply(c, s, act).script == Exited ==> act == Exit
  {
  }

  /** The disk is one this script may work on: listed, and not in use as far as it can see. */
  predicate Workable(c: Config, s: State, d: Disk) {
    && s.script.Walking? && s.script.work == Between && d in s.script.disks && d !in s.script.snapshot
    && (c.honours ==> d !in s.locks && d !in s.world.open)
  }

  /** A disk there when a script lists and stopped when it takes its snapshot is one, whatever
      the VMs do in between, unless a boot has its lock. */
  lemma StoppedDisksAreWorkable(c: Config, s: State, w: World, d: Disk)
    requires s.script == Launched && d in s.world.existing && d !in w.open && (c.honours ==> d !in s.locks)
    ensures
      var listed := ScriptApply(c, s, List).(world := w);
      && ScriptEnabled(c, s, List) && ScriptEnabled(c, listed, Snapshot)
      && Workable(c, ScriptApply(c, listed, Snapshot), d)
  {
  }

  /** And no such disk is passed over for good: from every such state the script can go inside,
      under the disk's lock if it takes locks, and come out with everything as it was. */
  lemma ScriptCanWork(c: Config, s: State, d: Disk) returns (inside: State, after: State)
    requires Workable(c, s, d)
    ensures
      if c.honours then
        && ScriptEnabled(c, s, LockDisk(d)) && ScriptEnabled(c, ScriptApply(c, s, LockDisk(d)), FindFree)
        && inside == ScriptApply(c, ScriptApply(c, s, LockDisk(d)), FindFree)
        && ScriptEnabled(c, inside, LeaveLocked) && after == ScriptApply(c, inside, LeaveLocked)
      else
        && ScriptEnabled(c, s, EnterBare(d)) && inside == ScriptApply(c, s, EnterBare(d))
        && ScriptEnabled(c, inside, LeaveBare) && after == ScriptApply(c, inside, LeaveBare)
    ensures Inside(inside, d) && (c.honours ==> d in inside.locks && inside.locks[d] == ByScript) && after == s
  {
    if c.honours {
      inside := ScriptApply(c, ScriptApply(c, s, LockDisk(d)), FindFree);
      after := ScriptApply(c, inside, LeaveLocked);
      assert after.locks == s.locks;
    } else {
      inside := ScriptApply(c, s, EnterBare(d));
      after := ScriptApply(c, inside, LeaveBare);
    }
  }

  lemma NotAStop(s: State, l: Label, d: Disk)
    ensures Opens(s, l, d) ==> l != VmStop(d)
  {
  }
}
