/**
 * What the ladder's steps come to (src/registry.rs): what an offload frees, what a
 * fallback ends in, when a schema's VM runs, and what a restart serves.
 */
module OffloadEffects {
  import opened Text
  import opened RegistryText
  import opened Offload
  import Picker

  /** The jobs of which the drain runs one at a time are exactly those that bring a VM up. */
  lemma BootsExactly(s: State)
    requires s.ledger.log != [] && s.op.Op? && s.op.stage == Evicted
    ensures Enabled(s, BringUp) <==> Picker.Boots(JobOf(s.op.kind))
  {
  }

  /** What the ladder is for: a step that destroys leaves nothing of what the operation copied
      from, and nothing else is different. */
  lemma DestroyFrees(s: State)
    requires Enabled(s, Destroy(true)) && DisksOk(s.places)
    ensures
      var s', op := Apply(s, Destroy(true)), s.op;
      && s'.op == NoOp && Source(s'.places, op) == None
      && s'.places.dump == s.places.dump && s'.places.image == s.places.image
      && (op.kind != PromoteDump ==> s'.places.dumpFile == s.places.dumpFile)
      && (op.kind != PromoteImage ==> s'.places.imageFile == s.places.imageFile)
      && (!(FromVm(op.kind) && IsCurrent(s.places, op.target)) ==> s'.places.vm == s.places.vm)
      && (forall vm :: vm != op.target || !FromVm(op.kind) ==> DiskOf(s'.places, vm) == DiskOf(s.places, vm))
  {
  }

  /** A dump archive whose dump does not work out ends as an image archive of the same disk,
      and that is what its schema is then restored from. */
  lemma FallbackStillArchives(s: State, len: nat) returns (t: State)
    requires Enabled(s, Fallback) && DiskOf(s.places, s.op.target).Some? && len >= MIN_IMAGE_BYTES
    ensures
      var s1 := Apply(s, Fallback);
      && Enabled(s1, Save(len, false)) && Enabled(Apply(s1, Save(len, false)), Clear)
      && Enabled(Apply(Apply(s1, Save(len, false)), Clear), Flip)
      && t == Apply(Apply(Apply(s1, Save(len, false)), Clear), Flip)
    ensures Current(t) == Archived && Restorable(t.places, Archived) == DiskOf(s.places, s.op.target)
    ensures t.ledger.log == s.ledger.log + [Mark(Archived, s.op.author)] && !t.clients.up
  {
    t := Apply(s, Fallback);
    assert Enabled(t, Save(len, false)) && Source(t.places, t.op) == DiskOf(s.places, s.op.target);
    assert t.ledger == s.ledger && t.op == Op(ImageArchive, Halted, s.op.author, s.op.target) && !t.clients.up;
    t := SavedImageFlips(t, len);
  }

  lemma SavedImageFlips(s: State, len: nat) returns (t: State)
    requires Enabled(s, Save(len, false)) && s.op.kind == ImageArchive
    ensures
      var s1 := Apply(s, Save(len, false));
      Enabled(s1, Clear) && Enabled(Apply(s1, Clear), Flip) && t == Apply(Apply(s1, Clear), Flip)
    ensures Current(t) == Archived && Restorable(t.places, Archived) == Source(s.places, s.op)
    ensures t.ledger.log == s.ledger.log + [Mark(Archived, s.op.author)] && t.clients == s.clients
  {
    hide ClientApply, ClientEnabled, AtCopy;
    t := Apply(s, Save(len, false));
    assert t.places == s.places.(image := Some(Obj(Source(s.places, s.op).value, len, s.op.author)));
    assert t.op == s.op.(stage := Saved(len)) && t.ledger == s.ledger && t.clients == s.clients;
    hide Copied, Source;
    t := Apply(Apply(t, Clear), Flip);
  }

  /** Ids are never given out twice, in any run. */
  lemma DisksKept(s: State, l: Label)
    requires Enabled(s, l) && DisksOk(s.places)
    ensures DisksOk(Apply(s, l).places)
  {
    if !l.Land? && !l.Crash? {
      if IsClient(l) {
        DisksKeptByClient(s, l);
      } else {
        DisksKeptByOp(s, l);
      }
    }
  }

  lemma DisksKeptByClient(s: State, l: Label)
    requires s.ledger.log != [] && IsClient(l) && ClientEnabled(s, l) && DisksOk(s.places)
    ensures DisksOk(ClientApply(s, l).places)
  {
    hide Restorable, Chosen;
  }

  lemma DisksKeptByOp(s: State, l: Label)
    requires s.ledger.log != [] && OpEnabled(s, l) && DisksOk(s.places)
    ensures DisksOk(OpApply(s, l).places)
  {
    hide Source, AtCopy, Suits, CanFlip;
  }

  /** What a restart serves: the pooler dies, and the next checkout starts the VM or restores
      what the tier in the file names. It then serves the data exactly if the state was
      safe to reload, and gets nothing up at all only if it was not. */
  lemma RestartServesExactly(s: State)
    requires Enabled(s, Crash)
    ensures Enabled(Apply(s, Crash), Pass)
    ensures
      var t := Apply(Apply(s, Crash), Pass);
      var l := if Current(t) == Live then Start else Restore;
      && (Enabled(t, l) ==> (ReloadSafe(s) <==> Is(Apply(t, l).places.vm, s.version)) && Apply(t, l).clients.up)
      && (ReloadSafe(s) ==> Enabled(t, l))
  {
    hide Chosen;
  }

  // ---- what the dashboard says there is ---------------------------------------------------------------

  /** `probe_archive`: the object a restore would find, and its size. */
  function ProbeArchive(dump: Head, image: Head): Option<(RestoreKind, nat)> {
    var d, i := LenOf(dump), LenOf(image);
    match ChooseRestore(d, i)
    case FromDump => if d.Some? && d.value >= MIN_DUMP_BYTES then Some((FromDump, d.value)) else None
    case FromImage => if i.Some? && i.value >= MIN_IMAGE_BYTES then Some((FromImage, i.value)) else None
  }

  /** It never advertises a restore that the checkout would not make: it reports something
      exactly if one of the objects is of a plausible size, and then the very one that
      `pick_restore` picks, the dump if both are. */
  lemma ProbeIsThePick(dump: Head, image: Head)
    ensures
      var found := ProbeArchive(dump, image);
      var d, i := dump.Answer? && dump.len.Some? && dump.len.value >= 512,
                  image.Answer? && image.len.Some? && image.len.value >= 1024;
      && (found.Some? <==> d || i)
      && (found.Some? ==> found.value.0 == PickRestore(dump, image))
      && (found.Some? ==> if d then found.value == (FromDump, dump.len.value)
                          else found.value == (FromImage, image.len.value))
  {
  }

  // ---- when the VM runs --------------------------------------------------------------------------

  predicate StartsVm(l: Label) { l.Start? || l.Restore? || l.BringUp? }

  predicate StopsVm(s: State, l: Label) {
    || l == Halt(true) || l == Fallback || l == Fail(true) || l == Chill
    || (l == Destroy(true) && s.op.Op? && FromVm(s.op.kind) && IsCurrent(s.places, s.op.target))
  }

  lemma UpByMove(s: State, l: Label)
    requires s.ledger.log != [] && OpEnabled(s, l) && (l.BringUp? || l.Halt? || l.Fallback? || l.Destroy? || l.Fail?)
    ensures OpApply(s, l).clients.up <==> StartsVm(l) || (s.clients.up && !StopsVm(s, l))
  {
    hide Destroyed, NewVm;
  }

  lemma UpByOp(s: State, l: Label)
    requires s.ledger.log != [] && OpEnabled(s, l)
    ensures OpApply(s, l).clients.up <==> StartsVm(l) || (s.clients.up && !StopsVm(s, l))
  {
    if l.BringUp? || l.Halt? || l.Fallback? || l.Destroy? || l.Fail? {
      hide OpApply, OpEnabled, StartsVm, StopsVm;
      UpByMove(s, l);
    } else {
      hide Copied, Source, AtCopy, Suits, CanFlip;
    }
  }

  lemma UpByClient(s: State, l: Label)
    requires s.ledger.log != [] && IsClient(l) && ClientEnabled(s, l)
    ensures ClientApply(s, l).clients.up <==> StartsVm(l) || (s.clients.up && !StopsVm(s, l))
  {
    hide Restorable, Chosen, NewVm;
  }

  lemma UpStep(s: State, l: Label)
    requires Enabled(s, l)
    ensures Apply(s, l).clients.up <==> StartsVm(l) || (s.clients.up && !StopsVm(s, l))
  {
    hide OpApply, OpEnabled, ClientApply, ClientEnabled;
    if !l.Land? && !l.Crash? {
      if IsClient(l) {
        UpByClient(s, l);
      } else {
        UpByOp(s, l);
      }
    }
  }

  /** The schema's VM runs exactly if it has been started, or ran at the start, and has not
      been stopped since: through crashes of the pooler too. */
  lemma {:induction false} VmRunsExactly(trace: seq<State>, labels: seq<Label>, n: nat)
    requires IsPath(trace, labels) && n < |trace|
    ensures
      trace[n].clients.up <==>
        || (trace[0].clients.up && forall k :: 0 <= k < n ==> !StopsVm(trace[k], labels[k]))
        || exists j :: 0 <= j < n && StartsVm(labels[j]) && forall k :: j < k < n ==> !StopsVm(trace[k], labels[k])
  {
    hide Enabled, Apply, StartsVm, StopsVm;
    if n > 0 {
      VmRunsExactly(trace, labels, n - 1);
      UpStep(trace[n - 1], labels[n - 1]);
      NotBoth(trace[n - 1], labels[n - 1]);
    }
  }

  lemma NotBoth(s: State, l: Label)
    ensures !(StartsVm(l) && StopsVm(s, l))
  {
  }
}
