/**
 * The registry store by what its callers said (src/store.rs). Module Store speaks of
 * its own log of changes; here every field of every record, in memory and in the
 * file, is traced to the call that gave it.
 */
module StoreRecords {
  import opened Text
  import opened RegistryText
  import opened Store

  datatype Field = VmId | Clock | Level

  /** A call says what a field of the schema's record is to be. */
  predicate Sets(s: State, l: Label, schema: string, f: Field) {
    match l
    case Touch(k, _) => k == schema && f == Clock
    case PutBump(k, _, _) => k == schema && f == Clock
    case PutBind(_, k, _, _) => k == schema
    case Adopt(_, k, _) => k == schema && (f == Level || schema !in s.core.entries)
    case SetTier(_, k, _, _) => k == schema && f == Level
    case _ => false
  }

  /** The field is what the call said: the caller's time, VM or tier; a binding is live, an
      adoption archived, with an invented id if the schema was not there. */
  predicate Shows(rec: Rec, l: Label, f: Field) {
    match f
    case Clock => (l.Touch? || l.PutBump? || l.PutBind? || l.Adopt?) && rec.lastActive == l.now
    case VmId => (l.PutBind? && rec.id == l.id) || (l.Adopt? && rec.id == "pending-restore-" + l.schema)
    case Level =>
      || (l.PutBind? && rec.tier == Live) || (l.Adopt? && rec.tier == Archived)
      || (l.SetTier? && rec.tier == l.tier)
  }

  predicate Same(rec: Rec, rec': Rec, f: Field) {
    match f
    case Clock => rec.lastActive == rec'.lastActive
    case VmId => rec.id == rec'.id
    case Level => rec.tier == rec'.tier
  }

  lemma FieldStep(s: State, l: Label, schema: string, f: Field)
    requires Enabled(s, l) && !l.Crash?
    ensures
      var m, m' := s.core.entries, Apply(s, l).core.entries;
      && (Sets(s, l, schema, f) ==> schema in m' && Shows(m'[schema], l, f))
      && (!Sets(s, l, schema, f) ==> (schema in m <==> schema in m'))
      && (!Sets(s, l, schema, f) && schema in m ==> Same(m'[schema], m[schema], f))
  {
    hide Enumerates, Clean, Ids, Written;
  }

  /** No restart and no call about the field in between. */
  predicate Untouched(trace: seq<State>, labels: seq<Label>, i: int, n: int, schema: string, f: Field)
    requires 0 <= i <= n < |trace| == |labels| + 1
  {
    forall k :: i <= k < n ==> !labels[k].Crash? && !Sets(trace[k], labels[k], schema, f)
  }

  lemma Loads(s: State, l: Label)
    requires Enabled(s, l) && l.Crash?
    ensures Apply(s, l).core.entries == Parse(s.disk.text, l.now)
  {
  }

  /** In every run, each field of each record is what the last call about it said, or what
      was loaded if there has been none since the pooler started. */
  lemma {:induction false} EveryFieldHasASource(
    trace: seq<State>, labels: seq<Label>, n: nat, schema: string, f: Field) returns (j: int)
    requires IsRun(trace, labels) && n < |trace| && schema in trace[n].core.entries
    ensures -1 <= j < n && Untouched(trace, labels, j + 1, n, schema, f)
    ensures j >= 0 && !labels[j].Crash? ==>
      Sets(trace[j], labels[j], schema, f) && Shows(trace[n].core.entries[schema], labels[j], f)
    ensures j >= 0 && labels[j].Crash? ==>
      trace[j + 1].core.entries == Parse(trace[j].disk.text, labels[j].now)
    ensures j == -1 || labels[j].Crash? ==>
      && schema in trace[j + 1].core.entries
      && Same(trace[n].core.entries[schema], trace[j + 1].core.entries[schema], f)
  {
    hide Enabled, Apply, Init, Parse, Sets, Shows;
    if n == 0 {
      j := -1;
    } else if labels[n - 1].Crash? {
      j := n - 1;
      Loads(trace[n - 1], labels[n - 1]);
    } else {
      FieldStep(trace[n - 1], labels[n - 1], schema, f);
      if Sets(trace[n - 1], labels[n - 1], schema, f) {
        j := n - 1;
      } else {
        j := EveryFieldHasASource(trace, labels, n - 1, schema, f);
        if j >= 0 && !labels[j].Crash? {
          SameShows(trace[n].core.entries[schema], trace[n - 1].core.entries[schema], labels[j], f);
        }
      }
    }
  }

  lemma SameShows(rec: Rec, rec': Rec, l: Label, f: Field)
    requires Same(rec, rec', f)
    ensures Shows(rec, l, f) <==> Shows(rec', l, f)
  {
  }

  lemma {:induction false} SetStays(trace: seq<State>, labels: seq<Label>, j: nat, n: nat, schema: string, f: Field)
    requires IsRun(trace, labels) && j < n < |trace| && !labels[j].Crash? && Sets(trace[j], labels[j], schema, f)
    requires Untouched(trace, labels, j + 1, n, schema, f)
    ensures schema in trace[n].core.entries && Shows(trace[n].core.entries[schema], labels[j], f)
    ensures trace[n].h.log != []
  {
    hide Enabled, Apply, Init, Sets, Shows;
    FieldStep(trace[n - 1], labels[n - 1], schema, f);
    LogStep(trace[n - 1], labels[n - 1], schema, f);
    if j < n - 1 {
      SetStays(trace, labels, j, n - 1, schema, f);
      SameShows(trace[n].core.entries[schema], trace[n - 1].core.entries[schema], labels[j], f);
    }
  }

  lemma LogStep(s: State, l: Label, schema: string, f: Field)
    requires Enabled(s, l) && !l.Crash?
    ensures s.h.log != [] || Sets(s, l, schema, f) ==> Apply(s, l).h.log != []
  {
    hide Enumerates, Clean, Ids, Written, Mutate;
  }

  /** And so is the file: when nothing is dirty, no flush is under way and the newest
      snapshot has been written, what it gives for each field, whenever it is loaded, is
      what the last call about the field said. */
  lemma FileShowsTheLastCall(
    trace: seq<State>, labels: seq<Label>, j: nat, n: nat, schema: string, f: Field, now: nat)
    requires IsRun(trace, labels) && j < n < |trace| && !labels[j].Crash? && Sets(trace[j], labels[j], schema, f)
    requires Untouched(trace, labels, j + 1, n, schema, f)
    requires !trace[n].core.dirty && trace[n].flushing == 0 && trace[n].locks.map_.None?
    requires trace[n].disk.newest == trace[n].core.generation
    ensures schema in Parse(trace[n].disk.text, now) && Shows(Parse(trace[n].disk.text, now)[schema], labels[j], f)
  {
    hide Enabled, Apply, Init, Parse, Sets, Shows;
    SetStays(trace, labels, j, n, schema, f);
    NoBumpIsLost(trace, labels, n, now);
  }

  // ---- when a flush is owed -----------------------------------------------------------------------------

  predicate IsBump(l: Label) { l.Touch? || l.PutBump? }

  predicate Cleans(l: Label) { l.FlushSwap? || l.Crash? }

  lemma DirtyStep(s: State, l: Label)
    requires Enabled(s, l)
    ensures Apply(s, l).core.dirty <==> IsBump(l) || (s.core.dirty && !Cleans(l))
    ensures l.FlushSwap? ==> s.core.dirty
  {
    hide Enumerates, Clean, Ids, Written, Mutate, Parse;
  }

  /** The registry is dirty exactly if a bump came after the last flush and the last start; a
      binding or a tier, which are written at once, make it neither dirty nor clean. */
  lemma {:induction false} DirtyExactly(trace: seq<State>, labels: seq<Label>, n: nat)
    requires IsRun(trace, labels) && n < |trace|
    ensures
      trace[n].core.dirty <==>
        exists j :: 0 <= j < n && IsBump(labels[j]) && forall k :: j < k < n ==> !Cleans(labels[k])
  {
    hide Enabled, Apply, Init;
    if n > 0 {
      DirtyExactly(trace, labels, n - 1);
      DirtyStep(trace[n - 1], labels[n - 1]);
    } else {
      StartsClean(trace[0]);
    }
  }

  lemma StartsClean(s: State)
    requires Init(s)
    ensures !s.core.dirty && s.flushing == 0
  {
  }

  /** The flushes of this process that have swapped the flag and not taken their snapshot. */
  function Owed(labels: seq<Label>): int {
    if labels == [] then 0 else
      var before := Owed(labels[..|labels| - 1]);
      match labels[|labels| - 1]
      case FlushSwap => before + 1
      case FlushSnapshot(_) => before - 1
      case Crash(_) => 0
      case _ => before
  }

  lemma FlushStep(s: State, l: Label)
    requires Enabled(s, l)
    ensures
      Apply(s, l).flushing ==
        if l.FlushSwap? then s.flushing + 1 else if l.FlushSnapshot? then s.flushing - 1
        else if l.Crash? then 0 else s.flushing
  {
    hide Enumerates, Clean, Ids, Written, Mutate, Parse;
  }

  /** Every flush takes one snapshot. */
  lemma {:induction false} FlushesExactly(trace: seq<State>, labels: seq<Label>, n: nat)
    requires IsRun(trace, labels) && n < |trace|
    ensures trace[n].flushing == Owed(labels[..n])
  {
    if n > 0 {
      hide Enabled, Apply, Init;
      FlushesExactly(trace, labels, n - 1);
      FlushStep(trace[n - 1], labels[n - 1]);
      assert labels[..n][..n - 1] == labels[..n - 1];
    }
  }

  // ---- each write and each return happens once ---------------------------------------------------------

  predicate Ends(l: Label, g: nat) { l == WriteSkip(g) || l == WriteDone(g) || l == WriteFail(g) }

  lemma TaskStep(s: State, l: Label, g: nat)
    requires Enabled(s, l) && !l.Crash? && 0 < g <= s.core.generation
    ensures g <= Apply(s, l).core.generation
    ensures g in Apply(s, l).disk.tasks <==> g in s.disk.tasks && !Ends(l, g)
  {
    hide Enumerates, Clean, Ids, Written, Mutate;
  }

  lemma {:induction false} EndedStays(trace: seq<State>, labels: seq<Label>, i: nat, n: nat, g: nat)
    requires IsRun(trace, labels) && i < n < |trace| && Ends(labels[i], g)
    requires forall k :: i < k < n ==> !labels[k].Crash?
    ensures g !in trace[n].disk.tasks && 0 < g <= trace[n].core.generation
  {
    hide Inv, Enabled, Apply, Init;
    RunKeeps(trace, labels, n - 1);
    if i < n - 1 {
      EndedStays(trace, labels, i, n - 1, g);
    } else {
      KnownTask(trace[i], labels[i], g);
    }
    TaskStep(trace[n - 1], labels[n - 1], g);
  }

  lemma KnownTask(s: State, l: Label, g: nat)
    requires Inv(s) && Enabled(s, l) && Ends(l, g)
    ensures 0 < g <= s.core.generation
  {
  }

  /** A snapshot's write task is done once: written, skipped or failed, and never again while
      the process lives. */
  lemma EachTaskEndsOnce(trace: seq<State>, labels: seq<Label>, i: nat, n: nat, g: nat)
    requires IsRun(trace, labels) && i < n < |labels| && Ends(labels[i], g) && Ends(labels[n], g)
    ensures exists k :: i < k < n && labels[k].Crash?
  {
    if forall k :: i < k < n ==> !labels[k].Crash? {
      assert Enabled(trace[n], labels[n]);
      EndedStays(trace, labels, i, n, g);
      assert false;
    }
  }

  // ---- what a returning call waited for ---------------------------------------------------------------

  /** The call that put the thread to work, and the tier it asked for. */
  predicate Began(l: Label, t: nat, what: Mutation) {
    || (l.SetTier? && l.thread == t && what == Retier(l.schema, l.tier))
    || (l.Adopt? && l.thread == t && what.Bind? && what.schema == l.schema && what.rec.tier == Archived)
    || (l.PutBind? && l.thread == t && what == Bind(l.schema, Rec(l.id, l.now, Live)))
  }

  predicate AtWork(s: State, t: nat) { t in s.threads && (s.threads[t].Inserted? || s.threads[t].Awaiting?) }

  /** Whether the caller is told when its change is written: `put` does not wait. */
  predicate Waits(th: Thread) { th.Awaiting? || (th.Inserted? && th.awaits) }

  lemma WorkStep(s: State, l: Label, t: nat)
    requires Enabled(s, l) && AtWork(Apply(s, l), t)
    ensures
      var th' := Apply(s, l).threads[t];
      || (t !in s.threads && Began(l, t, th'.what) && (Waits(th') <==> !l.PutBind?))
      || (AtWork(s, t) && s.threads[t].what == th'.what && (Waits(th') <==> Waits(s.threads[t])))
  {
    hide Enumerates, Clean, Ids, Written, Mutate, Parse;
  }

  /** What becomes durable when `set_tier` or `adopt_archived` returns
      (`Store.ReturnIsDurableExactly`) is the very tier its caller asked for. */
  lemma {:induction false} WorkIsTheCallers(trace: seq<State>, labels: seq<Label>, n: nat, t: nat) returns (j: nat)
    requires IsRun(trace, labels) && n < |trace| && AtWork(trace[n], t)
    ensures j < n && Began(labels[j], t, trace[n].threads[t].what)
    ensures Waits(trace[n].threads[t]) <==> !labels[j].PutBind?
    ensures forall k :: j < k < n ==> AtWork(trace[k], t)
  {
    hide Enabled, Apply, Began;
    assert n > 0;
    hide Init;
    WorkStep(trace[n - 1], labels[n - 1], t);
    if AtWork(trace[n - 1], t) {
      j := WorkIsTheCallers(trace, labels, n - 1, t);
    } else {
      j := n - 1;
    }
  }

  /** And a call returns once: between two returns of a thread it has been put to work again. */
  lemma EachCallReturnsOnce(trace: seq<State>, labels: seq<Label>, i: nat, n: nat, t: nat) returns (j: nat)
    requires IsRun(trace, labels) && i < n < |labels| && labels[i] == Return(t) && labels[n] == Return(t)
    ensures i < j < n && (labels[j].SetTier? || labels[j].Adopt?) && labels[j].thread == t
  {
    assert Enabled(trace[n], labels[n]);
    assert Enabled(trace[i], labels[i]) && trace[i + 1] == Apply(trace[i], labels[i]);
    hide Enabled, Init;
    j := WorkIsTheCallers(trace, labels, n, t);
    assert t !in trace[i + 1].threads;
    assert j != i;
    assert j < i ==> AtWork(trace[i + 1], t);
  }
}
