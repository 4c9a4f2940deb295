/**
 * The parallel drain loop (src/registry.rs, `offload_drain_loop`,
 * `next_offload_job`, `run_offload_job`): jobs are picked, run in up to `workers`
 * slots, and joined in any order, until nothing is left, the disk is low enough or
 * too many fail in a row.
 *
 * Steps are the loop's decisions and the jobs' own moves, interleaved; "outside" is
 * everything else that claims schemas or moves their tiers.
 */
module Drain {
  import opened Text
  import opened RegistryText
  import opened Picker

  const SWEEP_MAX_CONSECUTIVE_FAILURES: nat := 3

  /** The slots (at least one), the policy the caller chose and the pinned schemas. */
  datatype Config = Config(workers: nat, policy: Policy, keepalive: set<string>)

  datatype Outcome = Done | Skipped | Failed

  datatype Status = Spawned | Working | Finished(outcome: Outcome)

  datatype Task = Task(schema: string, kind: Kind, status: Status)

  datatype Phase = Top | Fill | Wait | Rest | Ended

  datatype State = State(
    tiers: map<string, Tier>,
    outside: set<string>,        // schemas claimed by others
    tasks: seq<Task>,
    phase: Phase,
    archived: nat,
    failures: nat)               // in a row

  datatype Label =
    | StandDown
    | Abort
    | Enter
    | Dispatch(view: View, job: Job)
    | Filled(view: View)
    | Dry(view: View)
    | Recheck
    | Start(i: nat)
    | FailEarly(i: nat)
    | Finish(i: nat, ok: bool)
    | Join(i: nat)
    | JoinRest(i: nat)
    | End
    | OutsideClaim(schema: string)
    | OutsideRelease(schema: string)
    | OutsideTier(schema: string, tier: Tier)

  /** Neither a stand-down nor anything from outside. */
  predicate Closed(l: Label) {
    !l.StandDown? && !l.Recheck? && !l.OutsideClaim? && !l.OutsideRelease? && !l.OutsideTier?
  }

  function InFlight(tasks: seq<Task>): set<string> { set t | t in tasks :: t.schema }

  predicate BootInFlight(tasks: seq<Task>) { exists t :: t in tasks && Boots(t.kind) }

  /** The schemas whose archiving guard is taken. */
  function Claimed(s: State): set<string> { s.outside + set t | t in s.tasks && t.status.Working? :: t.schema }

  function RowSchemas(rows: seq<Row>): set<string> { set r | r in rows :: r.schema }

  /** What a pick made now may look at: any clock, any warm entries, any backoffs, on
      top of the schemas in flight or claimed. */
  ghost predicate Sees(c: Config, s: State, v: View) {
    && v.policy == c.policy.(noBoot := BootInFlight(s.tasks))
    && v.keepalive == c.keepalive
    && InFlight(s.tasks) + Claimed(s) <= v.backingOff
    && RowSchemas(v.rows) == s.tiers.Keys
    && forall r :: r in v.rows ==> r.schema in s.tiers && r.rec.tier == s.tiers[r.schema]
  }

  function Without(tasks: seq<Task>, i: nat): seq<Task>
    requires i < |tasks|
  {
    tasks[..i] + tasks[i + 1..]
  }

  function At(s: State, i: nat, status: Status): State
    requires i < |s.tasks|
  {
    s.(tasks := s.tasks[i := s.tasks[i].(status := status)])
  }

  ghost predicate Enabled(c: Config, s: State, l: Label) {
    match l
    case StandDown => s.phase == Top
    case Abort => s.phase == Top && s.failures >= SWEEP_MAX_CONSECUTIVE_FAILURES
    case Enter => s.phase == Top && s.failures < SWEEP_MAX_CONSECUTIVE_FAILURES
    case Dispatch(v, job) => s.phase == Fill && |s.tasks| < c.workers && Sees(c, s, v) && Picks(v, Some(job))
    case Filled(v) =>
      s.phase == Fill && s.tasks != [] && (|s.tasks| >= c.workers || (Sees(c, s, v) && Picks(v, None)))
    case Dry(v) => s.phase == Fill && s.tasks == [] && Sees(c, s, v) && Picks(v, None)
    case Recheck => s.phase == Wait
    case Start(i) => i < |s.tasks| && s.tasks[i].status == Spawned
    case FailEarly(i) => i < |s.tasks| && s.tasks[i].status == Spawned
    case Finish(i, _) => i < |s.tasks| && s.tasks[i].status == Working
    case Join(i) => s.phase == Wait && i < |s.tasks| && s.tasks[i].status.Finished?
    case JoinRest(i) => s.phase == Rest && i < |s.tasks| && s.tasks[i].status.Finished?
    case End => s.phase == Rest && s.tasks == []
    case OutsideClaim(schema) => schema !in Claimed(s)
    case OutsideRelease(schema) => schema in s.outside
    case OutsideTier(_, _) => true
  }

  ghost function Apply(c: Config, s: State, l: Label): State
    requires Enabled(c, s, l)
  {
    match l
    case StandDown => s.(phase := Rest)
    case Abort => s.(phase := Rest)
    case Enter => s.(phase := Fill)
    case Dispatch(_, job) => s.(tasks := s.tasks + [Task(job.schema, job.kind, Spawned)])
    case Filled(_) => s.(phase := Wait)
    case Dry(_) => s.(phase := Rest)
    case Recheck => s.(phase := Top)
    case Start(i) => At(s, i, if s.tasks[i].schema in Claimed(s) then Finished(Skipped) else Working)
    case FailEarly(i) => At(s, i, Finished(Failed))
    case Finish(i, ok) =>
      if ok then
        At(s, i, Finished(Done)).(tiers := s.tiers[s.tasks[i].schema := Target(s.tasks[i].kind)])
      else At(s, i, Finished(Failed))
    case Join(i) =>
      var s1 := s.(tasks := Without(s.tasks, i), phase := Top);
      (match s.tasks[i].status.outcome
       case Done => s1.(archived := s.archived + 1, failures := 0)
       case Skipped => s1
       case Failed => s1.(failures := s.failures + 1))
    case JoinRest(i) =>
      s.(tasks := Without(s.tasks, i),
         archived := if s.tasks[i].status.outcome == Done then s.archived + 1 else s.archived)
    case End => s.(phase := Ended)
    case OutsideClaim(schema) => s.(outside := s.outside + {schema})
    case OutsideRelease(schema) => s.(outside := s.outside - {schema})
    case OutsideTier(schema, tier) => s.(tiers := s.tiers[schema := tier])
  }

  predicate Init(c: Config, s: State) {
    c.workers > 0 && s.tasks == [] && s.phase == Top && s.archived == 0 && s.failures == 0
  }

  ghost predicate IsRun(c: Config, trace: seq<State>, labels: seq<Label>) {
    && |trace| == |labels| + 1
    && Init(c, trace[0])
    && forall i :: 0 <= i < |labels| ==>
         Enabled(c, trace[i], labels[i]) && trace[i + 1] == Apply(c, trace[i], labels[i])
  }

  // ---- safety, whatever happens outside ---------------------------------------------------

  /** At most `workers` jobs, no two on one schema, at most one that boots a VM. */
  ghost predicate Safe(c: Config, tasks: seq<Task>) {
    && |tasks| <= c.workers
    && (forall i, j :: 0 <= i < j < |tasks| ==> tasks[i].schema != tasks[j].schema)
    && (forall i, j :: 0 <= i < j < |tasks| ==> !(Boots(tasks[i].kind) && Boots(tasks[j].kind)))
  }

  lemma DispatchKeepsSafe(c: Config, s: State, l: Label)
    requires Safe(c, s.tasks) && Enabled(c, s, l) && l.Dispatch?
    ensures Safe(c, Apply(c, s, l).tasks)
    ensures l.job.schema in s.tiers && Fits(l.job.kind, s.tiers[l.job.schema]) && l.job.schema !in Claimed(s)
  {
    PickIsASafeStep(l.view, l.job);
    hide Picks, Boots;
    assert forall i :: 0 <= i < |s.tasks| ==> s.tasks[i].schema in InFlight(s.tasks);
    var i: nat :|
      i < |l.view.rows| && l.view.rows[i].schema == l.job.schema && Fits(l.job.kind, l.view.rows[i].rec.tier);
    assert l.view.rows[i] in l.view.rows;
  }

  lemma SafeStep(c: Config, s: State, l: Label)
    requires Safe(c, s.tasks) && Enabled(c, s, l)
    ensures Safe(c, Apply(c, s, l).tasks)
  {
    if l.Dispatch? {
      DispatchKeepsSafe(c, s, l);
    } else {
      hide Sees, Picks, Claimed, Boots, Target;
    }
  }

  /** Over every run, with anything going on outside: never more than `workers` jobs,
      never two on one schema, never two that boot. */
  lemma {:induction false} DrainIsSafe(c: Config, trace: seq<State>, labels: seq<Label>, n: nat)
    requires IsRun(c, trace, labels) && n < |trace|
    ensures Safe(c, trace[n].tasks)
  {
    hide Enabled, Apply;
    if n > 0 {
      DrainIsSafe(c, trace, labels, n - 1);
      SafeStep(c, trace[n - 1], labels[n - 1]);
    }
  }

  predicate Works(t: Task) { t.status == Working }

  /** A job at work has the schema's archiving guard to itself: nobody outside claims the
      schema meanwhile, and a job that finds it claimed never gets to work. */
  lemma {:induction false} WorkIsClaimed(c: Config, trace: seq<State>, labels: seq<Label>, n: nat)
    requires IsRun(c, trace, labels) && n < |trace|
    ensures forall i :: 0 <= i < |trace[n].tasks| && Works(trace[n].tasks[i]) ==>
      trace[n].tasks[i].schema !in trace[n].outside
  {
    hide Enabled, Apply;
    if n > 0 {
      WorkIsClaimed(c, trace, labels, n - 1);
      ClaimStep(c, trace[n - 1], labels[n - 1]);
    }
  }

  lemma ClaimStep(c: Config, s: State, l: Label)
    requires Enabled(c, s, l)
    requires forall i :: 0 <= i < |s.tasks| && Works(s.tasks[i]) ==> s.tasks[i].schema !in s.outside
    ensures
      var s' := Apply(c, s, l);
      forall i :: 0 <= i < |s'.tasks| && Works(s'.tasks[i]) ==> s'.tasks[i].schema !in s'.outside
    ensures l.OutsideClaim? ==> l.schema in Apply(c, s, l).outside
    ensures l.Start? ==>
      (Works(Apply(c, s, l).tasks[l.i]) <==>
         s.tasks[l.i].schema !in s.outside && forall t :: t in s.tasks && Works(t) ==> t.schema != s.tasks[l.i].schema)
  {
    hide Sees, Picks, Boots, Target;
  }

  /** What goes on outside is what was claimed there and not released. */
  lemma {:induction false} OutsideExactly(c: Config, trace: seq<State>, labels: seq<Label>, n: nat, schema: string)
    requires IsRun(c, trace, labels) && n < |trace|
    ensures
      schema in trace[n].outside <==>
        || (schema in trace[0].outside && forall k :: 0 <= k < n ==> labels[k] != OutsideRelease(schema))
        || exists j :: 0 <= j < n && labels[j] == OutsideClaim(schema)
                       && forall k :: j < k < n ==> labels[k] != OutsideRelease(schema)
  {
    hide Enabled, Apply, Init;
    if n > 0 {
      OutsideExactly(c, trace, labels, n - 1, schema);
      OutsideStep(c, trace[n - 1], labels[n - 1], schema);
    }
  }

  lemma OutsideStep(c: Config, s: State, l: Label, schema: string)
    requires Enabled(c, s, l)
    ensures schema in Apply(c, s, l).outside <==>
      l == OutsideClaim(schema) || (schema in s.outside && l != OutsideRelease(schema))
  {
    hide Sees, Picks, Boots, Target, Claimed;
  }

  /** A step moves the schema: a job on it succeeds, or someone outside moves it. */
  predicate MovesTier(s: State, l: Label, schema: string) {
    || (l.Finish? && l.ok && l.i < |s.tasks| && s.tasks[l.i].schema == schema)
    || (l.OutsideTier? && l.schema == schema)
  }

  /** Where to: a compaction's and a freeze's own tier, else the archive. */
  predicate MovesTo(s: State, l: Label, tier: Tier) {
    if l.OutsideTier? then tier == l.tier
    else
      && l.Finish? && l.i < |s.tasks|
      && match s.tasks[l.i].kind
         case Compact => tier == Compacted
         case Freeze => tier == Frozen
         case _ => tier == Archived
  }

  lemma TierStep(c: Config, s: State, l: Label, schema: string)
    requires Enabled(c, s, l)
    ensures MovesTier(s, l, schema) ==>
      schema in Apply(c, s, l).tiers && MovesTo(s, l, Apply(c, s, l).tiers[schema])
    ensures !MovesTier(s, l, schema) ==>
      && (schema in Apply(c, s, l).tiers <==> schema in s.tiers)
      && (schema in s.tiers ==> Apply(c, s, l).tiers[schema] == s.tiers[schema])
  {
    hide Sees, Picks, Boots, Claimed;
  }

  /** A schema's tier is where the last successful job on it, or the last move from outside,
      has put it, or where it was. */
  lemma {:induction false} TierHasASource(c: Config, trace: seq<State>, labels: seq<Label>, n: nat, schema: string)
    returns (j: int)
    requires IsRun(c, trace, labels) && n < |trace| && schema in trace[n].tiers
    ensures -1 <= j < n && forall k :: j < k < n ==> !MovesTier(trace[k], labels[k], schema)
    ensures j >= 0 ==> MovesTier(trace[j], labels[j], schema) && MovesTo(trace[j], labels[j], trace[n].tiers[schema])
    ensures j == -1 ==> schema in trace[0].tiers && trace[n].tiers[schema] == trace[0].tiers[schema]
  {
    hide Enabled, Apply, Init, MovesTier, MovesTo;
    if n == 0 {
      j := -1;
    } else {
      TierStep(c, trace[n - 1], labels[n - 1], schema);
      if MovesTier(trace[n - 1], labels[n - 1], schema) {
        j := n - 1;
      } else {
        j := TierHasASource(c, trace, labels, n - 1, schema);
      }
    }
  }

  // ---- termination of closed runs -----------------------------------------------------------

  function LiveSchemas(tiers: map<string, Tier>): set<string> { set k | k in tiers && tiers[k] == Live }

  function LocalSchemas(tiers: map<string, Tier>): set<string> {
    set k | k in tiers && (tiers[k] == Frozen || tiers[k] == Compacted)
  }

  /** The rungs left below all the schemas. */
  function Height(tiers: map<string, Tier>): nat { 2 * |LiveSchemas(tiers)| + |LocalSchemas(tiers)| }

  function Weight(status: Status): nat {
    match status
    case Spawned => 2
    case Working => 1
    case Finished(_) => 0
  }

  function Pending(tasks: seq<Task>): nat {
    if tasks == [] then 0 else Pending(tasks[..|tasks| - 1]) + Weight(tasks[|tasks| - 1].status)
  }

  function IsDone(t: Task): nat { if t.status == Finished(Done) then 1 else 0 }

  function DoneCount(tasks: seq<Task>): nat {
    if tasks == [] then 0 else DoneCount(tasks[..|tasks| - 1]) + IsDone(tasks[|tasks| - 1])
  }

  lemma {:induction false} PendingParts(a: seq<Task>, b: seq<Task>)
    ensures Pending(a + b) == Pending(a) + Pending(b)
    ensures DoneCount(a + b) == DoneCount(a) + DoneCount(b)
  {
    if b == [] {
      assert a + b == a;
    } else {
      assert (a + b)[..|a + b| - 1] == a + b[..|b| - 1];
      PendingParts(a, b[..|b| - 1]);
    }
  }

  lemma PendingOne(t: Task)
    ensures Pending([t]) == Weight(t.status) && DoneCount([t]) == IsDone(t)
  {
    assert [t][..0] == [];
  }

  lemma SumsAt(tasks: seq<Task>, i: nat, t: Task)
    requires i < |tasks|
    ensures Pending(tasks) == Pending(Without(tasks, i)) + Weight(tasks[i].status)
    ensures DoneCount(tasks) == DoneCount(Without(tasks, i)) + IsDone(tasks[i])
    ensures Pending(tasks[i := t]) == Pending(Without(tasks, i)) + Weight(t.status)
    ensures DoneCount(tasks[i := t]) == DoneCount(Without(tasks, i)) + IsDone(t)
  {
    hide Weight, IsDone;
    var a, b := tasks[..i], tasks[i + 1..];
    assert tasks == a + ([tasks[i]] + b) && tasks[i := t] == a + ([t] + b);
    PendingParts(a, [tasks[i]] + b);
    PendingParts([tasks[i]], b);
    PendingParts(a, [t] + b);
    PendingParts([t], b);
    PendingParts(a, b);
    PendingOne(t);
    PendingOne(tasks[i]);
  }

  lemma SchemaMoved(tiers: map<string, Tier>, schema: string, tier: Tier)
    requires schema in tiers
    ensures
      var tiers' := tiers[schema := tier];
      && LiveSchemas(tiers') == LiveSchemas(tiers) - {schema} + (if tier == Live then {schema} else {})
      && LocalSchemas(tiers')
         == LocalSchemas(tiers) - {schema} + (if tier == Frozen || tier == Compacted then {schema} else {})
  {
  }

  lemma HeightFalls(tiers: map<string, Tier>, schema: string, k: Kind)
    requires schema in tiers && Fits(k, tiers[schema])
    ensures Height(tiers[schema := Target(k)]) < Height(tiers)
  {
    SchemaMoved(tiers, schema, Target(k));
    if k == Promote {
      Sizes(LocalSchemas(tiers), LiveSchemas(tiers), schema);
    } else {
      Sizes(LiveSchemas(tiers), LocalSchemas(tiers), schema);
    }
    hide LiveSchemas, LocalSchemas;
  }

  lemma Sizes(from: set<string>, other: set<string>, x: string)
    requires x in from && x !in other
    ensures |from - {x} + {}| == |from| - 1
    ensures |other - {x} + {}| == |other| && |other - {x} + {x}| == |other| + 1
  {
    assert from - {x} + {} == from - {x};
    assert other - {x} + {} == other;
    assert other - {x} + {x} == other + {x};
  }

  ghost predicate TaskInv(tiers: map<string, Tier>, tasks: seq<Task>) {
    forall i :: 0 <= i < |tasks| ==>
      && tasks[i].status != Finished(Skipped)
      && (!tasks[i].status.Finished? ==> tasks[i].schema in tiers && Fits(tasks[i].kind, tiers[tasks[i].schema]))
  }

  ghost predicate ClosedInv(c: Config, s: State) {
    && Safe(c, s.tasks) && TaskInv(s.tiers, s.tasks) && s.outside == {}
    && s.failures <= SWEEP_MAX_CONSECUTIVE_FAILURES
    && (s.phase == Fill || s.phase == Wait ==> s.failures < SWEEP_MAX_CONSECUTIVE_FAILURES)
    && (s.phase == Wait ==> s.tasks != []) && (s.phase == Ended ==> s.tasks == [])
  }

  function PhaseWeight(p: Phase): nat {
    match p
    case Top => 3
    case Fill => 2
    case Wait => 1
    case Rest => 0
    case Ended => 0
  }

  /** The joins the loop can still make: rungs left first, then failures left. */
  function JoinsLeft(s: State): int {
    4 * (Height(s.tiers) + DoneCount(s.tasks)) + SWEEP_MAX_CONSECUTIVE_FAILURES - s.failures
  }

  /** An upper bound on the steps left. */
  function StepsLeft(c: Config, s: State): int {
    match s.phase
    case Ended => 0
    case Rest => Pending(s.tasks) + |s.tasks| + 1
    case _ => 6 * JoinsLeft(s) + 4 * c.workers - 3 * |s.tasks| + Pending(s.tasks) + PhaseWeight(s.phase)
  }

  lemma UnclaimedInClosed(s: State, i: nat)
    requires s.outside == {} && i < |s.tasks| && s.tasks[i].status == Spawned
    requires forall i, j :: 0 <= i < j < |s.tasks| ==> s.tasks[i].schema != s.tasks[j].schema
    ensures s.tasks[i].schema !in Claimed(s)
  {
    forall j | 0 <= j < |s.tasks| && s.tasks[j].status.Working?
      ensures s.tasks[j].schema != s.tasks[i].schema
    {
      assert i < j || j < i;
    }
  }

  lemma ClosedJobStep(c: Config, s: State, l: Label)
    requires ClosedInv(c, s) && Enabled(c, s, l) && (l.Start? || l.FailEarly? || l.Finish?)
    ensures ClosedInv(c, Apply(c, s, l)) && StepsLeft(c, Apply(c, s, l)) < StepsLeft(c, s)
    ensures
      var s' := Apply(c, s, l);
      s'.archived + DoneCount(s'.tasks) + Height(s'.tiers) <= s.archived + DoneCount(s.tasks) + Height(s.tiers)
  {
    hide Height, Claimed, Boots, Sees, Picks, Fits, Pending, DoneCount, Target;
    var s' := Apply(c, s, l);
    var t := s.tasks[l.i];
    SumsAt(s.tasks, l.i, s'.tasks[l.i]);
    if l.Start? {
      UnclaimedInClosed(s, l.i);
    } else if l.Finish? && l.ok {
      HeightFalls(s.tiers, t.schema, t.kind);
    }
  }

  lemma ClosedJoinStep(c: Config, s: State, l: Label)
    requires ClosedInv(c, s) && Enabled(c, s, l) && (l.Join? || l.JoinRest?)
    ensures ClosedInv(c, Apply(c, s, l)) && StepsLeft(c, Apply(c, s, l)) < StepsLeft(c, s)
    ensures
      var s' := Apply(c, s, l);
      s'.archived + DoneCount(s'.tasks) + Height(s'.tiers) <= s.archived + DoneCount(s.tasks) + Height(s.tiers)
  {
    hide Height, Claimed, Boots, Sees, Picks, Fits, Pending, DoneCount;
    SumsAt(s.tasks, l.i, s.tasks[l.i]);
    SafeStep(c, s, l);
  }

  lemma ClosedLoopStep(c: Config, s: State, l: Label)
    requires ClosedInv(c, s) && Enabled(c, s, l)
    requires l.Abort? || l.Enter? || l.Dispatch? || l.Filled? || l.Dry? || l.End?
    ensures ClosedInv(c, Apply(c, s, l)) && StepsLeft(c, Apply(c, s, l)) < StepsLeft(c, s)
    ensures
      var s' := Apply(c, s, l);
      s'.archived + DoneCount(s'.tasks) + Height(s'.tiers) <= s.archived + DoneCount(s.tasks) + Height(s.tiers)
  {
    hide Height, Claimed, Boots, Picks, Fits, Pending, DoneCount;
    if l.Dispatch? {
      DispatchKeepsSafe(c, s, l);
      var t := Task(l.job.schema, l.job.kind, Spawned);
      PendingParts(s.tasks, [t]);
      PendingOne(t);
    } else {
      hide Sees;
    }
  }

  lemma ClosedStep(c: Config, s: State, l: Label)
    requires ClosedInv(c, s) && Enabled(c, s, l) && Closed(l)
    ensures ClosedInv(c, Apply(c, s, l)) && StepsLeft(c, Apply(c, s, l)) < StepsLeft(c, s)
    ensures
      var s' := Apply(c, s, l);
      s'.archived + DoneCount(s'.tasks) + Height(s'.tiers) <= s.archived + DoneCount(s.tasks) + Height(s.tiers)
  {
    hide Enabled, Apply, ClosedInv, StepsLeft;
    if l.Start? || l.FailEarly? || l.Finish? {
      ClosedJobStep(c, s, l);
    } else if l.Join? || l.JoinRest? {
      ClosedJoinStep(c, s, l);
    } else {
      ClosedLoopStep(c, s, l);
    }
  }

  lemma {:induction false} ClosedRun(c: Config, trace: seq<State>, labels: seq<Label>, n: nat)
    requires IsRun(c, trace, labels) && n < |trace| && trace[0].outside == {}
    requires forall i :: 0 <= i < n ==> Closed(labels[i])
    ensures ClosedInv(c, trace[n]) && StepsLeft(c, trace[n]) + n <= StepsLeft(c, trace[0])
    ensures trace[n].archived + DoneCount(trace[n].tasks) + Height(trace[n].tiers) <= Height(trace[0].tiers)
  {
    if n == 0 {
      hide Height;
    } else {
      hide Enabled, Apply, ClosedInv, StepsLeft, Height, DoneCount;
      ClosedRun(c, trace, labels, n - 1);
      ClosedStep(c, trace[n - 1], labels[n - 1]);
    }
  }

  lemma StepsLeftIsNatural(c: Config, s: State)
    requires ClosedInv(c, s)
    ensures StepsLeft(c, s) >= 0
    ensures StepsLeft(c, s) == 0 ==> s.phase == Ended
  {
  }

  /** With no stand-down and nothing from outside, every run is finite: its length is
      bounded by the ladder's height and the number of slots, and what it reports as
      offloaded never exceeds the rungs the schemas went down. */
  lemma DrainTerminates(c: Config, trace: seq<State>, labels: seq<Label>)
    requires IsRun(c, trace, labels) && trace[0].outside == {}
    requires forall i :: 0 <= i < |labels| ==> Closed(labels[i])
    ensures |labels| <= 24 * Height(trace[0].tiers) + 4 * c.workers + 21
    ensures trace[|labels|].archived + Height(trace[|labels|].tiers) <= Height(trace[0].tiers)
  {
    hide Enabled, Apply, Height;
    ClosedRun(c, trace, labels, |labels|);
    StepsLeftIsNatural(c, trace[|labels|]);
    assert DoneCount([]) == 0 && Pending([]) == 0;
  }

  // ---- what the loop reports, whatever happens outside -------------------------------------------

  predicate Joins(s: State, l: Label, outcome: Outcome) {
    (l.Join? || l.JoinRest?) && l.i < |s.tasks| && s.tasks[l.i].status == Finished(outcome)
  }

  /** The successful jobs joined before `n`, in the loop or after it. */
  function DoneJoins(trace: seq<State>, labels: seq<Label>, n: nat): nat
    requires n <= |labels| < |trace|
  {
    if n == 0 then 0 else DoneJoins(trace, labels, n - 1) + if Joins(trace[n - 1], labels[n - 1], Done) then 1 else 0
  }

  /** The failed jobs joined in the loop since it last joined a successful one. */
  function FailedJoins(trace: seq<State>, labels: seq<Label>, n: nat): nat
    requires n <= |labels| < |trace|
  {
    if n == 0 then 0
    else if !labels[n - 1].Join? then FailedJoins(trace, labels, n - 1)
    else if Joins(trace[n - 1], labels[n - 1], Done) then 0
    else FailedJoins(trace, labels, n - 1) + if Joins(trace[n - 1], labels[n - 1], Failed) then 1 else 0
  }

  /** The jobs that brought their schema down. */
  function Successes(labels: seq<Label>): nat {
    if labels == [] then 0 else
      var l := labels[|labels| - 1];
      Successes(labels[..|labels| - 1]) + if l.Finish? && l.ok then 1 else 0
  }

  lemma DoneStep(c: Config, s: State, l: Label)
    requires Enabled(c, s, l)
    ensures
      var s' := Apply(c, s, l);
      && s'.archived + DoneCount(s'.tasks)
         == s.archived + DoneCount(s.tasks) + (if l.Finish? && l.ok then 1 else 0)
      && s'.archived == s.archived + (if Joins(s, l, Done) then 1 else 0)
      && s'.failures == (if !l.Join? then s.failures
                         else if Joins(s, l, Done) then 0
                         else s.failures + if Joins(s, l, Failed) then 1 else 0)
      && (s'.phase == Ended && (s.phase == Ended ==> s.tasks == []) ==> s'.tasks == [])
  {
    hide Sees, Picks, Claimed, Boots, Target, DoneCount;
    if l.Join? || l.JoinRest? {
      SumsAt(s.tasks, l.i, s.tasks[l.i]);
    } else if l.Start? || l.FailEarly? || l.Finish? {
      SumsAt(s.tasks, l.i, Apply(c, s, l).tasks[l.i]);
    } else if l.Dispatch? {
      var t := Task(l.job.schema, l.job.kind, Spawned);
      PendingParts(s.tasks, [t]);
      PendingOne(t);
    }
  }

  /** In every run what the loop reports is the number of successful jobs it has joined, and
      its failures in a row those it has joined since; jobs that succeeded and are not
      reported yet are still there to be joined, so at the end every one is. */
  lemma {:induction false} ReportIsExact(c: Config, trace: seq<State>, labels: seq<Label>, n: nat)
    requires IsRun(c, trace, labels) && n < |trace|
    ensures trace[n].archived == DoneJoins(trace, labels, n) && trace[n].failures == FailedJoins(trace, labels, n)
    ensures trace[n].archived + DoneCount(trace[n].tasks) == Successes(labels[..n])
    ensures trace[n].phase == Ended ==> trace[n].tasks == [] && trace[n].archived == Successes(labels[..n])
  {
    hide Enabled, Apply, Joins;
    assert DoneCount([]) == 0;
    if n > 0 {
      ReportIsExact(c, trace, labels, n - 1);
      DoneStep(c, trace[n - 1], labels[n - 1]);
      assert labels[..n][..n - 1] == labels[..n - 1];
    }
  }

  /** Why the loop stops picking: someone asked for a stand-down, three jobs in a row have
      failed, or nothing is in flight and the policy offers nothing. A re-check of the
      stop condition takes it back to the top. */
  lemma StopsForAReason(c: Config, trace: seq<State>, labels: seq<Label>, n: nat)
    requires IsRun(c, trace, labels) && n < |labels|
    ensures trace[n + 1].phase == Rest && trace[n].phase != Rest ==>
      || labels[n] == StandDown
      || (labels[n] == Abort && FailedJoins(trace, labels, n) >= 3)
      || (labels[n].Dry? && trace[n].tasks == [] && Picks(labels[n].view, None))
    ensures labels[n] == Enter ==> FailedJoins(trace, labels, n) < 3 && trace[n + 1].phase == Fill
    ensures labels[n] == Recheck ==> trace[n + 1].phase == Top
  {
    assert Enabled(c, trace[n], labels[n]) && trace[n + 1] == Apply(c, trace[n], labels[n]);
    hide IsRun, Sees, Picks, Claimed, Boots, Target, DoneCount, Successes, DoneJoins, FailedJoins;
    ReportIsExact(c, trace, labels, n);
  }

  /** And it never gets stuck before its end: some step that is not a stand-down nor
      from outside is possible, whatever a pick made now looks at. */
  lemma DrainProgresses(c: Config, trace: seq<State>, labels: seq<Label>, v: View) returns (l: Label)
    requires IsRun(c, trace, labels) && trace[0].outside == {}
    requires forall i :: 0 <= i < |labels| ==> Closed(labels[i])
    requires var s := trace[|labels|]; s.phase != Ended && Sees(c, s, v)
    ensures Closed(l) && Enabled(c, trace[|labels|], l)
  {
    hide Apply, Height, StepsLeft, Picks, Sees, Safe;
    ClosedRun(c, trace, labels, |labels|);
    var s := trace[|labels|];
    var job := PickExists(v);
    match s.phase
    case Top => l := if s.failures >= SWEEP_MAX_CONSECUTIVE_FAILURES then Abort else Enter;
    case Fill =>
      if |s.tasks| >= c.workers && s.tasks != [] {
        l := Filled(v);
      } else if job.Some? && |s.tasks| < c.workers {
        l := Dispatch(v, job.value);
      } else {
        l := if s.tasks == [] then Dry(v) else Filled(v);
      }
    case Wait => l := JobStep(s.tasks, true);
    case Rest => l := if s.tasks == [] then End else JobStep(s.tasks, false);
  }

  function JobStep(tasks: seq<Task>, waiting: bool): Label
    requires tasks != []
  {
    match tasks[0].status
    case Spawned => Start(0)
    case Working => Finish(0, true)
    case Finished(_) => if waiting then Join(0) else JoinRest(0)
  }

  /** The loop runs dry only when the policy offers no schema any step that is not
      pinned, claimed or backing off. */
  lemma DryMeansDry(c: Config, s: State, v: View, i: nat, k: Kind)
    requires Enabled(c, s, Dry(v)) && i < |v.rows| && !Barred(v, v.rows[i].schema)
    ensures !Offers(v.rows[i].rec, WarmOf(v, v.rows[i].schema), c.policy.(noBoot := false), v.now, k)
  {
    NothingPickedExactly(v, None);
    assert !BootInFlight(s.tasks);
  }
}
