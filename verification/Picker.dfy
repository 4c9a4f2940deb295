/**
 * Choosing the next offload job (src/registry.rs, `pick_offload_job`,
 * `classify_candidate`, `OffloadKind::rank`).
 */
module Picker {
  import opened Text
  import opened RegistryText

  datatype Kind = Promote | Compact | ImageArchive | Archive | Freeze

  datatype Mode = Routine | Pressure

  datatype Policy = Policy(
    compactAfter: Option<nat>,
    freezeAfter: Option<nat>,
    archiveAfter: Option<nat>,
    imageArchive: bool,
    noBoot: bool,
    mode: Mode)

  /** A schema's warm entry: its sessions, and how long it has been idle in memory. */
  datatype Warm = Warm(active: nat, idle: nat)

  datatype Row = Row(schema: string, rec: Rec)

  datatype Job = Job(schema: string, kind: Kind)

  /** Everything a pick looks at. */
  datatype View = View(
    rows: seq<Row>,
    live: map<string, Warm>,
    policy: Policy,
    keepalive: set<string>,
    backingOff: set<string>,
    now: nat)

  predicate Boots(k: Kind) { k == Archive || k == Freeze }

  function Rank(k: Kind, mode: Mode): nat {
    match mode
    case Routine =>
      (match k case Promote => 0 case Compact => 1 case ImageArchive => 2 case Archive => 3 case Freeze => 4)
    case Pressure =>
      (match k case Compact => 0 case ImageArchive => 1 case Promote => 2 case Archive => 3 case Freeze => 4)
  }

  // ---- one schema, as the code decides it -------------------------------------------

  datatype SweepAction = Skip | Refresh | Offload

  function Idle(rec: Rec, now: nat): nat { if now >= rec.lastActive then now - rec.lastActive else 0 }

  function ClassifyCandidate(rec: Rec, keepalive: bool, now: nat, threshold: nat, live: Option<Warm>): SweepAction {
    if rec.tier != Live || keepalive then Skip
    else if Idle(rec, now) < threshold then Skip
    else if live.Some? && (live.value.active > 0 || live.value.idle < threshold) then Refresh
    else Offload
  }

  function WarmOf(v: View, schema: string): Option<Warm> {
    if schema in v.live then Some(v.live[schema]) else None
  }

  predicate Eligible(rec: Rec, now: nat, after: Option<nat>, live: Option<Warm>) {
    after.Some? && ClassifyCandidate(rec, false, now, after.value, live) == Offload
  }

  predicate Stale(rec: Rec, now: nat, after: Option<nat>, live: Option<Warm>) {
    after.Some? && ClassifyCandidate(rec, false, now, after.value, live) == Refresh
  }

  // ---- one schema, as the policy states it --------------------------------------------

  /** Nobody has used the schema for `after` seconds, as far as the registry and the
      warm entry can tell. */
  predicate Cold(rec: Rec, now: nat, after: Option<nat>, warm: Option<Warm>) {
    && after.Some? && (after.value == 0 || rec.lastActive + after.value <= now)
    && (warm.Some? ==> warm.value.active == 0 && warm.value.idle >= after.value)
  }

  /** The policy allows this step down the ladder for this schema. */
  predicate Offers(rec: Rec, warm: Option<Warm>, p: Policy, now: nat, k: Kind) {
    match k
    case Promote => rec.tier in {Frozen, Compacted} && Cold(rec, now, p.archiveAfter, None)
    case Compact => rec.tier == Live && warm.None? && Cold(rec, now, p.compactAfter, None)
    case ImageArchive =>
      && rec.tier == Live && warm.None? && p.imageArchive && p.mode == Pressure
      && Cold(rec, now, p.archiveAfter, None)
    case Archive => rec.tier == Live && !p.noBoot && Cold(rec, now, p.archiveAfter, warm)
    case Freeze => rec.tier == Live && !p.noBoot && Cold(rec, now, p.freezeAfter, warm)
  }

  predicate Barred(v: View, schema: string) { schema in v.keepalive || schema in v.backingOff }

  /** Row `i` may take step `k`, and no step that is preferred for a single schema. */
  predicate Candidate(v: View, i: nat, k: Kind) {
    && i < |v.rows| && !Barred(v, v.rows[i].schema)
    && var rec, warm := v.rows[i].rec, WarmOf(v, v.rows[i].schema);
       && Offers(rec, warm, v.policy, v.now, k)
       && (k in {ImageArchive, Archive, Freeze} ==> !Offers(rec, warm, v.policy, v.now, Compact))
       && (k in {Archive, Freeze} ==> !Offers(rec, warm, v.policy, v.now, ImageArchive))
       && (k == Freeze ==> !Offers(rec, warm, v.policy, v.now, Archive))
  }

  /** Cheaper kind first, then the schema idle longest. */
  predicate Beats(mode: Mode, k: Kind, idle: nat, k': Kind, idle': nat) {
    Rank(k, mode) < Rank(k', mode) || (k == k' && idle > idle')
  }

  /** Row `b` with step `k` is the pick: a candidate that no other beats, the
      earliest of those that none beats. */
  ghost predicate Best(v: View, b: nat, k: Kind) {
    && Candidate(v, b, k)
    && forall i: nat, k' :: Candidate(v, i, k') ==>
         && !Beats(v.policy.mode, k', Idle(v.rows[i].rec, v.now), k, Idle(v.rows[b].rec, v.now))
         && (i < b ==> Beats(v.policy.mode, k, Idle(v.rows[b].rec, v.now), k', Idle(v.rows[i].rec, v.now)))
  }

  ghost predicate Picks(v: View, job: Option<Job>) {
    match job
    case None => forall i: nat, k :: !Candidate(v, i, k)
    case Some(j) => exists b: nat :: b < |v.rows| && v.rows[b].schema == j.schema && Best(v, b, j.kind)
  }

  predicate LooksCold(rec: Rec, now: nat, after: Option<nat>, warm: Option<Warm>) {
    Cold(rec, now, after, None) && !Cold(rec, now, after, warm)
  }

  /** A schema whose record looks idle though its warm entry shows it is in use, and
      that no step is open to. */
  predicate StaleButWarm(v: View, i: nat)
    requires i < |v.rows|
  {
    var rec, warm := v.rows[i].rec, WarmOf(v, v.rows[i].schema);
    && !Barred(v, v.rows[i].schema) && rec.tier == Live && warm.Some?
    && !Offers(rec, warm, v.policy, v.now, Archive) && !Offers(rec, warm, v.policy, v.now, Freeze)
    && (|| LooksCold(rec, v.now, v.policy.compactAfter, warm)
        || LooksCold(rec, v.now, v.policy.archiveAfter, warm)
        || LooksCold(rec, v.now, v.policy.freezeAfter, warm))
  }

  function Refreshes(v: View, n: nat): seq<string>
    requires n <= |v.rows|
  {
    if n == 0 then [] else
      Refreshes(v, n - 1) + if StaleButWarm(v, n - 1) then [v.rows[n - 1].schema] else []
  }

  // ---- the loop ---------------------------------------------------------------------------

  lemma EligibleIsCold(rec: Rec, now: nat, after: Option<nat>, warm: Option<Warm>)
    requires rec.tier == Live
    ensures Eligible(rec, now, after, warm) <==> Cold(rec, now, after, warm)
    ensures Stale(rec, now, after, warm) <==> LooksCold(rec, now, after, warm)
  {
  }

  /** The step the body settles on for one row, or none and whether to refresh it. */
  method Step(v: View, i: nat) returns (kind: Option<Kind>, refresh: bool)
    requires i < |v.rows|
    ensures kind.Some? ==> Candidate(v, i, kind.value)
    ensures kind.None? ==> forall k :: !Candidate(v, i, k)
    ensures refresh <==> StaleButWarm(v, i)
  {
    hide Cold, ClassifyCandidate;
    var schema, rec, t := v.rows[i].schema, v.rows[i].rec, v.policy;
    kind, refresh := None, false;
    if schema in v.keepalive || schema in v.backingOff {
      return;
    }
    var warm := WarmOf(v, schema);
    match rec.tier
    case Archived =>
    case Frozen =>
      kind := PromoteStep(v, i);
    case Compacted =>
      kind := PromoteStep(v, i);
    case Live =>
      forall after, w ensures Eligible(rec, v.now, after, w) <==> Cold(rec, v.now, after, w) {
        EligibleIsCold(rec, v.now, after, w);
      }
      var compactable := warm.None? && Eligible(rec, v.now, t.compactAfter, None);
      var imageable := t.imageArchive && t.mode == Pressure && warm.None? && Eligible(rec, v.now, t.archiveAfter, None);
      if compactable {
        kind := Some(Compact);
        assert Candidate(v, i, Compact);
      } else if imageable {
        kind := Some(ImageArchive);
      } else if !t.noBoot && Eligible(rec, v.now, t.archiveAfter, warm) {
        kind := Some(Archive);
      } else if !t.noBoot && Eligible(rec, v.now, t.freezeAfter, warm) {
        kind := Some(Freeze);
      } else {
        refresh := Stale(rec, v.now, t.compactAfter, warm) || Stale(rec, v.now, t.archiveAfter, warm)
                   || Stale(rec, v.now, t.freezeAfter, warm);
        StaleExactly(v, i);
      }
  }

  method PromoteStep(v: View, i: nat) returns (kind: Option<Kind>)
    requires i < |v.rows| && v.rows[i].rec.tier in {Frozen, Compacted} && !Barred(v, v.rows[i].schema)
    ensures kind.Some? ==> Candidate(v, i, kind.value)
    ensures kind.None? ==> forall k :: !Candidate(v, i, k)
  {
    var rec, t := v.rows[i].rec, v.policy;
    kind := if t.archiveAfter.Some? && Idle(rec, v.now) >= t.archiveAfter.value then Some(Promote) else None;
  }

  lemma StaleExactly(v: View, i: nat)
    requires i < |v.rows| && v.rows[i].rec.tier == Live && !Barred(v, v.rows[i].schema)
    requires forall k :: !Candidate(v, i, k)
    ensures
      var rec, t, warm := v.rows[i].rec, v.policy, WarmOf(v, v.rows[i].schema);
      StaleButWarm(v, i)
      <==> Stale(rec, v.now, t.compactAfter, warm) || Stale(rec, v.now, t.archiveAfter, warm)
           || Stale(rec, v.now, t.freezeAfter, warm)
  {
    var rec, t, warm := v.rows[i].rec, v.policy, WarmOf(v, v.rows[i].schema);
    EligibleIsCold(rec, v.now, t.compactAfter, warm);
    EligibleIsCold(rec, v.now, t.archiveAfter, warm);
    EligibleIsCold(rec, v.now, t.freezeAfter, warm);
    hide Cold, Eligible, Stale;
    if warm.Some? {
      assert !Candidate(v, i, Archive) && !Candidate(v, i, Freeze);
    }
  }

  /** `pick_offload_job`: the best candidate, and exactly the stale-but-warm schemas
      in their order. */
  method PickOffloadJob(v: View) returns (job: Option<Job>, refresh: seq<string>)
    ensures Picks(v, job)
    ensures refresh == Refreshes(v, |v.rows|)
  {
    hide Offers, StaleButWarm, Cold;
    var best: Option<(nat, nat, string, Kind)> := None;
    ghost var at := 0;
    refresh := [];
    var i := 0;
    while i < |v.rows|
      invariant 0 <= i <= |v.rows|
      invariant refresh == Refreshes(v, i)
      invariant best.None? ==> forall j: nat, k :: j < i ==> !Candidate(v, j, k)
      invariant best.Some? ==> Leads(v, i, best.value, at)
    {
      var kind, stale := Step(v, i);
      if stale {
        refresh := refresh + [v.rows[i].schema];
      }
      if kind.Some? {
        var rank, idle := Rank(kind.value, v.policy.mode), Idle(v.rows[i].rec, v.now);
        if best.None? || rank < best.value.0 || (rank == best.value.0 && idle > best.value.1) {
          best, at := Some((rank, idle, v.rows[i].schema, kind.value)), i;
        }
        OneStep(v, i, kind.value);
      }
      i := i + 1;
    }
    job := if best.Some? then Some(Job(best.value.2, best.value.3)) else None;
    if best.Some? {
      assert Best(v, at, job.value.kind);
    } else {
      assert forall j: nat, k :: Candidate(v, j, k) ==> j < |v.rows|;
    }
  }

  /** Among the first `n` rows, row `at` is best. */
  ghost predicate Leads(v: View, n: nat, best: (nat, nat, string, Kind), at: nat) {
    && at < n <= |v.rows| && Candidate(v, at, best.3)
    && best.0 == Rank(best.3, v.policy.mode) && best.1 == Idle(v.rows[at].rec, v.now)
    && best.2 == v.rows[at].schema
    && forall i: nat, k' :: i < n && Candidate(v, i, k') ==>
         && !Beats(v.policy.mode, k', Idle(v.rows[i].rec, v.now), best.3, best.1)
         && (i < at ==> Beats(v.policy.mode, best.3, best.1, k', Idle(v.rows[i].rec, v.now)))
  }

  /** A row has one step. */
  lemma OneStep(v: View, i: nat, k: Kind)
    requires Candidate(v, i, k)
    ensures forall k' :: Candidate(v, i, k') ==> k' == k
  {
    hide Cold;
  }

  lemma {:induction false} LeaderExists(v: View, n: nat) returns (best: Option<(nat, nat, string, Kind)>, at: nat)
    requires n <= |v.rows|
    ensures best.None? ==> forall j: nat, k :: j < n ==> !Candidate(v, j, k)
    ensures best.Some? ==> Leads(v, n, best.value, at)
  {
    hide Candidate;
    if n == 0 {
      best, at := None, 0;
    } else {
      var i := n - 1;
      best, at := LeaderExists(v, i);
      if k :| Candidate(v, i, k) {
        OneStep(v, i, k);
        var idle := Idle(v.rows[i].rec, v.now);
        if best.None? || Beats(v.policy.mode, k, idle, best.value.3, best.value.1) {
          best, at := Some((Rank(k, v.policy.mode), idle, v.rows[i].schema, k)), i;
        }
      }
    }
  }

  /** There is always a pick. */
  lemma PickExists(v: View) returns (job: Option<Job>)
    ensures Picks(v, job)
  {
    hide Offers;
    var best, at := LeaderExists(v, |v.rows|);
    job := if best.Some? then Some(Job(best.value.2, best.value.3)) else None;
    if best.Some? {
      assert Best(v, at, best.value.3);
    }
  }

  // ---- what the pick promises ----------------------------------------------------------------

  /** A pick is determined by what it looks at. */
  lemma PickIsUnique(v: View, a: Option<Job>, b: Option<Job>)
    requires Picks(v, a) && Picks(v, b)
    ensures a == b
  {
    hide Candidate;
    if a.Some? && b.Some? {
      var i: nat :| i < |v.rows| && v.rows[i].schema == a.value.schema && Best(v, i, a.value.kind);
      var j: nat :| j < |v.rows| && v.rows[j].schema == b.value.schema && Best(v, j, b.value.kind);
      if i == j {
        OneStep(v, i, a.value.kind);
      }
    }
  }

  /** What the two rankings are for. Both put whatever boots a VM last, an archive before
      a freeze, and compaction before imaging; a promotion goes first in routine, and
      under pressure after whatever frees a whole disk. */
  lemma RankMeans(a: Kind, b: Kind, mode: Mode)
    ensures Rank(a, mode) == Rank(b, mode) ==> a == b
    ensures !Boots(a) && Boots(b) ==> Rank(a, mode) < Rank(b, mode)
    ensures Rank(Archive, mode) < Rank(Freeze, mode) && Rank(Compact, mode) < Rank(ImageArchive, mode)
    ensures mode == Routine && a != Promote ==> Rank(Promote, mode) < Rank(a, mode)
    ensures mode == Pressure && (a == Compact || a == ImageArchive) ==> Rank(a, mode) < Rank(Promote, mode)
  {
  }

  /** In either mode, a job that boots a VM is chosen only when the policy offers no
      schema a step that boots none, and never while booting is ruled out. */
  lemma BootsOnlyAsALastResort(v: View, job: Job, i: nat, k: Kind)
    requires Picks(v, Some(job)) && Boots(job.kind)
    requires i < |v.rows| && !Barred(v, v.rows[i].schema) && !Boots(k)
    ensures !v.policy.noBoot
    ensures !Offers(v.rows[i].rec, WarmOf(v, v.rows[i].schema), v.policy, v.now, k)
  {
    hide Cold;
    var b: nat :| b < |v.rows| && v.rows[b].schema == job.schema && Best(v, b, job.kind);
    if Offers(v.rows[i].rec, WarmOf(v, v.rows[i].schema), v.policy, v.now, k) {
      var k' := SomeStep(v, i, k);
    }
  }

  /** No job exactly when the policy offers no schema any step. */
  lemma NothingPickedExactly(v: View, job: Option<Job>)
    requires Picks(v, job)
    ensures
      job.None? <==>
        forall i, k :: 0 <= i < |v.rows| && !Barred(v, v.rows[i].schema) ==>
          !Offers(v.rows[i].rec, WarmOf(v, v.rows[i].schema), v.policy, v.now, k)
  {
    hide Cold, Offers;
    forall i: nat, k | i < |v.rows| && !Barred(v, v.rows[i].schema)
                       && Offers(v.rows[i].rec, WarmOf(v, v.rows[i].schema), v.policy, v.now, k)
      ensures job.Some?
    {
      var k' := SomeStep(v, i, k);
    }
  }

  lemma SomeStep(v: View, i: nat, k: Kind) returns (k': Kind)
    requires i < |v.rows| && !Barred(v, v.rows[i].schema)
    requires Offers(v.rows[i].rec, WarmOf(v, v.rows[i].schema), v.policy, v.now, k)
    ensures Candidate(v, i, k') && (!Boots(k) ==> !Boots(k'))
  {
    hide Cold;
    var rec, warm := v.rows[i].rec, WarmOf(v, v.rows[i].schema);
    k' := if Offers(rec, warm, v.policy, v.now, Compact) then Compact
          else if Offers(rec, warm, v.policy, v.now, ImageArchive) then ImageArchive
          else if Offers(rec, warm, v.policy, v.now, Archive) then Archive
          else k;
  }

  /** The rung a step starts from. */
  predicate Fits(k: Kind, tier: Tier) {
    if k == Promote then tier == Frozen || tier == Compacted else tier == Live
  }

  /** The rung it leads to. */
  function Target(k: Kind): Tier {
    match k
    case Compact => Compacted
    case Freeze => Frozen
    case _ => Archived
  }

  /** Every pick is of a listed schema, moves it down the ladder, and is not barred. */
  lemma PickIsASafeStep(v: View, job: Job)
    requires Picks(v, Some(job))
    ensures !Barred(v, job.schema) && (Boots(job.kind) ==> !v.policy.noBoot)
    ensures job.schema !in v.keepalive && job.schema !in v.backingOff
    ensures exists i: nat :: i < |v.rows| && v.rows[i].schema == job.schema && Fits(job.kind, v.rows[i].rec.tier)
  {
  }
}
