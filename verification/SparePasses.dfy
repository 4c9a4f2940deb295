/**
 * The warm-spare pool by what its callers and its passes did (src/spares.rs): what is
 * claimed, what a pass probes, plans and shelves, and since when a spare it culls has
 * been sick. Holds of every run, aborted passes included.
 */
module SparePasses {
  import opened Text
  import opened Spares

  // ---- claims --------------------------------------------------------------------------------

  /** The id is the first on the shelf that may be claimed. */
  predicate Takes(s: State, l: Label, x: Id) {
    && l.TakePop? && x in s.pool.ready && Takeable(x, l.bound, s.pool.claimed)
    && exists k :: 0 <= k < |s.pool.ready| && s.pool.ready[k] == x
                   && forall i :: 0 <= i < k ==> !Takeable(s.pool.ready[i], l.bound, s.pool.claimed)
  }

  predicate GivesBack(l: Label, x: Id) { l == Unclaim(x) || l == ReleaseKill(x, true) }

  lemma ClaimStep(s: State, l: Label, x: Id)
    requires PoolInv(s.pool, s.claims) && Enabled(s, l)
    ensures x in Apply(s, l).pool.claimed <==> Takes(s, l, x) || (x in s.pool.claimed && !GivesBack(l, x))
  {
    hide PlanReplenish, ListedOnce;
  }

  lemma TakesFree(s: State, l: Label, x: Id)
    requires Takes(s, l, x)
    ensures !GivesBack(l, x)
  {
  }

  /** A spare is claimed exactly from the take that popped it until that take, or the kill
      after a failed bring-up, gives it back. */
  lemma {:induction false} ClaimedExactly(trace: seq<State>, labels: seq<Label>, n: nat, x: Id)
    requires IsRun(trace, labels) && n < |trace|
    ensures
      x in trace[n].pool.claimed <==>
        exists j :: 0 <= j < n && Takes(trace[j], labels[j], x) && forall k :: j < k < n ==> !GivesBack(labels[k], x)
  {
    hide Enabled, Apply, Takes, PoolInv, GivesBack;
    if n > 0 {
      ClaimedExactly(trace, labels, n - 1, x);
      PoolRunKeeps(trace, labels, n - 1);
      ClaimStep(trace[n - 1], labels[n - 1], x);
    }
  }

  /** A take leaves the shelf as it is after its first candidate, or empty if it has none, as
      `SparePool.Take` does. */
  lemma TakeLeaves(s: State, bound: set<Id>)
    ensures
      Apply(s, TakePop(bound)).pool.ready == Remaining(s.pool.ready, bound, s.pool.claimed, 1)
    ensures
      Apply(s, TakePop(bound)).claims.popped == s.claims.popped <==>
        Candidates(s.pool.ready, bound, s.pool.claimed) == []
        || Candidates(s.pool.ready, bound, s.pool.claimed)[0] in s.claims.popped
  {
    NextPop(s.pool.ready, bound, s.pool.claimed);
  }

  // ---- what a pass finds, plans and shelves ---------------------------------------------------------

  datatype Findings =
    Findings(spares: seq<Listed>, bound: set<Id>, healthy: seq<Id>, sick: seq<Id>, built: seq<Id>)

  /** What the latest listing and probe found, and what has been built since. */
  function Found(labels: seq<Label>): Findings {
    if labels == [] then Findings([], {}, [], [], []) else
      var before := Found(labels[..|labels| - 1]);
      match labels[|labels| - 1]
      case ListSpares(spares, bound) => Findings(spares, bound, [], [], [])
      case Probe(healthy, sick) => before.(healthy := healthy, sick := sick)
      case Build(restarted, created) => before.(built := restarted + created)
      case _ => before
  }

  predicate PassTells(pass: Pass, y: Findings) {
    match pass
    case Idle => true
    case Probing(spares, bound, _) => spares == y.spares && bound == y.bound
    case Judged(spares, bound, healthy, sick) =>
      (spares, bound, healthy, sick) == (y.spares, y.bound, y.healthy, y.sick)
    case Culling(spares, bound, healthy, sick, _) =>
      (spares, bound, healthy, sick) == (y.spares, y.bound, y.healthy, y.sick)
    case Building(bound, healthy, sick, _, _) => (bound, healthy, sick) == (y.bound, y.healthy, y.sick)
    case Deleting(bound, healthy, sick, built, _, _) =>
      (bound, healthy, sick, built) == (y.bound, y.healthy, y.sick, y.built)
  }

  lemma TellStep(s: State, l: Label, before: seq<Label>)
    requires Enabled(s, l) && PassTells(s.pass, Found(before)) && ListedOnce(Found(before).spares)
    ensures PassTells(Apply(s, l).pass, Found(before + [l])) && ListedOnce(Found(before + [l]).spares)
  {
    assert (before + [l])[..|before|] == before;
    hide PlanReplenish, ListedOnce, FreeIds, Doomed, Shelved, Skipped;
  }

  lemma {:induction false} RunTells(trace: seq<State>, labels: seq<Label>, n: nat)
    requires IsRun(trace, labels) && n < |trace|
    ensures PassTells(trace[n].pass, Found(labels[..n])) && ListedOnce(Found(labels[..n]).spares)
  {
    hide Enabled, Apply;
    if n > 0 {
      hide PassTells, Found, ListedOnce;
      RunTells(trace, labels, n - 1);
      TellStep(trace[n - 1], labels[n - 1], labels[..n - 1]);
      assert labels[..n] == labels[..n - 1] + [labels[n - 1]];
    }
  }

  /** The shelf after a pass: what the pass probed healthy or has built and verified, minus
      what is bound or claimed by then. */
  lemma PublishedExactly(trace: seq<State>, labels: seq<Label>, n: nat, x: Id)
    requires IsRun(trace, labels) && n < |labels| && labels[n].Publish?
    ensures
      var y := Found(labels[..n]);
      x in trace[n + 1].pool.ready <==>
        (x in y.healthy || x in labels[n].verified) && Takeable(x, y.bound, trace[n].pool.claimed)
  {
    hide Found;
    RunTells(trace, labels, n);
    assert Enabled(trace[n], labels[n]) && trace[n + 1] == Apply(trace[n], labels[n]);
  }

  /** And all it has built, restarted or made, may be verified and shelved once the surplus is
      gone; nothing else may. */
  lemma PublishesExactly(trace: seq<State>, labels: seq<Label>, n: nat, verified: seq<Id>)
    requires IsRun(trace, labels) && n < |trace| && trace[n].pass.Deleting?
    ensures
      Enabled(trace[n], Publish(verified)) <==>
        trace[n].pass.surplus == [] && forall x :: x in verified ==> x in Found(labels[..n]).built
  {
    hide Found;
    RunTells(trace, labels, n);
  }

  lemma {:induction false} NotSickOnce(spares: seq<Listed>, sick: seq<Id>)
    requires ListedOnce(spares)
    ensures ListedOnce(NotSick(spares, sick))
  {
    if spares != [] {
      var n := |spares| - 1;
      NotSickOnce(spares[..n], sick);
      var rest := NotSick(spares[..n], sick);
      assert forall i :: 0 <= i < |rest| ==> rest[i] in spares[..n];
      assert forall x :: x in spares[..n] ==> x.id != spares[n].id;
    }
  }

  /** The plan of a pass makes up exactly what is missing to the pool's target, out of what
      the pass listed and did not find sick. */
  lemma PlannedExactly(trace: seq<State>, labels: seq<Label>, n: nat)
    requires IsRun(trace, labels) && n < |labels| && labels[n] == MakePlan
    ensures trace[n + 1].pass.Building? && trace[n + 1].target == trace[n].target
    ensures
      var y, claimed, target := Found(labels[..n]), trace[n].pool.claimed, trace[n].target;
      var plan := trace[n + 1].pass.plan;
      var known := NotSick(y.spares, y.sick);
      var running := |FreeIds(known, true, y.bound, claimed)|;
      && (running <= target ==> running + |plan.start| + plan.create == target)
      && (running >= target ==> plan.start == [] && plan.create == 0)
      && (plan.create > 0 ==> plan.delete == [])
      && (forall x :: x in plan.start || x in plan.delete <==>
            Takeable(x, y.bound, claimed) && Listed(x, false) in y.spares && x !in y.sick)
  {
    hide Found, PlanReplenish, FreeIds;
    RunTells(trace, labels, n);
    assert Enabled(trace[n], labels[n]) && trace[n + 1] == Apply(trace[n], labels[n]);
    var y := Found(labels[..n]);
    NotSickOnce(y.spares, y.sick);
    PlanIsRight(NotSick(y.spares, y.sick), y.bound, trace[n].pool.claimed, trace[n].target);
  }

  lemma ProbingStep(s: State, l: Label)
    requires Enabled(s, l) && Apply(s, l).pass.Probing?
    ensures
      || (l.ListSpares? && Apply(s, l).pass.free == FreeIds(l.spares, true, l.bound, s.pool.claimed))
      || (!l.ListSpares? && s.pass == Apply(s, l).pass)
  {
    hide PlanReplenish, ListedOnce, FreeIds, Doomed, Shelved;
  }

  lemma {:induction false} ListingOf(trace: seq<State>, labels: seq<Label>, n: nat) returns (i: nat)
    requires IsRun(trace, labels) && n < |trace| && trace[n].pass.Probing?
    ensures i < n && labels[i].ListSpares? && forall k :: i < k < n ==> !labels[k].ListSpares?
    ensures trace[n].pass.free == FreeIds(labels[i].spares, true, labels[i].bound, trace[i].pool.claimed)
  {
    hide Enabled, Apply, FreeIds;
    ProbingStep(trace[n - 1], labels[n - 1]);
    if labels[n - 1].ListSpares? {
      i := n - 1;
    } else {
      i := ListingOf(trace, labels, n - 1);
    }
  }

  /** A pass probes exactly the running spares it listed that were neither bound nor claimed. */
  lemma ProbedExactly(trace: seq<State>, labels: seq<Label>, n: nat, x: Id) returns (i: nat)
    requires IsRun(trace, labels) && n < |labels| && labels[n].Probe?
    ensures i < n && labels[i].ListSpares? && forall k :: i < k < n ==> !labels[k].ListSpares?
    ensures
      x in labels[n].healthy || x in labels[n].sick <==>
        Listed(x, true) in labels[i].spares && Takeable(x, labels[i].bound, trace[i].pool.claimed)
  {
    assert Enabled(trace[n], labels[n]);
    hide Apply;
    i := ListingOf(trace, labels, n);
    var free := trace[n].pass.free;
    assert x in free <==> x in multiset(free);
    assert x in labels[n].healthy <==> x in multiset(labels[n].healthy);
    assert x in labels[n].sick <==> x in multiset(labels[n].sick);
  }

  // ---- since when a culled spare has been sick --------------------------------------------------------

  /** The record of the spare goes. */
  predicate Forgets(s: State, l: Label, x: Id) {
    || l == Release(x)
    || (l == KillDoomed(true) && s.pass.Culling? && s.pass.doomed != [] && s.pass.doomed[0] == x)
  }

  predicate FindsSick(s: State, l: Label, x: Id) { l.Cull? && s.pass.Judged? && x in s.pass.sick }

  lemma SickStep(s: State, l: Label, x: Id)
    requires Enabled(s, l)
    ensures
      var was, after := s.pool.sick, Apply(s, l).pool.sick;
      && (x in after <==> if l.Cull? then FindsSick(s, l, x) else x in was && !Forgets(s, l, x))
      && (x in after ==> after[x] == if x in was then was[x] else if l.Cull? then l.now else 0)
  {
    hide PlanReplenish, ListedOnce, FreeIds, Doomed, Shelved, Skipped, WithoutId;
  }

  /** The row of verdicts on a spare that began at `j`: not on record before, found sick then and
      by every pass since, and not released or killed in between. */
  ghost predicate SickRow(trace: seq<State>, labels: seq<Label>, j: nat, n: nat, x: Id)
    requires n < |trace| == |labels| + 1
  {
    && j < n && FindsSick(trace[j], labels[j], x) && x !in trace[j].pool.sick
    && forall k :: j < k < n ==>
         (labels[k].Cull? ==> FindsSick(trace[k], labels[k], x)) && !Forgets(trace[k], labels[k], x)
  }

  /** A spare's sick record is the time of the first verdict of such a row. */
  lemma {:induction false} SickSince(trace: seq<State>, labels: seq<Label>, n: nat, x: Id) returns (j: nat)
    requires IsRun(trace, labels) && n < |trace| && x in trace[n].pool.sick
    ensures SickRow(trace, labels, j, n, x) && trace[n].pool.sick[x] == labels[j].now
  {
    hide Enabled, Apply, FindsSick, Forgets;
    var s, l := trace[n - 1], labels[n - 1];
    SickStep(s, l, x);
    if x in s.pool.sick {
      j := SickSince(trace, labels, n - 1, x);
      assert !Forgets(s, l, x) by { CullForgetsNot(s, l, x); }
    } else {
      j := n - 1;
    }
  }

  lemma CullForgetsNot(s: State, l: Label, x: Id)
    ensures l.Cull? ==> !Forgets(s, l, x)
  {
  }

  lemma CullingStep(s: State, l: Label)
    requires Enabled(s, l) && Apply(s, l).pass.Culling?
    ensures
      var s' := Apply(s, l);
      || (l.Cull? && s'.pass.doomed == Doomed(s'.pool.sick, s'.pass.sick, l.now))
      || (!l.Cull? && s.pass.Culling? && (forall x :: x in s'.pass.doomed ==> x in s.pass.doomed))
  {
    hide PlanReplenish, ListedOnce, FreeIds, Doomed, Shelved, Skipped;
  }

  lemma {:induction false} CullOf(trace: seq<State>, labels: seq<Label>, n: nat, x: Id) returns (i: nat)
    requires IsRun(trace, labels) && n < |trace| && trace[n].pass.Culling? && x in trace[n].pass.doomed
    ensures i < n && labels[i].Cull? && Overdue(trace[i + 1].pool.sick, x, labels[i].now)
  {
    hide Enabled, Apply;
    CullingStep(trace[n - 1], labels[n - 1]);
    if labels[n - 1].Cull? {
      i := n - 1;
    } else {
      i := CullOf(trace, labels, n - 1, x);
    }
  }

  /** No spare is culled on one bad verdict: one that is killed as sick has been found sick by
      every pass for at least five minutes. */
  lemma CulledAfterGrace(trace: seq<State>, labels: seq<Label>, n: nat) returns (j: nat, i: nat)
    requires IsRun(trace, labels) && n < |labels| && labels[n].KillDoomed?
    ensures trace[n].pass.Culling? && trace[n].pass.doomed != []
    ensures j <= i < n && labels[i].Cull? && SickRow(trace, labels, j, i + 1, trace[n].pass.doomed[0])
    ensures labels[j].Cull? && labels[j].now + 300 <= labels[i].now
  {
    assert Enabled(trace[n], labels[n]);
    hide Apply;
    var x := trace[n].pass.doomed[0];
    i := CullOf(trace, labels, n, x);
    j := SickSince(trace, labels, i + 1, x);
  }

  lemma DoomedStep(s: State, l: Label, x: Id)
    requires Enabled(s, l) && s.pass.Culling? && Apply(s, l).pass.Culling? && x in s.pass.doomed
    ensures x in Apply(s, l).pass.doomed || (l.KillDoomed? && s.pass.doomed[0] == x)
    ensures !l.Cull?
  {
  }

  /** The kills since the cull, against what is left to kill. */
  lemma {:induction false} CullGoesThrough(trace: seq<State>, labels: seq<Label>, n: nat, x: Id) returns (i: nat)
    requires IsRun(trace, labels) && n < |trace| && trace[n].pass.Culling?
    ensures i < n && labels[i].Cull? && trace[i + 1].pass.Culling?
    ensures x in trace[i + 1].pass.doomed ==>
      x in trace[n].pass.doomed || exists k :: i < k < n && KillsDoomed(trace[k], labels[k], x)
  {
    hide Enabled, Apply;
    CullingStep(trace[n - 1], labels[n - 1]);
    if labels[n - 1].Cull? {
      i := n - 1;
    } else {
      i := CullGoesThrough(trace, labels, n - 1, x);
      if x in trace[n - 1].pass.doomed {
        DoomedStep(trace[n - 1], labels[n - 1], x);
      }
    }
  }

  predicate KillsDoomed(s: State, l: Label, x: Id) {
    l.KillDoomed? && s.pass.Culling? && s.pass.doomed != [] && s.pass.doomed[0] == x
  }

  /** By the time a pass plans, it has tried to kill every spare it doomed. */
  lemma DoomedAreKilledFirst(trace: seq<State>, labels: seq<Label>, n: nat, x: Id) returns (i: nat)
    requires IsRun(trace, labels) && n < |labels| && labels[n] == MakePlan
    ensures i < n && labels[i].Cull? && trace[i + 1].pass.Culling?
    ensures x in trace[i + 1].pass.doomed ==> exists k :: i < k < n && KillsDoomed(trace[k], labels[k], x)
  {
    assert Enabled(trace[n], labels[n]);
    hide Apply;
    i := CullGoesThrough(trace, labels, n, x);
  }
}
