/**
 * The warm-spare pool (src/spares.rs): a shelf of verified spare VMs that bring-ups
 * claim from, and a replenish pass that probes, culls, plans, builds and publishes.
 */
module Spares {
  import opened Text

  type Id = string

  const TAKE_MAX_ATTEMPTS: nat := 3
  const SPARE_SICK_GRACE: nat := 300
  const SPARE_MAX_CULLS_PER_PASS: nat := 2

  // ---- the lock sections ------------------------------------------------------------

  predicate NoDup(ids: seq<Id>) { forall i, j :: 0 <= i < j < |ids| ==> ids[i] != ids[j] }

  predicate Takeable(id: Id, bound: set<Id>, claimed: set<Id>) { id !in bound && id !in claimed }

  /** How many ids come off the shelf before the first that may be claimed. */
  function Skipped(ready: seq<Id>, bound: set<Id>, claimed: set<Id>): (n: nat)
    ensures n <= |ready|
    ensures forall i :: 0 <= i < n ==> !Takeable(ready[i], bound, claimed)
    ensures n < |ready| ==> Takeable(ready[n], bound, claimed)
  {
    if ready == [] || Takeable(ready[0], bound, claimed) then 0 else 1 + Skipped(ready[1..], bound, claimed)
  }

  /** What is shelved of `ids`: each once, none bound or claimed. */
  function Shelved(ids: seq<Id>, bound: set<Id>, claimed: set<Id>): (shelf: seq<Id>)
    ensures NoDup(shelf)
    ensures forall x :: x in shelf <==> x in ids && Takeable(x, bound, claimed)
  {
    if ids == [] then [] else
      var rest := Shelved(ids[..|ids| - 1], bound, claimed);
      var last := ids[|ids| - 1];
      assert forall x :: x in ids <==> x in ids[..|ids| - 1] || x == last;
      if Takeable(last, bound, claimed) && last !in rest then rest + [last] else rest
  }

  /** Since when each spare is sick, once this pass's verdicts are in. */
  function Verdicts(since: map<Id, nat>, sick: seq<Id>, now: nat): map<Id, nat> {
    map id | id in sick :: if id in since then since[id] else now
  }

  predicate Overdue(since: map<Id, nat>, id: Id, now: nat) {
    id in since && since[id] + SPARE_SICK_GRACE <= now
  }

  /** The sick spares past their grace, in order. */
  function AllDoomed(since: map<Id, nat>, sick: seq<Id>, now: nat): (doomed: seq<Id>)
    ensures forall x :: x in doomed <==> x in sick && Overdue(since, x, now)
  {
    if sick == [] then [] else
      var last := sick[|sick| - 1];
      assert forall x :: x in sick <==> x in sick[..|sick| - 1] || x == last;
      AllDoomed(since, sick[..|sick| - 1], now) + if Overdue(since, last, now) then [last] else []
  }

  function Doomed(since: map<Id, nat>, sick: seq<Id>, now: nat): (doomed: seq<Id>)
    ensures |doomed| <= SPARE_MAX_CULLS_PER_PASS
    ensures forall x :: x in doomed ==> x in sick && Overdue(since, x, now)
    ensures |doomed| < SPARE_MAX_CULLS_PER_PASS ==> forall x :: x in sick && Overdue(since, x, now) ==> x in doomed
  {
    var all := AllDoomed(since, sick, now);
    if |all| > SPARE_MAX_CULLS_PER_PASS then all[..SPARE_MAX_CULLS_PER_PASS] else all
  }

  /** What the daemon says of a popped spare. */
  datatype Answer = NoConnection | Running | NotRunning | NotFound | Trouble

  /** The ids on the shelf that may be claimed, in shelf order. */
  function Candidates(ready: seq<Id>, bound: set<Id>, claimed: set<Id>): seq<Id> {
    if ready == [] then []
    else (if Takeable(ready[0], bound, claimed) then [ready[0]] else []) + Candidates(ready[1..], bound, claimed)
  }

  /** The shelf once the first `n` of them have been popped, or all of it if there are fewer. */
  function Remaining(ready: seq<Id>, bound: set<Id>, claimed: set<Id>, n: nat): seq<Id> {
    if n == 0 || ready == [] then ready
    else Remaining(ready[1..], bound, claimed, if Takeable(ready[0], bound, claimed) then n - 1 else n)
  }

  /** A spare that runs is used, and so is one the daemon is in no state to speak of. */
  predicate Usable(a: Answer) { a == Running || a == Trouble }

  function FirstUsable(answers: seq<Answer>, n: nat): (k: nat)
    requires n <= |answers|
    ensures k <= n && (forall i :: 0 <= i < k ==> !Usable(answers[i])) && (k < n ==> Usable(answers[k]))
  {
    if n == 0 || Usable(answers[0]) then 0 else 1 + FirstUsable(answers[1..], n - 1)
  }

  lemma FirstUsableIs(answers: seq<Answer>, n: nat, k: nat)
    requires k <= n <= |answers| && (forall i :: 0 <= i < k ==> !Usable(answers[i])) && (k < n ==> Usable(answers[k]))
    ensures FirstUsable(answers, n) == k
  {
  }

  /** What the next pop does, against the candidates. */
  lemma {:induction false} NextPop(ready: seq<Id>, bound: set<Id>, claimed: set<Id>)
    ensures
      var n := Skipped(ready, bound, claimed);
      if n == |ready| then Candidates(ready, bound, claimed) == [] && Remaining(ready, bound, claimed, 1) == []
      else
        && Candidates(ready, bound, claimed) == [ready[n]] + Candidates(ready[n + 1..], bound, claimed)
        && Remaining(ready, bound, claimed, 1) == ready[n + 1..]
  {
    if ready != [] && !Takeable(ready[0], bound, claimed) {
      NextPop(ready[1..], bound, claimed);
    }
  }

  lemma {:induction false} PopsAdd(ready: seq<Id>, bound: set<Id>, claimed: set<Id>, k: nat, n: nat)
    ensures
      Remaining(Remaining(ready, bound, claimed, k), bound, claimed, n) == Remaining(ready, bound, claimed, k + n)
  {
    if k > 0 && ready != [] {
      PopsAdd(ready[1..], bound, claimed, if Takeable(ready[0], bound, claimed) then k - 1 else k, n);
    }
  }

  lemma {:induction false} CandidatesLeft(ready: seq<Id>, bound: set<Id>, claimed: set<Id>, k: nat)
    ensures
      var all := Candidates(ready, bound, claimed);
      && Candidates(Remaining(ready, bound, claimed, k), bound, claimed) == (if k <= |all| then all[k..] else [])
      && (k > |all| ==> Remaining(ready, bound, claimed, k) == [])
  {
    if k > 0 && ready != [] {
      CandidatesLeft(ready[1..], bound, claimed, if Takeable(ready[0], bound, claimed) then k - 1 else k);
    }
  }

  /** What is left of a shelf is what follows the last id popped. */
  lemma {:induction false} RemainingFollows(ready: seq<Id>, bound: set<Id>, claimed: set<Id>, n: nat) returns (p: nat)
    requires 0 < n <= |Candidates(ready, bound, claimed)|
    ensures p < |ready| && ready[p] == Candidates(ready, bound, claimed)[n - 1]
    ensures Remaining(ready, bound, claimed, n) == ready[p + 1..]
  {
    if Takeable(ready[0], bound, claimed) && n == 1 {
      p := 0;
    } else {
      p := RemainingFollows(ready[1..], bound, claimed, if Takeable(ready[0], bound, claimed) then n - 1 else n);
      p := p + 1;
    }
  }

  /** The pop after the first `k`. */
  lemma NthPop(ready: seq<Id>, bound: set<Id>, claimed: set<Id>, k: nat)
    requires k <= |Candidates(ready, bound, claimed)|
    ensures
      var all, rest := Candidates(ready, bound, claimed), Remaining(ready, bound, claimed, k);
      var n := Skipped(rest, bound, claimed);
      if n == |rest| then k == |all| && forall m :: m > k ==> Remaining(ready, bound, claimed, m) == []
      else k < |all| && rest[n] == all[k] && rest[n + 1..] == Remaining(ready, bound, claimed, k + 1)
  {
    hide Candidates, Remaining;
    CandidatesLeft(ready, bound, claimed, k);
    NextPop(Remaining(ready, bound, claimed, k), bound, claimed);
    PopsAdd(ready, bound, claimed, k, 1);
    forall m | m > k && k == |Candidates(ready, bound, claimed)| ensures Remaining(ready, bound, claimed, m) == [] {
      CandidatesLeft(ready, bound, claimed, m);
    }
  }

  lemma NonePopped(ready: seq<Id>, bound: set<Id>, claimed: set<Id>)
    ensures Remaining(ready, bound, claimed, 0) == ready
  {
  }

  lemma {:induction false} RemainingIsSuffix(ready: seq<Id>, bound: set<Id>, claimed: set<Id>, n: nat)
    ensures
      var rest := Remaining(ready, bound, claimed, n);
      |rest| <= |ready| && rest == ready[|ready| - |rest|..]
  {
    if n > 0 && ready != [] {
      RemainingIsSuffix(ready[1..], bound, claimed, if Takeable(ready[0], bound, claimed) then n - 1 else n);
    }
  }

  lemma {:induction false} CandidateIsTakeable(ready: seq<Id>, bound: set<Id>, claimed: set<Id>, x: Id)
    ensures x in Candidates(ready, bound, claimed) <==> x in ready && Takeable(x, bound, claimed)
  {
    if ready != [] {
      CandidateIsTakeable(ready[1..], bound, claimed, x);
    }
  }

  /** The pick of `take`: which candidate, and how many are popped for it. */
  function Choice(ready: seq<Id>, bound: set<Id>, claimed: set<Id>, answers: seq<Answer>): (Option<Id>, nat)
    requires |answers| == TAKE_MAX_ATTEMPTS
  {
    var c := Candidates(ready, bound, claimed);
    var tries := if |c| < TAKE_MAX_ATTEMPTS then |c| else TAKE_MAX_ATTEMPTS;
    var k := FirstUsable(answers, tries);
    if k < tries then (Some(c[k]), k + 1) else (None, TAKE_MAX_ATTEMPTS)
  }

  lemma ChoiceIs(ready: seq<Id>, bound: set<Id>, claimed: set<Id>, answers: seq<Answer>, k: nat)
    requires |answers| == TAKE_MAX_ATTEMPTS && k <= |Candidates(ready, bound, claimed)| && k <= TAKE_MAX_ATTEMPTS
    requires forall i :: 0 <= i < k ==> !Usable(answers[i])
    ensures
      var c := Candidates(ready, bound, claimed);
      if k == |c| || k == TAKE_MAX_ATTEMPTS then Choice(ready, bound, claimed, answers) == (None, TAKE_MAX_ATTEMPTS)
      else if Usable(answers[k]) then Choice(ready, bound, claimed, answers) == (Some(c[k]), k + 1)
      else true
  {
  }

  /** The pick is the first candidate, of three at most, that the daemon reports running or
      cannot speak of; those before it could not be reached, were not running or were
      not there. */
  lemma ChoiceMeans(ready: seq<Id>, bound: set<Id>, claimed: set<Id>, answers: seq<Answer>)
    requires |answers| == TAKE_MAX_ATTEMPTS
    ensures
      var (choice, pops) := Choice(ready, bound, claimed, answers);
      var c := Candidates(ready, bound, claimed);
      && (choice.Some? <==> exists k :: 0 <= k < |c| && k < 3 && answers[k] in {Running, Trouble})
      && (choice.Some? ==>
            && 0 < pops <= |c| && pops <= TAKE_MAX_ATTEMPTS && choice == Some(c[pops - 1])
            && answers[pops - 1] in {Running, Trouble}
            && forall i :: 0 <= i < pops - 1 ==> answers[i] in {NoConnection, NotRunning, NotFound})
      && (choice.None? ==> pops == TAKE_MAX_ATTEMPTS)
  {
  }

  class SparePool {
    const target: nat
    var claimed: set<Id>
    var ready: seq<Id>
    var sickSince: map<Id, nat>

    /** The shelf is duplicate-free and apart from the claims. */
    ghost predicate Valid()
      reads this
    {
      NoDup(ready) && forall x :: x in ready ==> x !in claimed
    }

    constructor (wanted: nat)
      ensures Valid() && claimed == {} && ready == [] && sickSince == map[]
      ensures target == if wanted <= 16 then wanted else 16
    {
      target := if wanted <= 16 then wanted else 16;
      claimed, ready, sickSince := {}, [], map[];
    }

    /** The critical section of `take`: pops until an id can be claimed. */
    method PopClaim(bound: set<Id>) returns (popped: Option<Id>)
      requires Valid()
      modifies this`claimed, this`ready
      ensures Valid()
      ensures
        var n := Skipped(old(ready), bound, old(claimed));
        if n == |old(ready)| then popped == None && ready == [] && claimed == old(claimed)
        else popped == Some(old(ready)[n]) && ready == old(ready)[n + 1..] && claimed == old(claimed) + {old(ready)[n]}
    {
      ghost var n := 0;
      while ready != []
        invariant n <= |old(ready)| && ready == old(ready)[n..] && claimed == old(claimed)
        invariant n + Skipped(ready, bound, claimed) == Skipped(old(ready), bound, claimed)
        decreases |ready|
      {
        var id := ready[0];
        ready := ready[1..];
        if id !in bound && id !in claimed {
          claimed := claimed + {id};
          return Some(id);
        }
        n := n + 1;
      }
      return None;
    }

    /** `take`: up to three pops, each confirmed with the daemon: the first candidate it
        lets through is taken. A daemon in trouble does not cost the claim. */
    method Take(bound: set<Id>, answers: seq<Answer>) returns (taken: Option<Id>)
      requires Valid() && |answers| == TAKE_MAX_ATTEMPTS
      modifies this`claimed, this`ready
      ensures Valid() && |ready| <= |old(ready)| && ready == old(ready)[|old(ready)| - |ready|..]
      ensures
        var (choice, pops) := Choice(old(ready), bound, old(claimed), answers);
        taken == choice && ready == Remaining(old(ready), bound, old(claimed), pops)
      ensures claimed == if taken.Some? then old(claimed) + {taken.value} else old(claimed)
      ensures taken.Some? ==> taken.value !in old(claimed)
      ensures taken.Some? ==> taken.value in old(ready) && taken.value !in ready && taken.value !in bound
    {
      hide Candidates, Remaining, Skipped, Choice;
      var k := 0;
      assert ready == Remaining(ready, bound, claimed, 0) by { NonePopped(ready, bound, claimed); }
      while k < TAKE_MAX_ATTEMPTS
        invariant 0 <= k <= TAKE_MAX_ATTEMPTS && Valid() && claimed == old(claimed)
        invariant k <= |Candidates(old(ready), bound, claimed)| && ready == Remaining(old(ready), bound, claimed, k)
        invariant forall i :: 0 <= i < k ==> !Usable(answers[i])
      {
        ChoiceIs(old(ready), bound, claimed, answers, k);
        NthPop(old(ready), bound, claimed, k);
        RemainingIsSuffix(old(ready), bound, claimed, k + 1);
        RemainingIsSuffix(old(ready), bound, claimed, TAKE_MAX_ATTEMPTS);
        var popped := PopClaim(bound);
        if popped.None? {
          return None;
        }
        var id := popped.value;
        CandidateIsTakeable(old(ready), bound, old(claimed), id);
        if answers[k] == Running || answers[k] == Trouble {
          return Some(id);
        }
        Unclaim(id);
        k := k + 1;
      }
      ChoiceIs(old(ready), bound, claimed, answers, k);
      RemainingIsSuffix(old(ready), bound, claimed, k);
      return None;
    }

    method Unclaim(id: Id)
      requires Valid()
      modifies this`claimed
      ensures Valid() && claimed == old(claimed) - {id}
    {
      claimed := claimed - {id};
    }

    /** `publish`. */
    method Publish(ids: seq<Id>, bound: set<Id>) returns (depth: nat)
      modifies this`ready
      ensures Valid() && ready == Shelved(ids, bound, claimed) && depth == |ready|
    {
      ready := [];
      var seen: set<Id> := {};
      var i := 0;
      while i < |ids|
        invariant 0 <= i <= |ids|
        invariant ready == Shelved(ids[..i], bound, claimed)
        invariant forall x :: x in seen <==> x in ready
      {
        assert ids[..i + 1][..i] == ids[..i];
        if ids[i] !in bound && ids[i] !in claimed && ids[i] !in seen {
          seen := seen + {ids[i]};
          ready := ready + [ids[i]];
        }
        i := i + 1;
      }
      assert ids[..i] == ids;
      depth := |ready|;
    }

    /** The first half of `release_failed`: the id is no longer inventory. */
    method Withdraw(id: Id)
      requires Valid()
      modifies this`ready, this`sickSince
      ensures Valid() && id !in ready && id !in sickSince
      ensures forall x :: x in ready <==> x in old(ready) && x != id
      ensures sickSince == map x | x in old(sickSince) && x != id :: old(sickSince)[x]
    {
      var kept: seq<Id> := [];
      var i := 0;
      while i < |ready|
        invariant 0 <= i <= |ready|
        invariant forall x :: x in kept <==> x in ready[..i] && x != id
        invariant NoDup(kept)
      {
        assert ready[..i + 1] == ready[..i] + [ready[i]];
        if ready[i] != id {
          assert ready[i] !in ready[..i];
          kept := kept + [ready[i]];
        }
        i := i + 1;
      }
      assert ready[..i] == ready;
      ready := kept;
      sickSince := map x | x in sickSince && x != id :: sickSince[x];
    }

    /** The critical section of `cull_sick`. */
    method RecordSick(sick: seq<Id>, now: nat) returns (doomed: seq<Id>)
      modifies this`sickSince
      ensures sickSince == Verdicts(old(sickSince), sick, now)
      ensures doomed == Doomed(sickSince, sick, now) && |doomed| <= 2
    {
      ghost var due := Verdicts(sickSince, sick, now);
      var since := map id | id in sickSince && id in sick :: sickSince[id];
      doomed := [];
      var i := 0;
      while i < |sick|
        invariant 0 <= i <= |sick|
        invariant forall x :: x in since ==> x in due && since[x] == due[x]
        invariant forall x :: x in due && x !in since ==> due[x] == now
        invariant forall x :: x in sick[..i] ==> x in since
        invariant doomed == AllDoomed(due, sick[..i], now)
      {
        assert sick[..i + 1][..i] == sick[..i];
        assert sick[i] in due;
        if sick[i] !in since {
          since := since[sick[i] := now];
        }
        if since[sick[i]] + SPARE_SICK_GRACE <= now {
          doomed := doomed + [sick[i]];
        }
        i := i + 1;
      }
      assert sick[..i] == sick;
      assert since == due;
      sickSince := since;
      if |doomed| > SPARE_MAX_CULLS_PER_PASS {
        doomed := doomed[..SPARE_MAX_CULLS_PER_PASS];
      }
    }
  }

  // ---- the plan -----------------------------------------------------------------------

  /** A spare-named sandbox as the daemon lists it. */
  datatype Listed = Listed(id: Id, up: bool)

  datatype Plan = Plan(start: seq<Id>, create: nat, delete: seq<Id>)

  function FreeIds(spares: seq<Listed>, up: bool, bound: set<Id>, claimed: set<Id>): (ids: seq<Id>)
    ensures forall x :: x in ids <==> Takeable(x, bound, claimed) && Listed(x, up) in spares
    ensures ListedOnce(spares) ==> NoDup(ids)
  {
    if spares == [] then [] else
      var n := |spares| - 1;
      var rest := FreeIds(spares[..n], up, bound, claimed);
      assert forall s :: s in spares <==> s in spares[..n] || s == spares[n];
      if spares[n].up == up && Takeable(spares[n].id, bound, claimed) then
        assert ListedOnce(spares) ==> ListedOnce(spares[..n]) && spares[n].id !in rest;
        rest + [spares[n].id]
      else
        assert ListedOnce(spares) ==> ListedOnce(spares[..n]);
        rest
  }

  predicate ListedOnce(spares: seq<Listed>) { forall i, j :: 0 <= i < j < |spares| ==> spares[i].id != spares[j].id }

  function Min(a: nat, b: nat): nat { if a <= b then a else b }

  /** `plan_replenish`. */
  function PlanReplenish(spares: seq<Listed>, bound: set<Id>, claimed: set<Id>, target: nat): Plan {
    var running := |FreeIds(spares, true, bound, claimed)|;
    var stopped := FreeIds(spares, false, bound, claimed);
    var deficit := if target >= running then target - running else 0;
    var k := Min(deficit, |stopped|);
    Plan(stopped[..k], deficit - k, stopped[k..])
  }

  /** The plan meets the target exactly when something is missing, restarts before it
      creates, deletes only what the target leaves no use for, and touches nothing
      that is running, bound or claimed. */
  lemma PlanIsRight(spares: seq<Listed>, bound: set<Id>, claimed: set<Id>, target: nat)
    requires ListedOnce(spares)
    ensures
      var plan := PlanReplenish(spares, bound, claimed, target);
      var running := |FreeIds(spares, true, bound, claimed)|;
      && (running <= target ==> running + |plan.start| + plan.create == target)
      && (running >= target ==> plan.start == [] && plan.create == 0)
      && (plan.create > 0 ==> plan.delete == [])
      && (forall x :: x in plan.start || x in plan.delete <==>
            Takeable(x, bound, claimed) && Listed(x, false) in spares)
      && NoDup(plan.start + plan.delete)
  {
    var stopped := FreeIds(spares, false, bound, claimed);
    var plan := PlanReplenish(spares, bound, claimed, target);
    assert plan.start + plan.delete == stopped;
    assert forall x :: x in stopped <==> x in plan.start || x in plan.delete;
  }

  // ---- claims, releases and passes interleaved ----------------------------------------------

  datatype Pool = Pool(claimed: set<Id>, ready: seq<Id>, sick: map<Id, nat>)

  /** Ids popped and not yet confirmed, ids handed to a bring-up, and ids of failed
      bring-ups not yet killed. */
  datatype Claims = Claims(popped: set<Id>, handed: set<Id>, releasing: set<Id>)

  /** Where a replenish pass stands; `exposed` are the planned deletions that were on
      the shelf when planned. */
  datatype Pass =
    | Idle
    | Probing(spares: seq<Listed>, bound: set<Id>, free: seq<Id>)
    | Judged(spares: seq<Listed>, bound: set<Id>, healthy: seq<Id>, sick: seq<Id>)
    | Culling(spares: seq<Listed>, bound: set<Id>, healthy: seq<Id>, sick: seq<Id>, doomed: seq<Id>)
    | Building(bound: set<Id>, healthy: seq<Id>, sick: seq<Id>, plan: Plan, exposed: set<Id>)
    | Deleting(bound: set<Id>, healthy: seq<Id>, sick: seq<Id>, built: seq<Id>, surplus: seq<Id>, exposed: set<Id>)

  datatype State = State(target: nat, pool: Pool, claims: Claims, pass: Pass)

  datatype Label =
    | TakePop(bound: set<Id>)
    | Confirm(id: Id)
    | Unclaim(id: Id)
    | Release(id: Id)
    | ReleaseKill(id: Id, ok: bool)
    | ListSpares(spares: seq<Listed>, bound: set<Id>)
    | Probe(healthy: seq<Id>, sick: seq<Id>)
    | Cull(now: nat)
    | KillDoomed(ok: bool)
    | MakePlan
    | Build(restarted: seq<Id>, created: seq<Id>)
    | KillSurplus
    | Publish(verified: seq<Id>)
    | AbortPass

  function WithoutId(ids: seq<Id>, id: Id): (r: seq<Id>)
    ensures forall x :: x in r <==> x in ids && x != id
    ensures NoDup(ids) ==> NoDup(r)
  {
    if ids == [] then [] else
      var n := |ids| - 1;
      var rest := WithoutId(ids[..n], id);
      assert forall x :: x in ids <==> x in ids[..n] || x == ids[n];
      assert NoDup(ids) ==> NoDup(ids[..n]) && ids[n] !in ids[..n];
      if ids[n] == id then rest else rest + [ids[n]]
  }

  /** An id the daemon has just made: unknown to the pool and to the pass. */
  predicate Brand(s: State, id: Id) {
    id !in s.pool.claimed && id !in s.pool.ready && (s.pass.Building? ==> id !in s.pass.sick)
  }

  predicate Enabled(s: State, l: Label) {
    match l
    case TakePop(_) => true
    case Confirm(id) => id in s.claims.popped
    case Unclaim(id) => id in s.claims.popped
    case Release(id) => id in s.claims.handed
    case ReleaseKill(id, _) => id in s.claims.releasing
    case ListSpares(spares, _) => s.pass == Idle && ListedOnce(spares)
    case Probe(healthy, sick) => s.pass.Probing? && multiset(healthy) + multiset(sick) == multiset(s.pass.free)
    case Cull(_) => s.pass.Judged?
    case KillDoomed(_) => s.pass.Culling? && s.pass.doomed != []
    case MakePlan => s.pass.Culling? && s.pass.doomed == []
    case Build(restarted, created) =>
      && s.pass.Building?
      && (forall x :: x in restarted ==> x in s.pass.plan.start)
      && (forall x :: x in created ==> Brand(s, x))
    case KillSurplus => s.pass.Deleting? && s.pass.surplus != []
    case Publish(verified) =>
      s.pass.Deleting? && s.pass.surplus == [] && forall x :: x in verified ==> x in s.pass.built
    case AbortPass => s.pass != Idle
  }

  function ClaimApply(s: State, l: Label): State
    requires Enabled(s, l) && (l.TakePop? || l.Confirm? || l.Unclaim? || l.Release? || l.ReleaseKill?)
  {
    var pool, c := s.pool, s.claims;
    match l
    case TakePop(bound) =>
      var n := Skipped(pool.ready, bound, pool.claimed);
      if n == |pool.ready| then s.(pool := pool.(ready := []))
      else
        var id := pool.ready[n];
        s.(pool := pool.(ready := pool.ready[n + 1..], claimed := pool.claimed + {id}),
           claims := c.(popped := c.popped + {id}))
    case Confirm(id) => s.(claims := c.(popped := c.popped - {id}, handed := c.handed + {id}))
    case Unclaim(id) => s.(pool := pool.(claimed := pool.claimed - {id}), claims := c.(popped := c.popped - {id}))
    case Release(id) =>
      s.(pool := pool.(ready := WithoutId(pool.ready, id), sick := pool.sick - {id}),
         claims := c.(handed := c.handed - {id}, releasing := c.releasing + {id}))
    case ReleaseKill(id, ok) =>
      if !ok then s
      else s.(pool := pool.(claimed := pool.claimed - {id}), claims := c.(releasing := c.releasing - {id}))
  }

  function PassApply(s: State, l: Label): State
    requires Enabled(s, l) && !(l.TakePop? || l.Confirm? || l.Unclaim? || l.Release? || l.ReleaseKill?)
  {
    var pool, pass := s.pool, s.pass;
    match l
    case ListSpares(spares, bound) => s.(pass := Probing(spares, bound, FreeIds(spares, true, bound, pool.claimed)))
    case Probe(healthy, sick) => s.(pass := Judged(pass.spares, pass.bound, healthy, sick))
    case Cull(now) =>
      var since := Verdicts(pool.sick, pass.sick, now);
      s.(pool := pool.(sick := since),
         pass := Culling(pass.spares, pass.bound, pass.healthy, pass.sick, Doomed(since, pass.sick, now)))
    case KillDoomed(ok) =>
      s.(pool := if ok then pool.(sick := pool.sick - {pass.doomed[0]}) else pool,
         pass := pass.(doomed := pass.doomed[1..]))
    case MakePlan =>
      var known := NotSick(pass.spares, pass.sick);
      var plan := PlanReplenish(known, pass.bound, pool.claimed, s.target);
      s.(pass := Building(pass.bound, pass.healthy, pass.sick, plan, set x | x in plan.delete && x in pool.ready))
    case Build(restarted, created) =>
      s.(pass := Deleting(pass.bound, pass.healthy, pass.sick, restarted + created, pass.plan.delete, pass.exposed))
    case KillSurplus => s.(pass := pass.(surplus := pass.surplus[1..]))
    case Publish(verified) =>
      s.(pool := pool.(ready := Shelved(pass.healthy + verified, pass.bound, pool.claimed)), pass := Idle)
    case AbortPass => s.(pass := Idle)
  }

  /** The listing without the spares found sick. */
  function NotSick(spares: seq<Listed>, sick: seq<Id>): (r: seq<Listed>)
    ensures forall x :: x in r <==> x in spares && x.id !in sick
  {
    if spares == [] then [] else
      var n := |spares| - 1;
      assert forall x :: x in spares <==> x in spares[..n] || x == spares[n];
      NotSick(spares[..n], sick) + if spares[n].id in sick then [] else [spares[n]]
  }

  predicate IsClaim(l: Label) { l.TakePop? || l.Confirm? || l.Unclaim? || l.Release? || l.ReleaseKill? }

  function Apply(s: State, l: Label): State
    requires Enabled(s, l)
  {
    if IsClaim(l) then ClaimApply(s, l) else PassApply(s, l)
  }

  // ---- invariants --------------------------------------------------------------------------------

  /** The shelf is duplicate-free and apart from the claims, which are exactly the ids
      on their way to a bring-up, with one, or back from one. */
  predicate PoolInv(pool: Pool, c: Claims) {
    && NoDup(pool.ready)
    && (forall x :: x in pool.ready ==> x !in pool.claimed)
    && c.popped + c.handed + c.releasing == pool.claimed
    && c.popped !! c.handed && c.popped !! c.releasing && c.handed !! c.releasing
  }

  /** An id with a sick record of an earlier pass is off the shelf, and unclaimed if the
      pass found it free; a doomed id is both. */
  predicate SickInv(pool: Pool, pass: Pass) {
    match pass
    case Idle => forall x :: x in pool.sick ==> x !in pool.ready
    case Probing(_, _, free) =>
      && (forall x :: x in pool.sick ==> x !in pool.ready)
      && (forall x :: x in pool.sick && x in free ==> x !in pool.claimed)
    case Judged(_, _, _, sick) =>
      && (forall x :: x in pool.sick ==> x !in pool.ready)
      && (forall x :: x in pool.sick && x in sick ==> x !in pool.claimed)
    case Culling(_, _, _, sick, doomed) =>
      && (forall x :: x in pool.sick ==> x in sick)
      && (forall x :: x in doomed ==> x !in pool.ready && x !in pool.claimed)
    case Building(_, _, sick, _, _) => forall x :: x in pool.sick ==> x in sick
    case Deleting(_, _, sick, _, _, _) => forall x :: x in pool.sick ==> x in sick
  }

  predicate Apart(a: seq<Id>, b: seq<Id>) { forall x :: x in a ==> x !in b }

  predicate UpIn(spares: seq<Listed>, ids: seq<Id>) { forall x :: x in ids ==> Listed(x, true) in spares }

  /** What a pass will shelve or delete is apart from what it found sick. */
  predicate PassInv(pass: Pass) {
    match pass
    case Idle => true
    case Probing(spares, _, free) => ListedOnce(spares) && UpIn(spares, free) && NoDup(free)
    case Judged(spares, _, healthy, sick) => ListedOnce(spares) && UpIn(spares, sick) && Apart(healthy, sick)
    case Culling(spares, _, healthy, sick, _) => ListedOnce(spares) && UpIn(spares, sick) && Apart(healthy, sick)
    case Building(_, healthy, sick, plan, _) => Apart(healthy, sick) && Apart(plan.start, sick)
    case Deleting(_, healthy, sick, built, _, _) => Apart(healthy, sick) && Apart(built, sick)
  }

  /** A planned deletion that was not on the shelf when planned stays unclaimed. */
  predicate SurplusInv(pool: Pool, pass: Pass) {
    match pass
    case Building(_, _, _, plan, exposed) =>
      forall x :: x in plan.delete && x !in exposed ==> x !in pool.ready && x !in pool.claimed
    case Deleting(_, _, _, _, surplus, exposed) =>
      forall x :: x in surplus && x !in exposed ==> x !in pool.ready && x !in pool.claimed
    case _ => true
  }

  predicate Inv(s: State) {
    PoolInv(s.pool, s.claims) && SickInv(s.pool, s.pass) && PassInv(s.pass) && SurplusInv(s.pool, s.pass)
  }

  predicate Init(s: State) {
    s.pool == Pool({}, [], map[]) && s.claims == Claims({}, {}, {}) && s.pass == Idle
  }

  lemma ClaimKeeps(s: State, l: Label)
    requires Inv(s) && Enabled(s, l) && IsClaim(l)
    ensures Inv(Apply(s, l))
  {
  }

  lemma {:induction false} OnceInMultiset(ids: seq<Id>, x: Id)
    requires NoDup(ids)
    ensures multiset(ids)[x] <= 1
  {
    if ids != [] {
      var n := |ids| - 1;
      OnceInMultiset(ids[..n], x);
      assert ids == ids[..n] + [ids[n]];
      assert ids[n] !in ids[..n];
    }
  }

  /** A probe splits what it was given. */
  lemma ProbeSplits(free: seq<Id>, healthy: seq<Id>, sick: seq<Id>)
    requires NoDup(free) && multiset(healthy) + multiset(sick) == multiset(free)
    ensures Apart(healthy, sick) && forall x :: x in sick ==> x in free
  {
    forall x | x in sick
      ensures x in free && x !in healthy
    {
      assert x in multiset(sick) && x in multiset(free);
      OnceInMultiset(free, x);
      assert x in healthy ==> x in multiset(healthy);
    }
  }

  lemma PlanMembers(spares: seq<Listed>, sick: seq<Id>, bound: set<Id>, claimed: set<Id>, target: nat)
    ensures
      var plan := PlanReplenish(NotSick(spares, sick), bound, claimed, target);
      && Apart(plan.start, sick)
      && forall x :: x in plan.delete ==> x !in claimed
  {
    var known := NotSick(spares, sick);
    var plan := PlanReplenish(known, bound, claimed, target);
    var stopped := FreeIds(known, false, bound, claimed);
    assert forall x :: x in plan.start || x in plan.delete ==> x in stopped;
    forall x | x in plan.start ensures x !in sick {
      assert Listed(x, false) in known;
    }
  }

  lemma ProbeKeeps(s: State, l: Label)
    requires Inv(s) && Enabled(s, l) && (l.ListSpares? || l.Probe?)
    ensures Inv(Apply(s, l))
  {
    if l.Probe? {
      ProbeSplits(s.pass.free, l.healthy, l.sick);
    }
  }

  lemma CullKeeps(s: State, l: Label)
    requires Inv(s) && Enabled(s, l) && (l.Cull? || l.KillDoomed?)
    ensures Inv(Apply(s, l))
  {
    hide NoDup, ListedOnce, Apart, UpIn;
  }

  lemma BuildKeeps(s: State, l: Label)
    requires Inv(s) && Enabled(s, l) && (l.MakePlan? || l.Build? || l.KillSurplus? || l.Publish?)
    ensures Inv(Apply(s, l))
  {
    hide NoDup, ListedOnce, UpIn, PlanReplenish;
    if l.MakePlan? {
      PlanMembers(s.pass.spares, s.pass.sick, s.pass.bound, s.pool.claimed, s.target);
    }
  }

  lemma Keeps(s: State, l: Label)
    requires Inv(s) && Enabled(s, l) && !l.AbortPass?
    ensures Inv(Apply(s, l))
  {
    hide Inv, Enabled, Apply;
    if IsClaim(l) {
      ClaimKeeps(s, l);
    } else if l.ListSpares? || l.Probe? {
      ProbeKeeps(s, l);
    } else if l.Cull? || l.KillDoomed? {
      CullKeeps(s, l);
    } else {
      BuildKeeps(s, l);
    }
  }

  // ---- runs -------------------------------------------------------------------------------------------

  ghost predicate IsPath(trace: seq<State>, labels: seq<Label>) {
    && |trace| == |labels| + 1
    && forall i :: 0 <= i < |labels| ==> Enabled(trace[i], labels[i]) && trace[i + 1] == Apply(trace[i], labels[i])
  }

  ghost predicate IsRun(trace: seq<State>, labels: seq<Label>) { IsPath(trace, labels) && Init(trace[0]) }

  /** Every pass runs to its end. */
  ghost predicate Complete(labels: seq<Label>) { forall i :: 0 <= i < |labels| ==> !labels[i].AbortPass? }

  lemma {:induction false} PoolRunKeeps(trace: seq<State>, labels: seq<Label>, n: nat)
    requires IsRun(trace, labels) && n < |trace|
    ensures PoolInv(trace[n].pool, trace[n].claims)
  {
    hide Enabled, Apply, PoolInv;
    if n > 0 {
      PoolRunKeeps(trace, labels, n - 1);
      PoolStep(trace[n - 1], labels[n - 1]);
    } else {
      InitInv(trace[0]);
    }
  }

  lemma InitInv(s: State)
    requires Init(s)
    ensures PoolInv(s.pool, s.claims) && Inv(s)
  {
  }

  lemma PoolStep(s: State, l: Label)
    requires PoolInv(s.pool, s.claims) && Enabled(s, l)
    ensures PoolInv(Apply(s, l).pool, Apply(s, l).claims)
  {
    hide PlanReplenish, ListedOnce;
  }

  lemma {:induction false} RunKeeps(trace: seq<State>, labels: seq<Label>, n: nat)
    requires IsRun(trace, labels) && Complete(labels) && n < |trace|
    ensures Inv(trace[n])
  {
    hide Enabled, Apply, Inv;
    if n > 0 {
      RunKeeps(trace, labels, n - 1);
      Keeps(trace[n - 1], labels[n - 1]);
    } else {
      InitInv(trace[0]);
    }
  }

  /** Over any interleaving of claims, releases and passes, even aborted ones, the
      shelf is duplicate-free and holds no claimed id, and an id that a claim takes is
      neither on its way to another bring-up nor with one. */
  lemma SparesAreExclusive(trace: seq<State>, labels: seq<Label>, n: nat, x: Id)
    requires IsRun(trace, labels) && n < |labels|
    ensures NoDup(trace[n].pool.ready) && forall y :: y in trace[n].pool.ready ==> y !in trace[n].pool.claimed
    ensures
      x in trace[n + 1].claims.popped && x !in trace[n].claims.popped ==>
        x !in trace[n].pool.claimed && x !in trace[n].claims.handed && x !in trace[n].claims.releasing
        && x in trace[n].pool.ready && x !in trace[n + 1].pool.ready
  {
    hide NoDup;
    PoolRunKeeps(trace, labels, n);
    PoolRunKeeps(trace, labels, n + 1);
    assert Enabled(trace[n], labels[n]) && trace[n + 1] == Apply(trace[n], labels[n]);
    if x in trace[n + 1].claims.popped && x !in trace[n].claims.popped {
      OnlyPopPops(trace[n], labels[n], x);
    }
  }

  lemma OnlyPopPops(s: State, l: Label, x: Id)
    requires Enabled(s, l) && x in Apply(s, l).claims.popped && x !in s.claims.popped
    ensures x in s.pool.ready && x !in s.pool.claimed && x in Apply(s, l).pool.claimed
  {
  }

  /** When every pass runs to its end, a spare deleted as sick is not claimed, nor on the
      shelf where a claim could find it, at the moment of the kill; and no pass
      deletes more than its share. */
  lemma CulledSparesAreUnclaimed(trace: seq<State>, labels: seq<Label>, n: nat)
    requires IsRun(trace, labels) && Complete(labels) && n < |labels| && labels[n].KillDoomed?
    ensures trace[n].pass.Culling? && trace[n].pass.doomed != []
    ensures trace[n].pass.doomed[0] !in trace[n].pool.claimed && trace[n].pass.doomed[0] !in trace[n].pool.ready
  {
    hide Apply, NoDup, ListedOnce;
    RunKeeps(trace, labels, n);
    assert Enabled(trace[n], labels[n]);
  }

  /** A stopped spare deleted as surplus is claimed at most if it was still on the
      shelf when the plan was made. */
  lemma SurplusIsUnclaimedUnlessShelved(trace: seq<State>, labels: seq<Label>, n: nat)
    requires IsRun(trace, labels) && Complete(labels) && n < |labels| && labels[n].KillSurplus?
    ensures trace[n].pass.Deleting? && trace[n].pass.surplus != []
    ensures trace[n].pass.surplus[0] in trace[n].pool.claimed ==> trace[n].pass.surplus[0] in trace[n].pass.exposed
  {
    hide Apply, NoDup, ListedOnce;
    RunKeeps(trace, labels, n);
    assert Enabled(trace[n], labels[n]);
  }

  // ---- exactly when a pass kills only what nobody has ----------------------------------------------

  lemma {:induction false} PathKeeps(trace: seq<State>, labels: seq<Label>, n: nat)
    requires IsPath(trace, labels) && Complete(labels) && Inv(trace[0]) && n < |trace|
    ensures Inv(trace[n])
  {
    hide Enabled, Apply, Inv;
    if n > 0 {
      PathKeeps(trace, labels, n - 1);
      Keeps(trace[n - 1], labels[n - 1]);
    }
  }

  ghost predicate Ends(trace: seq<State>, labels: seq<Label>, s: State, t: State) {
    IsPath(trace, labels) && Complete(labels) && WithinPass(labels) && trace[0] == s && trace[|labels|] == t
  }

  ghost predicate WithinPass(labels: seq<Label>) { forall i :: 0 <= i < |labels| ==> !labels[i].Publish? }

  /** By steps that complete their passes, and that end none. */
  ghost predicate Reach(s: State, t: State) {
    exists trace, labels :: Ends(trace, labels, s, t)
  }

  lemma Here(s: State)
    ensures Reach(s, s)
  {
    assert Ends([s], [], s, s);
  }

  lemma On(s: State, t: State, l: Label)
    requires Reach(s, t) && Enabled(t, l) && !l.AbortPass? && !l.Publish?
    ensures Reach(s, Apply(t, l))
  {
    hide Enabled, Apply;
    var trace, labels :| Ends(trace, labels, s, t);
    var trace', labels' := trace + [Apply(t, l)], labels + [l];
    forall i | 0 <= i < |labels'|
      ensures Enabled(trace'[i], labels'[i]) && trace'[i + 1] == Apply(trace'[i], labels'[i])
      ensures !labels'[i].AbortPass? && !labels'[i].Publish?
    {
      if i < |labels| {
        assert trace'[i] == trace[i] && labels'[i] == labels[i] && trace'[i + 1] == trace[i + 1];
      }
    }
    assert Ends(trace', labels', s, Apply(t, l));
  }

  /** The next kill of the pass is of a spare that a bring-up has or is about to have. */
  predicate KillsSurplusInUse(s: State) {
    s.pass.Deleting? && s.pass.surplus != [] && s.pass.surplus[0] in s.pool.claimed
  }

  predicate CullsInUse(s: State) {
    s.pass.Culling? && s.pass.doomed != [] && s.pass.doomed[0] in s.pool.claimed
  }

  /** However claims and releases interleave with the rest of this pass, it deletes as
      surplus only what nobody has. */
  ghost predicate SurplusSafe(s: State) { forall t :: Reach(s, t) ==> !KillsSurplusInUse(t) }

  /** However claims, releases and complete passes go on, a pass deletes as sick only what
      nobody has. */
  ghost predicate CullSafe(s: State) {
    forall trace, labels, n: nat :: IsPath(trace, labels) && Complete(labels) && trace[0] == s && n < |trace| ==>
      !CullsInUse(trace[n])
  }

  /** Every id but `x`, so that a claim passes over them. */
  function Others(ids: seq<Id>, x: Id): set<Id> { set y | y in ids && y != x }

  lemma {:induction false} SkipsTo(ready: seq<Id>, claimed: set<Id>, x: Id)
    requires x in ready && x !in claimed
    ensures
      var n := Skipped(ready, Others(ready, x), claimed);
      n < |ready| && ready[n] == x
  {
    var n := Skipped(ready, Others(ready, x), claimed);
    var i :| 0 <= i < |ready| && ready[i] == x;
    assert Takeable(x, Others(ready, x), claimed);
  }

  /** A shelved spare is claimed and, the daemon in trouble or not, handed out. */
  lemma Handed(s: State, m: State, x: Id) returns (t: State)
    requires Reach(s, m) && x in m.pool.ready && x !in m.pool.claimed
    ensures Reach(s, t) && t.pass == m.pass && t.target == m.target && t.pool.sick == m.pool.sick
    ensures x in t.claims.handed && t.pool.claimed == m.pool.claimed + {x}
  {
    hide Reach;
    var bound := Others(m.pool.ready, x);
    SkipsTo(m.pool.ready, m.pool.claimed, x);
    On(s, m, TakePop(bound));
    t := Apply(m, TakePop(bound));
    On(s, t, Confirm(x));
    t := Apply(t, Confirm(x));
  }

  lemma {:induction false} KillsUpTo(s: State, m: State, k: nat) returns (t: State)
    requires Reach(s, m) && m.pass.Deleting? && k < |m.pass.surplus|
    ensures Reach(s, t) && t.pool == m.pool && t.pass == m.pass.(surplus := m.pass.surplus[k..])
    decreases k
  {
    hide Reach;
    if k == 0 {
      t := m;
    } else {
      On(s, m, KillSurplus);
      t := KillsUpTo(s, Apply(m, KillSurplus), k - 1);
    }
  }

  predicate Planned(s: State, x: Id) {
    if s.pass.Building? then x in s.pass.plan.delete else s.pass.Deleting? && x in s.pass.surplus
  }

  lemma InUseIsKilled(s: State, m: State, x: Id) returns (t: State)
    requires Reach(s, m) && Planned(m, x) && x in m.pool.claimed
    ensures Reach(s, t) && KillsSurplusInUse(t)
  {
    hide Reach;
    t := m;
    if t.pass.Building? {
      On(s, t, Build([], []));
      t := Apply(t, Build([], []));
    }
    var k :| 0 <= k < |t.pass.surplus| && t.pass.surplus[k] == x;
    t := KillsUpTo(s, t, k);
  }

  /** From the plan on: the rest of the pass deletes as surplus only what nobody has if and
      only if no planned deletion is on the shelf or already claimed. (None is claimed
      when the plan is made.) */
  lemma SurplusSafeExactly(s: State)
    requires Inv(s) && (s.pass.Building? || s.pass.Deleting?)
    ensures SurplusSafe(s) <==> forall x :: Planned(s, x) ==> x !in s.pool.ready && x !in s.pool.claimed
  {
    if x :| Planned(s, x) && (x in s.pool.ready || x in s.pool.claimed) {
      Here(s);
      var m := s;
      if x !in s.pool.claimed {
        m := Handed(s, s, x);
      }
      hide Inv, Reach;
      var t := InUseIsKilled(s, m, x);
    } else {
      forall t | Reach(s, t) ensures !KillsSurplusInUse(t) {
        var trace, labels :| Ends(trace, labels, s, t);
        hide Enabled, Apply, Inv;
        PlannedStayFree(trace, labels, |labels|);
      }
    }
  }

  ghost predicate PlannedFree(s: State) { forall x :: Planned(s, x) ==> x !in s.pool.ready && x !in s.pool.claimed }

  lemma {:induction false} PlannedStayFree(trace: seq<State>, labels: seq<Label>, n: nat)
    requires IsPath(trace, labels) && Complete(labels) && n < |trace|
    requires trace[0].pass.Building? || trace[0].pass.Deleting?
    requires PlannedFree(trace[0]) && WithinPass(labels)
    ensures (trace[n].pass.Building? || trace[n].pass.Deleting?) && PlannedFree(trace[n])
  {
    hide Enabled, Apply, PlannedFree;
    if n > 0 {
      PlannedStayFree(trace, labels, n - 1);
      PlannedFreeStep(trace[n - 1], labels[n - 1]);
    }
  }

  /** Claims and releases put nothing on the shelf, and claim only from it. */
  lemma ClaimTakesFromShelf(s: State, l: Label, x: Id)
    requires Enabled(s, l) && IsClaim(l) && x !in s.pool.ready && x !in s.pool.claimed
    ensures x !in Apply(s, l).pool.ready && x !in Apply(s, l).pool.claimed && Apply(s, l).pass == s.pass
  {
    if l.TakePop? {
      var n := Skipped(s.pool.ready, l.bound, s.pool.claimed);
      assert n < |s.pool.ready| ==> s.pool.ready[n] in s.pool.ready;
      assert forall y :: n < |s.pool.ready| && y in s.pool.ready[n + 1..] ==> y in s.pool.ready;
    }
  }

  lemma PassPlansNoMore(s: State, l: Label, x: Id)
    requires Enabled(s, l) && !IsClaim(l) && !l.AbortPass? && !l.Publish? && (s.pass.Building? || s.pass.Deleting?)
    ensures Apply(s, l).pass.Deleting? && Apply(s, l).pool == s.pool && (Planned(Apply(s, l), x) ==> Planned(s, x))
  {
    assert l.Build? || l.KillSurplus?;
  }

  lemma PlannedFreeStep(s: State, l: Label)
    requires Enabled(s, l) && !l.AbortPass? && !l.Publish? && PlannedFree(s) && (s.pass.Building? || s.pass.Deleting?)
    ensures (Apply(s, l).pass.Building? || Apply(s, l).pass.Deleting?) && PlannedFree(Apply(s, l))
  {
    var s' := Apply(s, l);
    assert s'.pass.Building? || s'.pass.Deleting? by { PassOnly(s, l); }
    hide Enabled, Apply;
    forall x | Planned(s', x) ensures x !in s'.pool.ready && x !in s'.pool.claimed {
      if IsClaim(l) {
        assert s'.pass == s.pass by { PassOnly(s, l); }
        ClaimTakesFromShelf(s, l, x);
      } else {
        PassPlansNoMore(s, l, x);
      }
    }
  }

  lemma PassOnly(s: State, l: Label)
    requires Enabled(s, l) && !l.AbortPass? && !l.Publish? && (s.pass.Building? || s.pass.Deleting?)
    ensures IsClaim(l) ==> Apply(s, l).pass == s.pass
    ensures Apply(s, l).pass.Building? || Apply(s, l).pass.Deleting?
  {
  }

  /** When the plan has just been made, it comes down to the shelf. */
  lemma FreshPlanSafeExactly(s: State)
    requires Inv(s) && Enabled(s, MakePlan)
    ensures
      var t := Apply(s, MakePlan);
      SurplusSafe(t) <==> forall x :: x in t.pass.plan.delete ==> x !in s.pool.ready
  {
    var t := Apply(s, MakePlan);
    PlanMembers(s.pass.spares, s.pass.sick, s.pass.bound, s.pool.claimed, s.target);
    Keeps(s, MakePlan);
    hide Inv, SurplusSafe;
    SurplusSafeExactly(t);
  }

  /** Between passes: every complete continuation deletes as sick only what nobody has if
      and only if no id is both in the sick record and on the shelf. */
  lemma CullSafeExactly(s: State)
    requires PoolInv(s.pool, s.claims) && s.pass == Idle
    ensures CullSafe(s) <==> forall x :: x in s.pool.sick ==> x !in s.pool.ready
  {
    if x :| x in s.pool.sick && x in s.pool.ready {
      CullInUse(s, x);
    } else {
      assert Inv(s);
      forall trace, labels, n: nat | IsPath(trace, labels) && Complete(labels) && trace[0] == s && n < |trace|
        ensures !CullsInUse(trace[n])
      {
        hide Enabled, Apply;
        PathKeeps(trace, labels, n);
      }
    }
  }

  /** The shelved sick spare is handed out during the next pass, which deletes it. */
  lemma CullInUse(s: State, x: Id)
    requires PoolInv(s.pool, s.claims) && s.pass == Idle && x in s.pool.sick && x in s.pool.ready
    ensures !CullSafe(s)
  {
    Here(s);
    assert x !in s.pool.claimed;
    var t := ListsOne(s, x);
    hide Reach, CullSafe, PoolInv, Apply, Enabled;
    t := Handed(s, t, x);
    t := FoundSick(s, t, x);
    t := OverdueCull(s, t, x);
    ReachBreaksCull(s, t);
  }

  lemma ListsOne(s: State, x: Id) returns (t: State)
    requires Reach(s, s) && x !in s.pool.claimed && s.pass == Idle
    ensures Reach(s, t) && t == s.(pass := Probing([Listed(x, true)], {}, [x]))
  {
    hide Reach, FreeIds, PlanReplenish, Shelved, NotSick, Skipped, WithoutId;
    FreeOneOf(x, {}, s.pool.claimed);
    var l := ListSpares([Listed(x, true)], {});
    On(s, s, l);
    t := Apply(s, l);
  }

  lemma FoundSick(s: State, m: State, x: Id) returns (t: State)
    requires Reach(s, m) && m.pass.Probing? && m.pass.free == [x]
    ensures Reach(s, t) && t.pool == m.pool && t.pass.Judged? && t.pass.sick == [x]
  {
    hide Reach;
    On(s, m, Probe([], [x]));
    t := Apply(m, Probe([], [x]));
  }

  lemma FreeOneOf(x: Id, bound: set<Id>, claimed: set<Id>)
    requires Takeable(x, bound, claimed)
    ensures FreeIds([Listed(x, true)], true, bound, claimed) == [x]
  {
    var one := [Listed(x, true)];
    assert one[..0] == [];
  }

  lemma OverdueCull(s: State, m: State, x: Id) returns (t: State)
    requires Reach(s, m) && m.pass.Judged? && m.pass.sick == [x] && x in m.pool.sick
    ensures Reach(s, t) && t.pool.claimed == m.pool.claimed && t.pass.Culling? && t.pass.doomed == [x]
  {
    hide Reach;
    var now := m.pool.sick[x] + SPARE_SICK_GRACE;
    On(s, m, Cull(now));
    t := Apply(m, Cull(now));
    var since := Verdicts(m.pool.sick, [x], now);
    assert AllDoomed(since, [x], now) == [x] by { assert [x][..0] == []; }
  }

  lemma ReachBreaksCull(s: State, t: State)
    requires Reach(s, t) && CullsInUse(t)
    ensures !CullSafe(s)
  {
    hide Enabled, Apply;
    var trace, labels :| Ends(trace, labels, s, t);
  }

  // ---- and what does not hold ------------------------------------------------------------------------

  lemma Extend(trace: seq<State>, labels: seq<Label>, l: Label)
    returns (trace': seq<State>, labels': seq<Label>)
    requires IsRun(trace, labels) && Enabled(trace[|labels|], l)
    ensures IsRun(trace', labels') && trace' == trace + [Apply(trace[|labels|], l)] && labels' == labels + [l]
  {
    hide Enabled, Apply, Init;
    trace', labels' := ExtendPath(trace, labels, l);
  }

  lemma FreeOne(x: Id, up: bool)
    ensures FreeIds([Listed(x, up)], up, {}, {}) == [x] && FreeIds([Listed(x, up)], !up, {}, {}) == []
    ensures NotSick([Listed(x, up)], []) == [Listed(x, up)] && NotSick([Listed(x, up)], [x]) == []
  {
    var one := [Listed(x, up)];
    assert one[..0] == [];
  }

  /** One complete pass over one healthy spare shelves it. */
  lemma ShelfOfOne(s: State, x: Id) returns (trace: seq<State>, labels: seq<Label>)
    requires Init(s) && s.target == 1
    ensures IsRun(trace, labels) && Complete(labels)
    ensures trace[|labels|] == s.(pool := Pool({}, [x], map[]))
  {
    hide PlanReplenish, Shelved, NotSick;
    FreeOne(x, true);
    var spares := [Listed(x, true)];
    trace, labels := [s], [];
    trace, labels := Extend(trace, labels, ListSpares(spares, {}));
    trace, labels := Extend(trace, labels, Probe([x], []));
    trace, labels := Extend(trace, labels, Cull(0));
    assert trace[|labels|] == s.(pass := Culling(spares, {}, [x], [], []));
    trace, labels := ShelfOfOneEnds(trace, labels, s, x);
  }

  lemma ShelfOfOneEnds(trace0: seq<State>, labels0: seq<Label>, s: State, x: Id)
    returns (trace: seq<State>, labels: seq<Label>)
    requires IsRun(trace0, labels0) && Complete(labels0) && Init(s) && s.target == 1
    requires trace0[|labels0|] == s.(pass := Culling([Listed(x, true)], {}, [x], [], []))
    ensures IsRun(trace, labels) && Complete(labels)
    ensures trace[|labels|] == s.(pool := Pool({}, [x], map[]))
  {
    hide Shelved, NotSick;
    FreeOne(x, true);
    trace, labels := trace0, labels0;
    trace, labels := Extend(trace, labels, MakePlan);
    trace, labels := Extend(trace, labels, Build([], []));
    trace, labels := Extend(trace, labels, Publish([]));
    ShelvesOne(x);
  }

  lemma ShelvesOne(x: Id)
    ensures Shelved([x] + [], {}, {}) == [x]
  {
    assert [x] + [] == [x] && [x][..0] == [];
  }

  /** From every state between passes with a spare on the shelf: a pass that finds it sick
      and dies before publishing leaves it on the shelf, and some complete continuation
      then deletes it while a bring-up has it. */
  lemma AbortedPassBreaksCulling(s: State, x: Id) returns (trace: seq<State>, labels: seq<Label>)
    requires PoolInv(s.pool, s.claims) && s.pass == Idle && x in s.pool.ready
    ensures IsPath(trace, labels) && trace[0] == s && |labels| == 4 && labels[3] == AbortPass
    ensures !CullSafe(trace[4])
  {
    hide CullSafe;
    var s2 := s.(pass := Judged([Listed(x, true)], {}, [], [x]));
    trace, labels := FindsItSick(s, x);
    hide PoolInv;
    trace, labels := ExtendPath(trace, labels, Cull(0));
    var s3 := SickRecorded(s2, x);
    trace, labels := ExtendPath(trace, labels, AbortPass);
    hide Enabled;
    assert trace[4] == s3.(pass := Idle);
    CullSafeExactly(trace[4]);
  }

  lemma FindsItSick(s: State, x: Id) returns (trace: seq<State>, labels: seq<Label>)
    requires PoolInv(s.pool, s.claims) && s.pass == Idle && x in s.pool.ready
    ensures IsPath(trace, labels) && |labels| == 2
    ensures trace[0] == s && trace[2] == s.(pass := Judged([Listed(x, true)], {}, [], [x]))
  {
    FreeOneOf(x, {}, s.pool.claimed);
    hide FreeIds, PlanReplenish, Shelved, NotSick;
    trace, labels := [s], [];
    trace, labels := ExtendPath(trace, labels, ListSpares([Listed(x, true)], {}));
    trace, labels := ExtendPath(trace, labels, Probe([], [x]));
  }

  lemma ExtendPath(trace: seq<State>, labels: seq<Label>, l: Label)
    returns (trace': seq<State>, labels': seq<Label>)
    requires IsPath(trace, labels) && Enabled(trace[|labels|], l)
    ensures IsPath(trace', labels') && trace' == trace + [Apply(trace[|labels|], l)] && labels' == labels + [l]
  {
    hide Enabled, Apply;
    trace', labels' := trace + [Apply(trace[|labels|], l)], labels + [l];
    forall i | 0 <= i < |labels'|
      ensures Enabled(trace'[i], labels'[i]) && trace'[i + 1] == Apply(trace'[i], labels'[i])
    {
      if i < |labels| {
        assert trace'[i] == trace[i] && labels'[i] == labels[i] && trace'[i + 1] == trace[i + 1];
      }
    }
  }

  lemma SickRecorded(m: State, x: Id) returns (t: State)
    requires m.pass.Judged? && m.pass.sick == [x]
    ensures Enabled(m, Cull(0)) && t == Apply(m, Cull(0)) && t.pass.Culling?
    ensures t == m.(pool := m.pool.(sick := t.pool.sick), pass := t.pass) && x in t.pool.sick
  {
    t := Apply(m, Cull(0));
  }

  lemma TwoSpares(x: Id, y: Id)
    requires x != y
    ensures
      var spares := [Listed(x, false), Listed(y, true)];
      && FreeIds(spares, true, {}, {}) == [y] && FreeIds(spares, false, {}, {}) == [x]
      && NotSick(spares, []) == spares
  {
    var spares := [Listed(x, false), Listed(y, true)];
    assert spares[..1] == [Listed(x, false)];
    FreeOne(x, false);
  }

  /** A shelved spare has stopped and a pass plans to delete it as surplus. Before the
      kill a bring-up pops it, the daemon fails to answer for it, and it is claimed
      anyway: the pass deletes a spare that a bring-up has. */
  lemma SurplusKillsAClaimedSpare(s: State, x: Id, y: Id) returns (trace: seq<State>, labels: seq<Label>)
    requires Init(s) && s.target == 1 && x != y
    ensures IsRun(trace, labels) && Complete(labels) && |labels| > 0 && labels[|labels| - 1] == KillSurplus
    ensures
      var before := trace[|labels| - 1];
      before.pass.Deleting? && before.pass.surplus == [x] && x in before.claims.handed
  {
    trace, labels := ShelfOfOne(s, x);
    trace, labels := SurplusPlanned(trace, labels, s, x, y);
    hide Init, PlanReplenish, FreeIds;
    trace, labels := Extend(trace, labels, TakePop({}));
    trace, labels := Extend(trace, labels, Confirm(x));
    trace, labels := Extend(trace, labels, Build([], []));
    trace, labels := Extend(trace, labels, KillSurplus);
  }

  lemma SurplusPlanned(trace0: seq<State>, labels0: seq<Label>, s: State, x: Id, y: Id)
    returns (trace: seq<State>, labels: seq<Label>)
    requires IsRun(trace0, labels0) && Complete(labels0) && Init(s) && s.target == 1 && x != y
    requires trace0[|labels0|] == s.(pool := Pool({}, [x], map[]))
    ensures IsRun(trace, labels) && Complete(labels)
    ensures
      var m := trace[|labels|];
      && m.pool == Pool({}, [x], map[]) && m.claims == Claims({}, {}, {})
      && m.pass.Building? && m.pass.plan == Plan([], 0, [x])
  {
    hide NotSick, FreeIds;
    TwoSpares(x, y);
    trace, labels := trace0, labels0;
    trace, labels := Extend(trace, labels, ListSpares([Listed(x, false), Listed(y, true)], {}));
    trace, labels := Extend(trace, labels, Probe([y], []));
    trace, labels := Extend(trace, labels, Cull(0));
    trace, labels := Extend(trace, labels, MakePlan);
  }
}
