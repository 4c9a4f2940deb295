/**
 * What the storage ladder may take the registry for. To one schema the store of
 * module Store looks like the ledger of module Offload: a list of tiers from the one in
 * the file on, to which tiers are added at the end, which loses its front when a later
 * one reaches the file, and of which a crash leaves the first.
 */
module StoreLedger {
  import opened RegistryText
  import opened Store
  import Offload

  /** The steps such a list makes. */
  ghost predicate ViewStep(v: seq<Tier>, v': seq<Tier>) {
    || v' == v
    || (exists t :: v' == v + [t])
    || (exists k :: 0 < k < |v| && v' == v[k..])
    || (v != [] && v' == v[..1])
  }

  // ---- the ladder's ledger ---------------------------------------------------------------

  function LadderView(ledger: Offload.Ledger): seq<Tier>
    requires ledger.landed < |ledger.log|
  {
    var n := |ledger.log| - ledger.landed;
    seq(n, i requires 0 <= i < n => ledger.log[ledger.landed + i].tier)
  }

  lemma LadderStep(s: Offload.State, l: Offload.Label)
    requires s.ledger.landed < |s.ledger.log| && Offload.Enabled(s, l)
    ensures Offload.Apply(s, l).ledger.landed < |Offload.Apply(s, l).ledger.log|
    ensures ViewStep(LadderView(s.ledger), LadderView(Offload.Apply(s, l).ledger))
  {
    LadderMoves(s, l);
    hide Offload.Enabled, Offload.Apply;
    var ledger, ledger' := s.ledger, Offload.Apply(s, l).ledger;
    var v, v' := LadderView(ledger), LadderView(ledger');
    if ledger'.log == ledger.log {
      assert v' == v[ledger'.landed - ledger.landed..];
    } else if l.Crash? {
      assert v' == v[..1];
    } else {
      assert v' == v + [ledger'.log[|ledger.log|].tier];
    }
  }

  lemma LadderMoves(s: Offload.State, l: Offload.Label)
    requires s.ledger.landed < |s.ledger.log| && Offload.Enabled(s, l)
    ensures
      var ledger, ledger' := s.ledger, Offload.Apply(s, l).ledger;
      || (ledger'.log == ledger.log && ledger.landed <= ledger'.landed < |ledger.log|)
      || (l.Crash? && ledger'.log == [ledger.log[ledger.landed]] && ledger'.landed == 0)
      || (!l.Crash? && ledger'.landed == ledger.landed && exists m :: ledger'.log == ledger.log + [m])
  {
  }

  // ---- the store, to one schema ------------------------------------------------------------

  /** The schema has a row in the file. */
  ghost predicate OnFile(h: History, schema: string) {
    h.durable <= |h.log| && TiersGiven(h.init, h.log[..h.durable], schema) != []
  }

  /** Its tiers from the one in the file on. */
  ghost function StoreView(h: History, schema: string): (v: seq<Tier>)
    requires OnFile(h, schema)
    ensures v != []
  {
    GivenPrefix(h.init, h.log, h.durable, schema);
    TiersGiven(h.init, h.log, schema)[|TiersGiven(h.init, h.log[..h.durable], schema)| - 1..]
  }

  datatype Change = Nothing | Added(mu: Mutation) | Reached | Lost

  /** What a step does to what is remembered of the map. */
  ghost predicate Does(h: History, h': History, c: Change) {
    && h.durable <= |h.log| && h'.durable <= |h'.log| && h'.init == h.init
    && match c
       case Nothing => h'.log == h.log && h'.durable == h.durable
       case Added(mu) => h'.log == h.log + [mu] && h'.durable == h.durable
       case Reached => h'.log == h.log && h'.durable >= h.durable
       case Lost => h'.log == h.log[..h.durable] && h'.durable == h.durable
  }

  lemma ChangeOf(s: State, l: Label) returns (c: Change)
    requires Inv(s) && Enabled(s, l) && s.h.rewritten
    ensures Does(s.h, Apply(s, l).h, c)
  {
    hide Parse, Written, Mutate, Ids, Adopted, Enumerates, Clean, MemInv, LogInv, TaskInv, ThreadInv, LockInv, CacheInv;
    hide Denotes, KeptInv;
    var h' := Apply(s, l).h;
    c := if l.Crash? then Lost
         else if l.WriteDone? then Reached
         else if h'.log == s.h.log then Nothing
         else Added(h'.log[|s.h.log|]);
  }

  lemma ChangeIsAStep(h: History, h': History, c: Change, schema: string)
    requires OnFile(h, schema) && Does(h, h', c)
    ensures OnFile(h', schema) && ViewStep(StoreView(h, schema), StoreView(h', schema))
  {
    hide TiersGiven;
    var given, was := TiersGiven(h.init, h.log, schema), TiersGiven(h.init, h.log[..h.durable], schema);
    GivenPrefix(h.init, h.log, h.durable, schema);
    match c
    case Nothing =>
    case Added(mu) =>
      assert (h.log + [mu])[..h.durable] == h.log[..h.durable];
      GivenMore(h.init, h.log, mu, schema);
      var given' := TiersGiven(h.init, h'.log, schema);
      if given' != given {
        var t := given'[|given|];
        assert StoreView(h', schema) == StoreView(h, schema) + [t];
      }
    case Reached =>
      assert h.log[..h'.durable][..h.durable] == h.log[..h.durable];
      GivenPrefix(h.init, h.log[..h'.durable], h.durable, schema);
      GivenPrefix(h.init, h.log, h'.durable, schema);
      var k := |TiersGiven(h.init, h.log[..h'.durable], schema)| - |was|;
      assert StoreView(h', schema) == StoreView(h, schema)[k..];
    case Lost =>
      assert h'.log[..h.durable] == h'.log;
      assert StoreView(h', schema) == StoreView(h, schema)[..1];
  }

  lemma GivenMore(init: Registry, log: seq<Mutation>, mu: Mutation, schema: string)
    ensures
      var given, given' := TiersGiven(init, log, schema), TiersGiven(init, log + [mu], schema);
      given' == given || exists t :: given' == given + [t]
  {
    assert (log + [mu])[..|log|] == log;
  }

  /** Every step of every run of the store is, to a schema with a row in the written file,
      a step of such a list. */
  lemma StoreIsALedger(trace: seq<State>, labels: seq<Label>, n: nat, schema: string)
    requires IsRun(trace, labels) && n < |labels| && trace[n].h.rewritten && OnFile(trace[n].h, schema)
    ensures OnFile(trace[n + 1].h, schema)
    ensures ViewStep(StoreView(trace[n].h, schema), StoreView(trace[n + 1].h, schema))
  {
    hide Inv, Enabled, Apply, Init, OnFile, ViewStep, StoreView, Does;
    RunKeeps(trace, labels, n);
    var c := ChangeOf(trace[n], labels[n]);
    ChangeIsAStep(trace[n].h, trace[n + 1].h, c, schema);
  }

  /** The first of the list is the tier that a load of the file gives. */
  lemma FirstIsDurable(trace: seq<State>, labels: seq<Label>, n: nat, schema: string, now: nat)
    requires IsRun(trace, labels) && n < |trace| && trace[n].h.rewritten && OnFile(trace[n].h, schema)
    ensures
      var file := Parse(trace[n].disk.text, now);
      schema in file && file[schema].tier == StoreView(trace[n].h, schema)[0]
  {
    hide Enabled, Apply, Init, TiersGiven, Parse;
    FileTierIsAGivenOne(trace, labels, n, schema, now);
    GivenPrefix(trace[n].h.init, trace[n].h.log, trace[n].h.durable, schema);
  }

  /** What an operation waits for before it destroys anything: once `set_tier` has returned
      with its snapshot or a newer one written, the tier it gave is never again behind the
      first of the list. */
  lemma ReturnedHasLanded(trace: seq<State>, labels: seq<Label>, i: nat, n: nat)
    requires IsRun(trace, labels) && i < |labels| && labels[i].Return? && i <= n < |trace|
    requires
      && labels[i].thread in trace[i].threads && trace[i].threads[labels[i].thread].Awaiting?
      && var th := trace[i].threads[labels[i].thread];
         th.generation <= trace[i].disk.newest && !th.what.Bump?
    ensures
      var th, h := trace[i].threads[labels[i].thread], trace[n].h;
      && Durable(trace[n], th.at, th.what) && OnFile(h, th.what.schema)
      && |TiersGiven(h.init, h.log[..th.at + 1], th.what.schema)|
         <= |TiersGiven(h.init, h.log[..h.durable], th.what.schema)|
  {
    hide Enabled, Apply, Init, Inv;
    var th, h := trace[i].threads[labels[i].thread], trace[n].h;
    RunKeeps(trace, labels, i);
    InFileExactly(trace[i], labels[i].thread);
    StaysDurable(trace, labels, i, n, th.at, th.what);
    var p, log := th.at, h.log[..h.durable];
    assert log[..p + 1] == h.log[..p + 1] && h.log[..p + 1][..p] == h.log[..p];
    GivenPrefix(h.init, log, p + 1, th.what.schema);
    assert TiersGiven(h.init, h.log[..p + 1], th.what.schema) != [];
  }
}
