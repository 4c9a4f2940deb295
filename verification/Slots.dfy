/**
 * Client slots and the idle reaper (src/registry.rs, `ConnGuard`, `checkout`,
 * `is_idle`, `jittered_timeout`, `reap_idle`). Time is real-valued.
 */
module Slots {
  import opened Text

  const IDLE_MAX_STOPS_PER_PASS: nat := 24

  /** The schema's own timeout: the configured one, spread by the schema's hash. */
  function JitteredTimeout(hash: nat, timeout: real): real {
    var unit := (hash % 1000) as real / 1000.0;
    timeout * (0.85 + 0.30 * unit)
  }

  lemma JitterBounds(hash: nat, timeout: real)
    requires timeout >= 0.0
    ensures 0.85 * timeout <= JitteredTimeout(hash, timeout)
    ensures timeout > 0.0 ==> JitteredTimeout(hash, timeout) < 1.15 * timeout
  {
    var unit := (hash % 1000) as real / 1000.0;
    assert 0.0 <= unit < 1.0;
    assert 0.0 <= timeout * (0.30 * unit);
    if timeout > 0.0 {
      assert timeout * (0.30 * unit) < timeout * 0.30;
    }
    assert timeout * (0.85 + 0.30 * unit) == timeout * 0.85 + timeout * (0.30 * unit);
  }

  /** The spread is over the whole range: the timeout starts at 0.85 of the configured one and
      grows with every thousandth of the hash. */
  lemma JitterSpreads(hash: nat, hash': nat, timeout: real)
    requires timeout > 0.0
    ensures hash % 1000 == 0 ==> JitteredTimeout(hash, timeout) == 0.85 * timeout
    ensures hash % 1000 == 999 ==> JitteredTimeout(hash, timeout) == 1.1497 * timeout
    ensures hash % 1000 < hash' % 1000 <==> JitteredTimeout(hash, timeout) < JitteredTimeout(hash', timeout)
  {
    var u, u' := (hash % 1000) as real / 1000.0, (hash' % 1000) as real / 1000.0;
    Scaled(timeout, 0.85 + 0.30 * u, 0.85 + 0.30 * u');
  }

  lemma Scaled(t: real, x: real, y: real)
    requires t > 0.0
    ensures x < y <==> t * x < t * y
  {
    if x < y {
      assert t * (y - x) > 0.0;
    } else if x > y {
      assert t * (x - y) > 0.0;
    }
  }

  // ---- one warm entry: its slots, its guards, the reaper ----------------------------------

  /** A client on its way in or out of an entry. */
  datatype Client =
    | Claimed(at: real)    // touched the entry under the map lock; waits for a slot
    | Admitted(at: real)   // has a slot, not counted
    | Counted              // counted, has yet to touch
    | Guarded              // a live guard
    | Uncounted            // the guard is dropped: no longer counted, has yet to touch
    | Parting              // has touched, has yet to give the slot back

  predicate HasSlot(c: Client) { !c.Claimed? }

  predicate IsCounted(c: Client) { c.Counted? || c.Guarded? }

  predicate OnItsWay(c: Client) { c.Claimed? || c.Admitted? }

  datatype Reaping = NotReaping | Holding | SawNone(at: real) | Evicted

  datatype State = State(
    now: real,
    free: nat,
    active: nat,
    lastActive: real,
    clients: map<nat, Client>,
    reaper: Reaping)

  /** The entry's slots, whether it is pinned, and the timeout with its jitter. */
  datatype Config = Config(limit: nat, keepalive: bool, timeout: real, hash: nat)

  datatype Label =
    | Tick(d: real)
    | Touch(c: nat)
    | Admit(c: nat)
    | GiveUp(c: nat)
    | Count(c: nat)
    | TouchIn(c: nat)
    | Uncount(c: nat)
    | TouchOut(c: nat)
    | FreeSlot(c: nat)
    | LockMap
    | ReadActive
    | ReadIdle
    | UnlockMap

  predicate IsAt(s: State, c: nat, p: Client) { c in s.clients && s.clients[c] == p }

  predicate Enabled(cfg: Config, s: State, l: Label) {
    match l
    case Tick(d) => d >= 0.0
    case Touch(c) => s.reaper == NotReaping && c !in s.clients
    case Admit(c) => c in s.clients && s.clients[c].Claimed? && s.free > 0
    case GiveUp(c) => c in s.clients && s.clients[c].Claimed?
    case Count(c) => c in s.clients && s.clients[c].Admitted?
    case TouchIn(c) => IsAt(s, c, Counted)
    case Uncount(c) => IsAt(s, c, Guarded) && s.active > 0
    case TouchOut(c) => IsAt(s, c, Uncounted)
    case FreeSlot(c) => IsAt(s, c, Parting)
    case LockMap => s.reaper == NotReaping
    case ReadActive => s.reaper == Holding && !cfg.keepalive && s.active == 0
    case ReadIdle => s.reaper.SawNone? && s.now - s.lastActive >= JitteredTimeout(cfg.hash, cfg.timeout)
    case UnlockMap => s.reaper == Holding || s.reaper.SawNone?
  }

  function With(s: State, c: nat, p: Client): State { s.(clients := s.clients[c := p]) }

  function Without(s: State, c: nat): State { s.(clients := s.clients - {c}) }

  function Apply(cfg: Config, s: State, l: Label): State
    requires Enabled(cfg, s, l)
  {
    match l
    case Tick(d) => s.(now := s.now + d)
    case Touch(c) => With(s, c, Claimed(s.now)).(lastActive := s.now)
    case Admit(c) => With(s, c, Admitted(s.clients[c].at)).(free := s.free - 1)
    case GiveUp(c) => Without(s, c)
    case Count(c) => With(s, c, Counted).(active := s.active + 1)
    case TouchIn(c) => With(s, c, Guarded).(lastActive := s.now)
    case Uncount(c) => With(s, c, Uncounted).(active := s.active - 1)
    case TouchOut(c) => With(s, c, Parting).(lastActive := s.now)
    case FreeSlot(c) => Without(s, c).(free := s.free + 1)
    case LockMap => s.(reaper := Holding)
    case ReadActive => s.(reaper := SawNone(s.now))
    case ReadIdle => s.(reaper := Evicted)
    case UnlockMap => s.(reaper := NotReaping)
  }

  function SlotHolders(clients: map<nat, Client>): set<nat> { set c | c in clients && HasSlot(clients[c]) }

  function CountedClients(clients: map<nat, Client>): set<nat> { set c | c in clients && IsCounted(clients[c]) }

  predicate SlotInv(limit: nat, s: State) {
    && s.free + |SlotHolders(s.clients)| == limit
    && s.active == |CountedClients(s.clients)|
  }

  predicate Init(cfg: Config, s: State) {
    s.free == cfg.limit && s.active == 0 && s.lastActive <= s.now && s.clients == map[] && s.reaper == NotReaping
  }

  ghost predicate IsRun(cfg: Config, trace: seq<State>, labels: seq<Label>) {
    && |trace| == |labels| + 1 && Init(cfg, trace[0])
    && forall i :: 0 <= i < |labels| ==>
         Enabled(cfg, trace[i], labels[i]) && trace[i + 1] == Apply(cfg, trace[i], labels[i])
  }

  lemma SetsMoved(clients: map<nat, Client>, c: nat, p: Client)
    ensures
      SlotHolders(clients[c := p]) == SlotHolders(clients) - {c} + (if HasSlot(p) then {c} else {})
    ensures
      CountedClients(clients[c := p]) == CountedClients(clients) - {c} + (if IsCounted(p) then {c} else {})
  {
  }

  lemma SetsDropped(clients: map<nat, Client>, c: nat)
    ensures
      var clients' := clients - {c};
      SlotHolders(clients') == SlotHolders(clients) - {c} && CountedClients(clients') == CountedClients(clients) - {c}
  {
  }

  lemma Size(s: set<nat>, c: nat)
    ensures |s - {c}| == if c in s then |s| - 1 else |s|
    ensures |s - {c} + {c}| == if c in s then |s| else |s| + 1
    ensures s - {c} + {} == s - {c}
  {
    if c in s {
      assert s - {c} + {c} == s;
    } else {
      assert s - {c} == s;
    }
  }

  function One(b: bool): nat { if b then 1 else 0 }

  function SlotOf(clients: map<nat, Client>, c: nat): nat { One(c in clients && HasSlot(clients[c])) }

  function CountOf(clients: map<nat, Client>, c: nat): nat { One(c in clients && IsCounted(clients[c])) }

  lemma SizesMoved(clients: map<nat, Client>, c: nat, p: Client)
    ensures |SlotHolders(clients[c := p])| + SlotOf(clients, c) == |SlotHolders(clients)| + One(HasSlot(p))
    ensures |CountedClients(clients[c := p])| + CountOf(clients, c) == |CountedClients(clients)| + One(IsCounted(p))
  {
    SetsMoved(clients, c, p);
    Size(SlotHolders(clients), c);
    Size(CountedClients(clients), c);
  }

  lemma SizesDropped(clients: map<nat, Client>, c: nat)
    ensures
      var clients' := clients - {c};
      && |SlotHolders(clients')| + SlotOf(clients, c) == |SlotHolders(clients)|
      && |CountedClients(clients')| + CountOf(clients, c) == |CountedClients(clients)|
  {
    SetsDropped(clients, c);
    Size(SlotHolders(clients), c);
    Size(CountedClients(clients), c);
  }

  lemma SlotStep(cfg: Config, s: State, l: Label)
    requires SlotInv(cfg.limit, s) && Enabled(cfg, s, l)
    ensures SlotInv(cfg.limit, Apply(cfg, s, l))
  {
    hide SlotHolders, CountedClients;
    if l.GiveUp? || l.FreeSlot? {
      SizesDropped(s.clients, l.c);
    } else if !(l.Tick? || l.LockMap? || l.ReadActive? || l.ReadIdle? || l.UnlockMap?) {
      SizesMoved(s.clients, l.c, Apply(cfg, s, l).clients[l.c]);
    }
  }

  lemma {:induction false} SlotsHold(cfg: Config, trace: seq<State>, labels: seq<Label>, n: nat)
    requires IsRun(cfg, trace, labels) && n < |trace|
    ensures SlotInv(cfg.limit, trace[n])
  {
    if n > 0 {
      hide Enabled, Apply, SlotInv, Init;
      SlotsHold(cfg, trace, labels, n - 1);
      SlotStep(cfg, trace[n - 1], labels[n - 1]);
    }
  }

  /** In every state of every run, live guards and free slots together never exceed the
      limit, and no slot is lost: what is not free is held by a client that will give
      it back. */
  lemma SlotsNeverExceedTheLimit(cfg: Config, trace: seq<State>, labels: seq<Label>, n: nat)
    requires IsRun(cfg, trace, labels) && n < |trace|
    ensures trace[n].active + trace[n].free <= cfg.limit
    ensures cfg.limit - trace[n].free == |SlotHolders(trace[n].clients)|
  {
    hide Enabled, Apply, Init;
    SlotsHold(cfg, trace, labels, n);
    var s := trace[n];
    assert CountedClients(s.clients) <= SlotHolders(s.clients);
    SubsetSize(CountedClients(s.clients), SlotHolders(s.clients));
  }

  lemma SubsetSize(a: set<nat>, b: set<nat>)
    requires a <= b
    ensures |a| <= |b|
  {
    assert b == a + (b - a);
  }

  // ---- who is there, and who has the map -----------------------------------------------------------

  predicate Departs(l: Label, c: nat) { l == GiveUp(c) || l == FreeSlot(c) }

  lemma ThereStep(cfg: Config, s: State, l: Label, c: nat)
    requires Enabled(cfg, s, l)
    ensures c in Apply(cfg, s, l).clients <==> l == Touch(c) || (c in s.clients && !Departs(l, c))
    ensures Apply(cfg, s, l).reaper != NotReaping <==> l == LockMap || (s.reaper != NotReaping && l != UnlockMap)
  {
    hide JitteredTimeout;
  }

  lemma NobodyAtFirst(cfg: Config, s: State)
    requires Init(cfg, s)
    ensures s.clients == map[] && s.reaper == NotReaping
  {
  }

  /** A client is at the entry exactly from its claim until it gives up or gives its slot
      back. */
  lemma {:induction false} ThereExactly(cfg: Config, trace: seq<State>, labels: seq<Label>, n: nat, c: nat)
    requires IsRun(cfg, trace, labels) && n < |trace|
    ensures
      c in trace[n].clients <==>
        exists j :: 0 <= j < n && labels[j] == Touch(c) && forall k :: j < k < n ==> !Departs(labels[k], c)
  {
    hide Enabled, Apply, Init, Departs;
    if n > 0 {
      ThereExactly(cfg, trace, labels, n - 1, c);
      ThereStep(cfg, trace[n - 1], labels[n - 1], c);
    } else {
      NobodyAtFirst(cfg, trace[0]);
    }
  }

  /** The reaper has the map exactly from locking to unlocking it; and no claim is made in
      between. */
  lemma {:induction false} MapIsTakenExactly(cfg: Config, trace: seq<State>, labels: seq<Label>, n: nat)
    requires IsRun(cfg, trace, labels) && n < |trace|
    ensures
      trace[n].reaper != NotReaping <==>
        exists j :: 0 <= j < n && labels[j] == LockMap && forall k :: j < k < n ==> labels[k] != UnlockMap
    ensures n < |labels| && labels[n].Touch? ==> trace[n].reaper == NotReaping
  {
    assert n < |labels| ==> Enabled(cfg, trace[n], labels[n]);
    hide Apply, Init, Enabled;
    if n > 0 {
      MapIsTakenExactly(cfg, trace, labels, n - 1);
      ThereStep(cfg, trace[n - 1], labels[n - 1], 0);
    } else {
      NobodyAtFirst(cfg, trace[0]);
    }
  }

  predicate About(l: Label, c: nat) {
    || l == Touch(c) || l == Admit(c) || l == GiveUp(c) || l == Count(c) || l == TouchIn(c)
    || l == Uncount(c) || l == TouchOut(c) || l == FreeSlot(c)
  }

  /** What a client has done last. */
  predicate LastDid(l: Label, p: Client, c: nat) {
    match p
    case Claimed(_) => l == Touch(c)
    case Admitted(_) => l == Admit(c)
    case Counted => l == Count(c)
    case Guarded => l == TouchIn(c)
    case Uncounted => l == Uncount(c)
    case Parting => l == TouchOut(c)
  }

  lemma DidStep(cfg: Config, s: State, l: Label, c: nat)
    requires Enabled(cfg, s, l) && c in Apply(cfg, s, l).clients
    ensures About(l, c) ==> LastDid(l, Apply(cfg, s, l).clients[c], c)
    ensures !About(l, c) ==> c in s.clients && Apply(cfg, s, l).clients[c] == s.clients[c]
  {
    hide JitteredTimeout;
  }

  lemma {:induction false} StageIsTheLastDeed(cfg: Config, trace: seq<State>, labels: seq<Label>, n: nat, c: nat)
    returns (j: nat)
    requires IsRun(cfg, trace, labels) && n < |trace| && c in trace[n].clients
    ensures j < n && LastDid(labels[j], trace[n].clients[c], c) && forall k :: j < k < n ==> !About(labels[k], c)
  {
    assert n > 0;
    hide Enabled, Apply, Init, About, LastDid;
    DidStep(cfg, trace[n - 1], labels[n - 1], c);
    if About(labels[n - 1], c) {
      j := n - 1;
    } else {
      j := StageIsTheLastDeed(cfg, trace, labels, n - 1, c);
    }
  }

  /** What a client must have done right before. */
  predicate Follows(l: Label, before: Label, c: nat) {
    && (l == Admit(c) || l == GiveUp(c) ==> before == Touch(c))
    && (l == Count(c) ==> before == Admit(c))
    && (l == TouchIn(c) ==> before == Count(c))
    && (l == Uncount(c) ==> before == TouchIn(c))
    && (l == TouchOut(c) ==> before == Uncount(c))
    && (l == FreeSlot(c) ==> before == TouchOut(c))
  }

  /** A slot is given back only after the entry has been touched once more, and that only after
      the client is no longer counted: every client does these in their order. */
  lemma ClientsKeepTheirOrder(cfg: Config, trace: seq<State>, labels: seq<Label>, n: nat, c: nat) returns (j: nat)
    requires IsRun(cfg, trace, labels) && n < |labels| && About(labels[n], c) && labels[n] != Touch(c)
    ensures j < n && Follows(labels[n], labels[j], c) && forall k :: j < k < n ==> !About(labels[k], c)
  {
    assert Enabled(cfg, trace[n], labels[n]);
    hide Apply, Init;
    j := StageIsTheLastDeed(cfg, trace, labels, n, c);
  }

  // ---- how long an evicted entry has been idle ---------------------------------------------------

  predicate IsUse(l: Label) { l.Touch? || l.TouchIn? || l.TouchOut? }

  lemma UseStep(cfg: Config, s: State, l: Label)
    requires Enabled(cfg, s, l) && s.lastActive <= s.now
    ensures Apply(cfg, s, l).lastActive == if IsUse(l) then s.now else s.lastActive
    ensures s.now <= Apply(cfg, s, l).now && (!l.Tick? ==> Apply(cfg, s, l).now == s.now)
    ensures l.Tick? ==> Apply(cfg, s, l).now == s.now + l.d
  {
    hide JitteredTimeout;
  }

  /** The entry's clock is the time of its last use: a checkout's claim, the start of a
      session or its end. */
  lemma {:induction false} LastActiveIsTheLastUse(cfg: Config, trace: seq<State>, labels: seq<Label>, n: nat)
    returns (j: int)
    requires IsRun(cfg, trace, labels) && n < |trace|
    ensures -1 <= j < n && (forall k :: j < k < n ==> !IsUse(labels[k])) && (j >= 0 ==> IsUse(labels[j]))
    ensures trace[n].lastActive == (if j >= 0 then trace[j].now else trace[0].lastActive)
    ensures trace[n].lastActive <= trace[n].now
  {
    if n == 0 {
      j := -1;
    } else {
      hide Enabled, Apply, Init;
      j := LastActiveIsTheLastUse(cfg, trace, labels, n - 1);
      UseStep(cfg, trace[n - 1], labels[n - 1]);
      if IsUse(labels[n - 1]) {
        j := n - 1;
      }
    }
  }

  /** An entry is evicted only when its last use is at least its schema's timeout ago. */
  lemma EvictedIsIdle(cfg: Config, trace: seq<State>, labels: seq<Label>, n: nat, k: nat)
    requires IsRun(cfg, trace, labels) && n < |labels| && labels[n] == ReadIdle && k < n && IsUse(labels[k])
    ensures trace[n].now - trace[k].now >= JitteredTimeout(cfg.hash, cfg.timeout)
  {
    assert Enabled(cfg, trace[n], labels[n]);
    hide Enabled, Apply, Init;
    var j := LastActiveIsTheLastUse(cfg, trace, labels, n);
    TimePasses(cfg, trace, labels, k, j);
  }

  lemma {:induction false} TimePasses(cfg: Config, trace: seq<State>, labels: seq<Label>, k: nat, n: nat)
    requires IsRun(cfg, trace, labels) && k <= n < |trace|
    ensures trace[k].now <= trace[n].now
  {
    hide Enabled, Apply, Init;
    if k < n {
      TimePasses(cfg, trace, labels, k, n - 1);
      var j := LastActiveIsTheLastUse(cfg, trace, labels, n - 1);
      UseStep(cfg, trace[n - 1], labels[n - 1]);
    }
  }

  // ---- the reaper spares who is there or on the way --------------------------------------------

  /** How long a claimed checkout takes at most to count itself or give up, and how long
      the reaper takes between its two looks at an entry. */
  datatype Pace = Pace(claim: real, look: real)

  predicate KeepsPace(p: Pace, s: State, now: real) {
    && (forall c :: c in s.clients && OnItsWay(s.clients[c]) ==> now - s.clients[c].at < p.claim)
    && (s.reaper.SawNone? ==> now - s.reaper.at <= p.look)
  }

  /** Time passes only as far as the pace allows. */
  predicate Orderly(p: Pace, s: State, l: Label) { l.Tick? ==> KeepsPace(p, s, s.now + l.d) }

  ghost predicate OrderlyRun(cfg: Config, p: Pace, trace: seq<State>, labels: seq<Label>) {
    IsRun(cfg, trace, labels) && forall i :: 0 <= i < |labels| ==> Orderly(p, trace[i], labels[i])
  }

  predicate ClaimInv(p: Pace, s: State) {
    && s.lastActive <= s.now && KeepsPace(p, s, s.now)
    && (forall c :: c in s.clients && OnItsWay(s.clients[c]) ==> s.clients[c].at <= s.lastActive || s.reaper == Evicted)
    && (s.reaper.SawNone? ==>
          && s.reaper.at <= s.now
          && ((exists c :: c in s.clients && IsCounted(s.clients[c])) ==> s.reaper.at - s.lastActive < p.claim))
  }

  lemma ClaimStep(cfg: Config, p: Pace, s: State, l: Label)
    requires p.claim > 0.0 && p.look >= 0.0
    requires SlotInv(cfg.limit, s) && ClaimInv(p, s) && Enabled(cfg, s, l) && Orderly(p, s, l)
    ensures ClaimInv(p, Apply(cfg, s, l))
  {
    hide SlotHolders, JitteredTimeout;
    if l.ReadActive? {
      assert CountedClients(s.clients) == {};
      assert forall c :: c in s.clients && IsCounted(s.clients[c]) ==> c in CountedClients(s.clients);
    } else if s.reaper.SawNone? && l.Count? {
      assert OnItsWay(s.clients[l.c]);
    }
  }

  lemma {:induction false} ClaimsHold(cfg: Config, p: Pace, trace: seq<State>, labels: seq<Label>, n: nat)
    requires OrderlyRun(cfg, p, trace, labels) && n < |trace| && p.claim > 0.0 && p.look >= 0.0
    ensures ClaimInv(p, trace[n])
  {
    if n > 0 {
      hide Enabled, Apply, SlotInv, Init, ClaimInv, Orderly;
      ClaimsHold(cfg, p, trace, labels, n - 1);
      SlotsHold(cfg, trace, labels, n - 1);
      ClaimStep(cfg, p, trace[n - 1], labels[n - 1]);
    }
  }

  /** No guard is live on the entry and no checkout is on its way to one. */
  predicate Unused(s: State) {
    forall c :: c in s.clients ==> !OnItsWay(s.clients[c]) && !IsCounted(s.clients[c])
  }

  /** At this pace the reaper evicts only what is unused, in every run. */
  ghost predicate Spares(cfg: Config, p: Pace) {
    forall trace, labels, n: nat ::
      OrderlyRun(cfg, p, trace, labels) && n < |labels| && labels[n] == ReadIdle ==> Unused(trace[n])
  }

  lemma SparedAt(cfg: Config, p: Pace, trace: seq<State>, labels: seq<Label>, n: nat)
    requires OrderlyRun(cfg, p, trace, labels) && n < |labels| && labels[n] == ReadIdle
    requires p.claim > 0.0 && p.look >= 0.0 && p.claim + p.look <= JitteredTimeout(cfg.hash, cfg.timeout)
    ensures Unused(trace[n])
  {
    hide Apply, Init, Orderly, JitteredTimeout;
    ClaimsHold(cfg, p, trace, labels, n);
    assert Enabled(cfg, trace[n], labels[n]);
  }

  /** A pinned entry is never looked at. */
  lemma {:induction false} PinnedIsLeft(cfg: Config, trace: seq<State>, labels: seq<Label>, n: nat)
    requires IsRun(cfg, trace, labels) && n < |trace| && cfg.keepalive
    ensures !trace[n].reaper.SawNone?
  {
    hide JitteredTimeout;
    if n > 0 {
      PinnedIsLeft(cfg, trace, labels, n - 1);
    }
  }

  lemma PinnedIsNotReaped(cfg: Config, trace: seq<State>, labels: seq<Label>, n: nat)
    requires IsRun(cfg, trace, labels) && n < |labels| && cfg.keepalive
    ensures labels[n] != ReadIdle
  {
    PinnedIsLeft(cfg, trace, labels, n);
    assert Enabled(cfg, trace[n], labels[n]);
  }

  /** The reaper sees no one counted; a claim made long enough ago is then counted, and the
      reaper, after a look that takes its time, finds the entry idle. */
  lemma SlowClaimIsReaped(cfg: Config, p: Pace, s: State) returns (trace: seq<State>, labels: seq<Label>)
    requires Init(cfg, s) && !cfg.keepalive && cfg.limit > 0 && cfg.timeout > 0.0
    requires p.claim > 0.0 && p.look >= 0.0 && p.claim + p.look > JitteredTimeout(cfg.hash, cfg.timeout)
    ensures OrderlyRun(cfg, p, trace, labels) && trace[0] == s && |labels| == 8 && labels[7] == ReadIdle
    ensures IsAt(trace[7], 0, Counted)
  {
    var jittered := JitteredTimeout(cfg.hash, cfg.timeout);
    var wait := if jittered > p.look then jittered - p.look else 0.0;
    labels := [Touch(0), Admit(0), Tick(wait), LockMap, ReadActive, Count(0), Tick(p.look), ReadIdle];
    assert wait < p.claim && wait + p.look >= jittered;
    trace := SlowStates(cfg, p, s, wait);
    hide JitteredTimeout, Enabled, Apply, Orderly;
    assert labels == SlowLabels(wait, p.look);
  }

  function SlowLabels(wait: real, look: real): seq<Label> {
    [Touch(0), Admit(0), Tick(wait), LockMap, ReadActive, Count(0), Tick(look), ReadIdle]
  }

  lemma SlowStates(cfg: Config, p: Pace, s: State, wait: real) returns (trace: seq<State>)
    requires Init(cfg, s) && !cfg.keepalive && cfg.limit > 0 && p.look >= 0.0
    requires 0.0 <= wait < p.claim && wait + p.look >= JitteredTimeout(cfg.hash, cfg.timeout)
    ensures OrderlyRun(cfg, p, trace, SlowLabels(wait, p.look)) && trace[0] == s && IsAt(trace[7], 0, Counted)
  {
    hide JitteredTimeout;
    var n := cfg.limit - 1;
    var s1 := s.(clients := map[0 := Claimed(s.now)], lastActive := s.now);
    var s2 := s1.(clients := map[0 := Admitted(s.now)], free := n);
    var s3 := s2.(now := s.now + wait);
    var s4 := s3.(reaper := Holding);
    var s5 := s3.(reaper := SawNone(s3.now));
    var s6 := s5.(clients := map[0 := Counted], active := 1);
    var s7 := s6.(now := s3.now + p.look);
    trace := [s, s1, s2, s3, s4, s5, s6, s7, s7.(reaper := Evicted)];
  }

  /** The reaper spares whoever has a guard or is on the way to one, in every run, if and
      only if the entry is pinned, or claims are settled and looks are over within the
      schema's own timeout. */
  lemma ReaperSparesTheUsedExactly(cfg: Config, p: Pace, s: State)
    requires Init(cfg, s) && cfg.limit > 0 && cfg.timeout > 0.0 && p.claim > 0.0 && p.look >= 0.0
    ensures Spares(cfg, p) <==> cfg.keepalive || p.claim + p.look <= JitteredTimeout(cfg.hash, cfg.timeout)
  {
    if cfg.keepalive || p.claim + p.look <= JitteredTimeout(cfg.hash, cfg.timeout) {
      forall trace, labels, n: nat | OrderlyRun(cfg, p, trace, labels) && n < |labels| && labels[n] == ReadIdle
        ensures Unused(trace[n])
      {
        if cfg.keepalive {
          PinnedIsNotReaped(cfg, trace, labels, n);
        } else {
          SparedAt(cfg, p, trace, labels, n);
        }
      }
    } else {
      hide JitteredTimeout;
      var trace, labels := SlowClaimIsReaped(cfg, p, s);
      assert labels[7] == ReadIdle && !Unused(trace[7]);
    }
  }

  /** Whatever the schema: it is enough that claims and looks together take no more than
      0.85 of the configured timeout. */
  lemma ReaperSparesTheUsed(cfg: Config, p: Pace, s: State)
    requires Init(cfg, s) && cfg.limit > 0 && cfg.timeout > 0.0 && p.claim > 0.0 && p.look >= 0.0
    requires p.claim + p.look <= 0.85 * cfg.timeout
    ensures Spares(cfg, p)
  {
    JitterBounds(cfg.hash, cfg.timeout);
    ReaperSparesTheUsedExactly(cfg, p, s);
  }

  // ---- one pass over all entries -------------------------------------------------------------------

  datatype Entry = Entry(keepalive: bool, active: nat, lastActive: real)

  predicate IsIdle(e: Entry, now: real, timeout: real) {
    !e.keepalive && e.active == 0 && now - e.lastActive >= timeout
  }

  /** A schema whose timeout is up; a cell with no entry yet is not one. */
  predicate Expired(entries: map<string, Option<Entry>>, schema: string, hash: string -> nat, timeout: real, now: real)
  {
    schema in entries && entries[schema].Some?
    && IsIdle(entries[schema].value, now, JitteredTimeout(hash(schema), timeout))
  }

  function AgeOf(entries: map<string, Option<Entry>>, schema: string, now: real): real {
    if schema in entries && entries[schema].Some? then now - entries[schema].value.lastActive else 0.0
  }

  datatype Aged = Aged(schema: string, idle: real)

  /** The entry is not pinned, nobody is counted on it, and it has been idle for as long as
      it says and its schema's timeout asks. */
  predicate IsOver(entries: map<string, Option<Entry>>, x: Aged, hash: string -> nat, timeout: real, now: real) {
    x.schema in entries
    && match entries[x.schema]
       case None => false
       case Some(e) =>
         !e.keepalive && e.active == 0 && x.idle == now - e.lastActive >= JitteredTimeout(hash(x.schema), timeout)
  }

  lemma ExpiredIsOver(entries: map<string, Option<Entry>>, x: Aged, hash: string -> nat, timeout: real, now: real)
    ensures
      Expired(entries, x.schema, hash, timeout, now) && x.idle == AgeOf(entries, x.schema, now) <==>
        IsOver(entries, x, hash, timeout, now)
  {
  }

  predicate OldestFirst(s: seq<Aged>) { forall i, j :: 0 <= i < j < |s| ==> s[i].idle >= s[j].idle }

  /** Into place among the older, after those as old. */
  function Insert(s: seq<Aged>, e: Aged): (r: seq<Aged>)
    ensures |r| == |s| + 1
    ensures forall x :: x in r <==> x in s || x == e
  {
    if s == [] || s[|s| - 1].idle >= e.idle then s + [e]
    else
      assert s == s[..|s| - 1] + [s[|s| - 1]];
      Insert(s[..|s| - 1], e) + [s[|s| - 1]]
  }

  lemma {:induction false} InsertKeepsOrder(s: seq<Aged>, e: Aged)
    requires OldestFirst(s)
    ensures OldestFirst(Insert(s, e))
  {
    if s != [] && s[|s| - 1].idle < e.idle {
      var n := |s| - 1;
      InsertKeepsOrder(s[..n], e);
      var r := Insert(s[..n], e);
      forall i | 0 <= i < |r| ensures r[i].idle >= s[n].idle {
        assert r[i] in r;
      }
    }
  }

  predicate Distinct(s: seq<Aged>) { forall i, j :: 0 <= i < j < |s| ==> s[i].schema != s[j].schema }

  lemma {:induction false} InsertKeepsDistinct(s: seq<Aged>, e: Aged)
    requires Distinct(s) && forall x :: x in s ==> x.schema != e.schema
    ensures Distinct(Insert(s, e))
  {
    if s != [] && s[|s| - 1].idle < e.idle {
      var n := |s| - 1;
      InsertKeepsDistinct(s[..n], e);
      var r := Insert(s[..n], e);
      forall i | 0 <= i < |r| ensures r[i].schema != s[n].schema {
        assert r[i] in r;
      }
    }
  }

  lemma NoneInOrder()
    ensures OldestFirst([]) && Distinct([])
  {
  }

  class Registry {
    var entries: map<string, Option<Entry>>

    constructor (initial: map<string, Option<Entry>>)
      ensures entries == initial
    {
      entries := initial;
    }

    /** The expired entries, longest idle first. */
    method CollectExpired(hash: string -> nat, timeout: real, now: real) returns (expired: seq<Aged>)
      ensures OldestFirst(expired) && Distinct(expired)
      ensures forall k :: Expired(entries, k, hash, timeout, now) ==> Aged(k, AgeOf(entries, k, now)) in expired
      ensures forall x :: x in expired ==>
        Expired(entries, x.schema, hash, timeout, now) && x.idle == AgeOf(entries, x.schema, now)
      ensures forall x :: x in expired ==> IsOver(entries, x, hash, timeout, now)
    {
      hide JitteredTimeout, Insert, IsIdle, OldestFirst, Distinct, AgeOf;
      expired := [];
      assert OldestFirst(expired) && Distinct(expired) by { NoneInOrder(); }
      var rest := entries.Keys;
      while rest != {}
        invariant rest <= entries.Keys
        invariant OldestFirst(expired) && Distinct(expired)
        invariant forall k :: Expired(entries, k, hash, timeout, now) && k !in rest ==>
          Aged(k, AgeOf(entries, k, now)) in expired
        invariant forall x :: x in expired ==>
          && Expired(entries, x.schema, hash, timeout, now) && x.schema !in rest
          && x.idle == AgeOf(entries, x.schema, now)
        decreases rest
      {
        var k :| k in rest;
        rest := rest - {k};
        if entries[k].Some? && IsIdle(entries[k].value, now, JitteredTimeout(hash(k), timeout)) {
          var e := Aged(k, AgeOf(entries, k, now));
          InsertKeepsOrder(expired, e);
          InsertKeepsDistinct(expired, e);
          expired := Insert(expired, e);
        }
      }
      forall x | x in expired ensures IsOver(entries, x, hash, timeout, now) {
        ExpiredIsOver(entries, x, hash, timeout, now);
      }
    }

    /** `reap_idle`, under the map lock: at most 24 go, each with its timeout up, and
        nobody idle longer stays behind; all of them go when there are no more. */
    method ReapIdle(hash: string -> nat, timeout: real, now: real) returns (victims: seq<Aged>)
      modifies this
      ensures |victims| <= IDLE_MAX_STOPS_PER_PASS && OldestFirst(victims) && Distinct(victims)
      ensures forall x :: x in victims ==>
        Expired(old(entries), x.schema, hash, timeout, now) && x.idle == AgeOf(old(entries), x.schema, now)
      ensures forall x :: x in victims ==> IsOver(old(entries), x, hash, timeout, now)
      ensures entries == map k | k in old(entries) && k !in Names(victims) :: old(entries)[k]
      ensures forall k, x :: Expired(entries, k, hash, timeout, now) && x in victims ==>
        x.idle >= AgeOf(entries, k, now)
      ensures |victims| < IDLE_MAX_STOPS_PER_PASS ==> forall k :: !Expired(entries, k, hash, timeout, now)
    {
      hide Expired, OldestFirst, Distinct;
      var expired := CollectExpired(hash, timeout, now);
      victims := [];
      var i := 0;
      while i < |expired| && i < IDLE_MAX_STOPS_PER_PASS
        invariant 0 <= i <= |expired| && i <= IDLE_MAX_STOPS_PER_PASS
        invariant victims == expired[..i]
        invariant entries == map k | k in old(entries) && k !in Names(expired[..i]) :: old(entries)[k]
      {
        NamesMore(expired, i);
        entries := map k | k in entries && k != expired[i].schema :: entries[k];
        victims := victims + [expired[i]];
        i := i + 1;
      }
      Taken(expired, i);
      Leftover(old(entries), entries, expired, i, hash, timeout, now);
    }
  }

  function Names(s: seq<Aged>): set<string> { set x | x in s :: x.schema }

  lemma NamesMore(s: seq<Aged>, i: nat)
    requires i < |s|
    ensures Names(s[..i + 1]) == Names(s[..i]) + {s[i].schema} && s[..i + 1] == s[..i] + [s[i]]
  {
    assert s[..i + 1] == s[..i] + [s[i]];
  }

  lemma Taken(s: seq<Aged>, i: nat)
    requires i <= |s| && OldestFirst(s) && Distinct(s)
    ensures OldestFirst(s[..i]) && Distinct(s[..i])
  {
  }

  lemma Leftover(was: map<string, Option<Entry>>, left: map<string, Option<Entry>>, expired: seq<Aged>, i: nat,
                 hash: string -> nat, timeout: real, now: real)
    requires i <= |expired| && OldestFirst(expired) && (i == |expired| || i == IDLE_MAX_STOPS_PER_PASS)
    requires forall k :: Expired(was, k, hash, timeout, now) ==> Aged(k, AgeOf(was, k, now)) in expired
    requires left == map k | k in was && k !in Names(expired[..i]) :: was[k]
    ensures forall k, x :: Expired(left, k, hash, timeout, now) && x in expired[..i] ==>
      x.idle >= AgeOf(left, k, now)
    ensures i < IDLE_MAX_STOPS_PER_PASS ==> forall k :: !Expired(left, k, hash, timeout, now)
  {
    hide JitteredTimeout, IsIdle;
    forall k | Expired(left, k, hash, timeout, now)
      ensures i < |expired| && forall x :: x in expired[..i] ==> x.idle >= AgeOf(left, k, now)
    {
      assert Expired(was, k, hash, timeout, now);
      var j :| 0 <= j < |expired| && expired[j] == Aged(k, AgeOf(was, k, now));
      assert forall m :: 0 <= m < i ==> expired[m] in expired[..i];
    }
  }
}
