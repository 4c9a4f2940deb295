/**
 * Upload grants of the local dump server (src/dumpsrv.rs): tokens with a time to
 * live, uploads into a temp file that a rename or a commit moves into place, aborts
 * and the expiry sweep. Requests interleave at their file operations and their
 * sections under the token lock; the requests on one token come one after another.
 */
module DumpServer {
  import opened Text

  type Token = string
  type Bytes = seq<bv8>

  const TOKEN_TTL: nat := 3600
  const MAX_DUMP_BYTES: nat := 5 * 1024 * 1024 * 1024

  datatype Mode = Put | Get

  datatype Grant = Grant(schema: string, mode: Mode, issued: nat, completed: Option<nat>, pending: Option<nat>)

  /** A file, and whether it holds a body that was received to its end. */
  datatype File = File(bytes: Bytes, whole: bool)

  /** Where a request stands. `lengthKnown`: HTTP itself vouches for the body's end. */
  datatype Stage =
    | Putting(lengthKnown: bool, body: Bytes)
    | Received(lengthKnown: bool, body: Bytes)
    | Moved(size: nat)
    | Committing(size: nat)
    | Committed(size: nat)
    | Aborting

  datatype Request = Request(schema: string, stage: Stage)

  datatype State = State(
    clock: nat,
    tokens: map<Token, Grant>,
    requests: map<Token, Request>,
    tmp: map<string, File>,
    dest: map<string, File>)

  datatype Label =
    | Tick
    | Issue(token: Token, schema: string, mode: Mode, stuck: set<string>) // `stuck`: files that cannot be removed
    | PutStart(token: Token, lengthKnown: bool)
    | PutChunk(token: Token, data: Bytes)
    | PutEnd(token: Token)
    | PutMove(token: Token)
    | PutRecord(token: Token)
    | PutFail(token: Token, cleaned: bool)
    | CommitStart(token: Token)
    | CommitMove(token: Token)
    | CommitRecord(token: Token)
    | CommitFail(token: Token)
    | AbortStart(token: Token)
    | AbortRemove(token: Token, removed: bool)
    | Consume(schema: string)

  predicate Fresh(g: Grant, clock: nat) { clock < g.issued + TOKEN_TTL }

  /** `authorize` for a PUT. */
  predicate MayPut(tokens: map<Token, Grant>, t: Token, clock: nat) {
    t in tokens && tokens[t].mode == Put && Fresh(tokens[t], clock)
  }

  /** `authorize` for a PUT grant with no request under way. */
  predicate Authorized(s: State, t: Token) {
    MayPut(s.tokens, t, s.clock) && t !in s.requests
  }

  /** The grants the sweep keeps, and the temp files it removes. */
  function Swept(tokens: map<Token, Grant>, clock: nat): map<Token, Grant> {
    map t | t in tokens && Fresh(tokens[t], clock) :: tokens[t]
  }

  predicate SweepRemoves(tokens: map<Token, Grant>, clock: nat, schema: string) {
    exists t :: t in tokens && !Fresh(tokens[t], clock) && tokens[t].pending.Some? && tokens[t].schema == schema
  }

  predicate Enabled(s: State, l: Label) {
    match l
    case Tick => true
    case Issue(t, schema, _, _) =>
      t !in s.tokens && t !in s.requests && schema != "" && '/' !in schema && '\\' !in schema
    case PutStart(t, _) => Authorized(s, t)
    case PutChunk(t, data) =>
      t in s.requests && s.requests[t].stage.Putting? && |s.requests[t].stage.body| + |data| <= MAX_DUMP_BYTES
    case PutEnd(t) => t in s.requests && s.requests[t].stage.Putting?
    case PutMove(t) =>
      && t in s.requests && s.requests[t].stage.Received? && s.requests[t].stage.lengthKnown
      && s.requests[t].schema in s.tmp
    case PutRecord(t) =>
      && t in s.requests
      && (s.requests[t].stage.Moved? || (s.requests[t].stage.Received? && !s.requests[t].stage.lengthKnown))
    case PutFail(t, _) => t in s.requests && (s.requests[t].stage.Putting? || s.requests[t].stage.Received?)
    case CommitStart(t) => Authorized(s, t) && s.tokens[t].pending.Some?
    case CommitMove(t) => t in s.requests && s.requests[t].stage.Committing? && s.requests[t].schema in s.tmp
    case CommitRecord(t) => t in s.requests && s.requests[t].stage.Committed?
    case CommitFail(t) => t in s.requests && s.requests[t].stage.Committing?
    case AbortStart(t) => Authorized(s, t)
    case AbortRemove(t, _) => t in s.requests && s.requests[t].stage.Aborting?
    case Consume(schema) => schema in s.dest
  }

  function WithStage(s: State, t: Token, stage: Stage): State
    requires t in s.requests
  {
    s.(requests := s.requests[t := s.requests[t].(stage := stage)])
  }

  function Done(s: State, t: Token): State { s.(requests := s.requests - {t}) }

  /** `rename` of the temp file into place. */
  function Renamed(s: State, schema: string): State
    requires schema in s.tmp
  {
    s.(dest := s.dest[schema := s.tmp[schema]], tmp := s.tmp - {schema})
  }

  /** A write into the temp file, if it is still linked. */
  function Rewritten(s: State, schema: string, f: File): State {
    if schema in s.tmp then s.(tmp := s.tmp[schema := f]) else s
  }

  function WithGrant(s: State, t: Token, g: Grant -> Grant): State {
    if t in s.tokens then s.(tokens := s.tokens[t := g(s.tokens[t])]) else s
  }

  function PutApply(s: State, l: Label): State
    requires Enabled(s, l) && IsPut(l)
  {
    match l
    case PutStart(t, lengthKnown) =>
      var schema := s.tokens[t].schema;
      s.(requests := s.requests[t := Request(schema, Putting(lengthKnown, []))],
         tmp := s.tmp[schema := File([], false)])
    case PutChunk(t, data) =>
      var r := s.requests[t];
      var body := r.stage.body + data;
      Rewritten(WithStage(s, t, Putting(r.stage.lengthKnown, body)), r.schema, File(body, false))
    case PutEnd(t) =>
      var r := s.requests[t];
      Rewritten(WithStage(s, t, Received(r.stage.lengthKnown, r.stage.body)), r.schema, File(r.stage.body, true))
    case PutMove(t) =>
      var r := s.requests[t];
      Renamed(WithStage(s, t, Moved(|r.stage.body|)), r.schema)
    case PutRecord(t) =>
      var st := s.requests[t].stage;
      Done(WithGrant(s, t, (g: Grant) =>
                       if st.Moved? then g.(completed := Some(st.size))
                       else if st.Received? then g.(pending := Some(|st.body|)) else g), t)
    case PutFail(t, cleaned) =>
      if cleaned then Done(s, t).(tmp := s.tmp - {s.requests[t].schema}) else Done(s, t)
  }

  predicate IsPut(l: Label) {
    l.PutStart? || l.PutChunk? || l.PutEnd? || l.PutMove? || l.PutRecord? || l.PutFail?
  }

  function Apply(s: State, l: Label): State
    requires Enabled(s, l)
  {
    if IsPut(l) then PutApply(s, l) else
      match l
      case Tick => s.(clock := s.clock + 1)
      case Issue(t, schema, mode, stuck) =>
        s.(tokens := Swept(s.tokens, s.clock)[t := Grant(schema, mode, s.clock, None, None)],
           tmp := map x | x in s.tmp && (x in stuck || !SweepRemoves(s.tokens, s.clock, x)) :: s.tmp[x])
      case CommitStart(t) =>
        var g := s.tokens[t];
        s.(requests := s.requests[t := Request(g.schema, Committing(g.pending.value))])
      case CommitMove(t) =>
        var r := s.requests[t];
        Renamed(WithStage(s, t, Committed(r.stage.size)), r.schema)
      case CommitRecord(t) =>
        var size := s.requests[t].stage.size;
        Done(WithGrant(s, t, (g: Grant) => g.(pending := None, completed := Some(size))), t)
      case CommitFail(t) => Done(s, t)
      case AbortStart(t) =>
        var g := s.tokens[t];
        s.(tokens := s.tokens[t := g.(pending := None)], requests := s.requests[t := Request(g.schema, Aborting)])
      case AbortRemove(t, removed) =>
        if removed then Done(s, t).(tmp := s.tmp - {s.requests[t].schema}) else Done(s, t)
      case Consume(schema) => s.(dest := s.dest - {schema})
  }

  // ---- invariant -------------------------------------------------------------------------

  /** A token owns a schema through its request or its PUT grant. */
  predicate Owns(s: State, t: Token, schema: string) {
    || (t in s.requests && s.requests[t].schema == schema)
    || (t in s.tokens && s.tokens[t].mode == Put && s.tokens[t].schema == schema)
  }

  /** A request is for its token's PUT grant. */
  predicate Paired(s: State, t: Token) {
    t in s.requests && t in s.tokens ==> s.requests[t].schema == s.tokens[t].schema && s.tokens[t].mode == Put
  }

  /** One PUT grant per schema, a request under way counting as one. */
  ghost predicate OneGrant(s: State) {
    && (forall t, u, x :: Owns(s, t, x) && Owns(s, u, x) ==> t == u)
    && (forall t :: Paired(s, t))
  }

  predicate StageOk(stage: Stage, schema: string, tmp: map<string, File>, dest: map<string, File>) {
    match stage
    case Putting(_, body) => schema in tmp ==> tmp[schema] == File(body, false)
    case Received(_, body) => schema in tmp ==> tmp[schema] == File(body, true)
    case Moved(n) => schema !in tmp && (schema in dest ==> |dest[schema].bytes| == n)
    case Committing(n) => schema in tmp ==> tmp[schema].whole && |tmp[schema].bytes| == n
    case Committed(n) => schema in dest ==> |dest[schema].bytes| == n
    case Aborting => true
  }

  predicate PendingOk(g: Grant, tmp: map<string, File>, clock: nat) {
    g.mode == Put && Fresh(g, clock) && g.pending.Some? && g.schema in tmp ==>
      tmp[g.schema].whole && |tmp[g.schema].bytes| == g.pending.value
  }

  predicate CompletedOk(g: Grant, dest: map<string, File>) {
    g.mode == Put && g.completed.Some? && g.schema in dest ==> |dest[g.schema].bytes| == g.completed.value
  }

  predicate Landed(requests: map<Token, Request>, t: Token) {
    t in requests && (requests[t].stage.Moved? || requests[t].stage.Committed?)
  }

  /** What the request and the grant of one token say of the files is so. */
  predicate TokenOk(s: State, t: Token) {
    && (t in s.requests ==> StageOk(s.requests[t].stage, s.requests[t].schema, s.tmp, s.dest))
    && (t in s.requests && t in s.tokens && s.requests[t].stage.Committing? ==>
          s.tokens[t].pending == Some(s.requests[t].stage.size))
    && (t in s.requests && t in s.tokens && s.requests[t].stage.Aborting? ==> s.tokens[t].pending.None?)
    && (t in s.tokens && t !in s.requests ==> PendingOk(s.tokens[t], s.tmp, s.clock))
    && (t in s.tokens && !Landed(s.requests, t) ==> CompletedOk(s.tokens[t], s.dest))
  }

  predicate Whole(dest: map<string, File>) { forall x :: x in dest ==> dest[x].whole }

  ghost predicate FilesInv(s: State) { Whole(s.dest) && forall t :: TokenOk(s, t) }

  ghost predicate Inv(s: State) { OneGrant(s) && FilesInv(s) }

  predicate Init(s: State) {
    s.tokens == map[] && s.requests == map[] && Whole(s.dest)
  }

  /** A PUT grant is issued only when no other for the schema is alive or has a request
      under way, and a failed upload's temp file is removed unless it is safe to leave. */
  predicate Orderly(s: State, l: Label) {
    && (l.Issue? && l.mode == Put ==>
          && (forall t :: t in s.tokens && s.tokens[t].mode == Put && Fresh(s.tokens[t], s.clock) ==>
                s.tokens[t].schema != l.schema)
          && (forall t :: t in s.requests ==> s.requests[t].schema != l.schema))
    && (l.PutFail? && !l.cleaned ==> FailOk(s, l.token))
  }

  /** An upload may fail and leave its temp file behind: if no count of an earlier one is
      pending on a grant that can still be committed, or what is left happens to be a
      whole body of that count. */
  predicate FailOk(s: State, t: Token) { t in s.tokens ==> PendingOk(s.tokens[t], s.tmp, s.clock) }

  // ---- every orderly step keeps it ------------------------------------------------------------

  predicate SameKey<V(==)>(m: map<string, V>, m': map<string, V>, k: string) {
    (k in m <==> k in m') && (k in m ==> m[k] == m'[k])
  }

  predicate SameToken(s: State, s': State, u: Token) {
    SameKey(s.requests, s'.requests, u) && SameKey(s.tokens, s'.tokens, u)
  }

  predicate SameFiles(s: State, s': State, y: string) { SameKey(s.tmp, s'.tmp, y) && SameKey(s.dest, s'.dest, y) }

  /** Only `t`, and only the files of `schema`, are different. */
  ghost predicate OnlyMoves(s: State, s': State, t: Token, schema: string) {
    && s'.clock == s.clock
    && (forall u :: u != t ==> SameToken(s, s', u))
    && (forall y :: y != schema ==> SameFiles(s, s', y))
  }

  /** `t` owned the schema, and owns nothing it did not. */
  ghost predicate KeepsSchema(s: State, s': State, t: Token, schema: string) {
    && Owns(s, t, schema) && Paired(s', t)
    && forall x :: Owns(s', t, x) ==> Owns(s, t, x)
  }

  lemma OneGrantKept(s: State, s': State, t: Token, schema: string)
    requires OneGrant(s) && OnlyMoves(s, s', t, schema) && KeepsSchema(s, s', t, schema)
    ensures OneGrant(s')
  {
    forall u, x | Owns(s', u, x) ensures Owns(s, u, x) {
      if u != t {
        assert SameToken(s, s', u);
      }
    }
    forall u ensures Paired(s', u) {
      if u != t {
        assert SameToken(s, s', u) && Paired(s, u);
      }
    }
  }

  lemma OthersKept(s: State, s': State, t: Token, schema: string, u: Token)
    requires OneGrant(s) && OnlyMoves(s, s', t, schema) && Owns(s, t, schema)
    requires u != t && TokenOk(s, u)
    ensures TokenOk(s', u)
  {
    assert SameToken(s, s', u) && !Owns(s, u, schema);
    if u in s.requests {
      assert SameFiles(s, s', s.requests[u].schema);
    }
    if u in s.tokens && s.tokens[u].mode == Put {
      assert SameFiles(s, s', s.tokens[u].schema);
    }
  }

  /** A step of one token on its own files keeps everything if it keeps its own. */
  lemma MoveKeeps(s: State, s': State, t: Token, schema: string)
    requires Inv(s) && OnlyMoves(s, s', t, schema) && KeepsSchema(s, s', t, schema)
    requires TokenOk(s', t) && Whole(s'.dest)
    ensures Inv(s')
  {
    hide OnlyMoves, TokenOk, Owns;
    OneGrantKept(s, s', t, schema);
    forall u ensures TokenOk(s', u) {
      if u != t {
        OthersKept(s, s', t, schema, u);
      }
    }
  }

  predicate IsCommit(l: Label) {
    l.CommitStart? || l.CommitMove? || l.CommitRecord? || l.CommitFail? || l.AbortStart? || l.AbortRemove?
  }

  /** The schema a step of a token is about. */
  function SchemaOf(s: State, l: Label): string
    requires Enabled(s, l) && (IsPut(l) || IsCommit(l))
  {
    if l.PutStart? || l.CommitStart? || l.AbortStart? then s.tokens[l.token].schema else s.requests[l.token].schema
  }

  lemma PutMoves(s: State, l: Label)
    requires Enabled(s, l) && IsPut(l)
    ensures OnlyMoves(s, Apply(s, l), l.token, SchemaOf(s, l))
  {
  }

  lemma CommitMoves(s: State, l: Label)
    requires Enabled(s, l) && IsCommit(l)
    ensures OnlyMoves(s, Apply(s, l), l.token, SchemaOf(s, l))
  {
  }

  lemma PutOwn(s: State, l: Label)
    requires Enabled(s, l) && Orderly(s, l) && IsPut(l) && TokenOk(s, l.token) && Paired(s, l.token) && Whole(s.dest)
    ensures KeepsSchema(s, Apply(s, l), l.token, SchemaOf(s, l))
    ensures TokenOk(Apply(s, l), l.token) && Whole(Apply(s, l).dest)
  {
  }

  lemma CommitOwn(s: State, l: Label)
    requires Enabled(s, l) && IsCommit(l) && TokenOk(s, l.token) && Paired(s, l.token) && Whole(s.dest)
    ensures KeepsSchema(s, Apply(s, l), l.token, SchemaOf(s, l))
    ensures TokenOk(Apply(s, l), l.token) && Whole(Apply(s, l).dest)
  {
  }

  lemma IssueKeeps(s: State, l: Label)
    requires Inv(s) && Enabled(s, l) && Orderly(s, l) && (l.Issue? || l.Tick? || l.Consume?)
    ensures Inv(Apply(s, l))
  {
    var s' := Apply(s, l);
    forall t ensures TokenOk(s', t) && Paired(s', t) {
      assert TokenOk(s, t) && Paired(s, t);
    }
    forall t, x | Owns(s', t, x) ensures Owns(s, t, x) || (l.Issue? && l.mode == Put && t == l.token && x == l.schema) {
    }
  }

  lemma Keeps(s: State, l: Label)
    requires Inv(s) && Enabled(s, l) && Orderly(s, l)
    ensures Inv(Apply(s, l))
  {
    hide Enabled, Apply, Orderly, OnlyMoves, KeepsSchema, TokenOk, Paired, Owns;
    if IsPut(l) {
      PutMoves(s, l);
      PutOwn(s, l);
      MoveKeeps(s, Apply(s, l), l.token, SchemaOf(s, l));
    } else if IsCommit(l) {
      CommitMoves(s, l);
      CommitOwn(s, l);
      MoveKeeps(s, Apply(s, l), l.token, SchemaOf(s, l));
    } else {
      IssueKeeps(s, l);
    }
  }

  // ---- runs ------------------------------------------------------------------------------------------

  ghost predicate IsRun(trace: seq<State>, labels: seq<Label>) {
    && |trace| == |labels| + 1 && Init(trace[0])
    && forall i :: 0 <= i < |labels| ==>
         && Enabled(trace[i], labels[i]) && trace[i + 1] == Apply(trace[i], labels[i])
         && Orderly(trace[i], labels[i])
  }

  lemma InitInv(s: State)
    requires Init(s)
    ensures Inv(s)
  {
  }

  lemma {:induction false} RunKeeps(trace: seq<State>, labels: seq<Label>, n: nat)
    requires IsRun(trace, labels) && n < |trace|
    ensures Inv(trace[n])
  {
    hide Inv, Enabled, Apply, Orderly, Init;
    if n > 0 {
      RunKeeps(trace, labels, n - 1);
      Keeps(trace[n - 1], labels[n - 1]);
    } else {
      InitInv(trace[0]);
    }
  }

  /** The body that a step moving a file into place moves, and how its end is vouched for. */
  predicate MovesWhole(s: State, l: Label, schema: string, f: File) {
    && f.whole && (l.PutMove? || l.CommitMove?) && l.token in s.requests && s.requests[l.token].schema == schema
    && match s.requests[l.token].stage
       case Received(lengthKnown, body) => lengthKnown && f.bytes == body
       case Committing(size) => |f.bytes| == size
       case _ => false
  }

  /** Over every orderly run, a schema's dump changes only to a body received to its
      end, either one whose length HTTP vouches for, at the end of its own upload, or
      one that its job committed. */
  lemma DumpsAreWhole(trace: seq<State>, labels: seq<Label>, n: nat, schema: string)
    requires IsRun(trace, labels) && n < |labels| && schema in trace[n + 1].dest
    ensures
      || (schema in trace[n].dest && trace[n + 1].dest[schema] == trace[n].dest[schema])
      || MovesWhole(trace[n], labels[n], schema, trace[n + 1].dest[schema])
  {
    hide Orderly, Init, OneGrant;
    assert Enabled(trace[n], labels[n]) && trace[n + 1] == Apply(trace[n], labels[n]);
    assert Inv(trace[n]) by {
      hide Inv, Enabled, Apply;
      RunKeeps(trace, labels, n);
    }
    DestStep(trace[n], labels[n], schema);
  }

  /** What a grant reports complete is the size of the schema's dump, while that is
      there and no move of the grant's is waiting to be recorded. */
  lemma CompletedIsTheSize(trace: seq<State>, labels: seq<Label>, n: nat, t: Token)
    requires IsRun(trace, labels) && n < |trace| && t in trace[n].tokens && !Landed(trace[n].requests, t)
    requires trace[n].tokens[t].mode == Put && trace[n].tokens[t].schema in trace[n].dest
    ensures
      var g := trace[n].tokens[t];
      g.completed.Some? ==> g.completed.value == |trace[n].dest[g.schema].bytes|
  {
    hide Orderly, Init, OneGrant, Enabled, Apply;
    RunKeeps(trace, labels, n);
    assert TokenOk(trace[n], t);
  }

  lemma DestStep(s: State, l: Label, schema: string)
    requires Inv(s) && Enabled(s, l) && schema in Apply(s, l).dest
    ensures
      || (schema in s.dest && Apply(s, l).dest[schema] == s.dest[schema])
      || MovesWhole(s, l, schema, Apply(s, l).dest[schema])
  {
    hide OneGrant;
    if l.PutMove? || l.CommitMove? {
      assert TokenOk(s, l.token);
    }
  }

  // ---- a failed upload that leaves its temp file ---------------------------------------------------

  ghost predicate IsPath(trace: seq<State>, labels: seq<Label>) {
    && |trace| == |labels| + 1
    && forall i :: 0 <= i < |labels| ==> Enabled(trace[i], labels[i]) && trace[i + 1] == Apply(trace[i], labels[i])
  }

  /** Every dump is whole, and what is reported complete is its size. */
  ghost predicate DumpsOk(s: State) {
    && Whole(s.dest)
    && forall t :: t in s.tokens && !Landed(s.requests, t) ==> CompletedOk(s.tokens[t], s.dest)
  }

  /** Whatever orderly steps follow this one. */
  ghost predicate SafeAfter(s: State, l: Label) {
    forall trace, labels, n: nat ::
      (IsPath(trace, labels) && labels != [] && trace[0] == s && labels[0] == l && n < |trace|
       && forall i :: 1 <= i < |labels| ==> Orderly(trace[i], labels[i])) ==>
      DumpsOk(trace[n])
  }

  lemma {:induction false} PathKeeps(trace: seq<State>, labels: seq<Label>, n: nat)
    requires IsPath(trace, labels) && Inv(trace[0]) && n < |trace|
    requires forall i :: 0 <= i < |labels| ==> Orderly(trace[i], labels[i])
    ensures Inv(trace[n])
  {
    hide Inv, Enabled, Apply, Orderly;
    if n > 0 {
      PathKeeps(trace, labels, n - 1);
      Keeps(trace[n - 1], labels[n - 1]);
    }
  }

  lemma InvDumpsOk(s: State)
    requires Inv(s)
    ensures DumpsOk(s)
  {
    hide OneGrant;
    forall t | t in s.tokens && !Landed(s.requests, t) ensures CompletedOk(s.tokens[t], s.dest) {
      assert TokenOk(s, t);
    }
  }

  /** The count of a pending upload is not taken back when the next upload on the token
      begins. If that one fails and leaves something else behind, a commit moves it
      into place under the old count: from every such state. */
  lemma TornCommit(s: State, t: Token) returns (trace: seq<State>, labels: seq<Label>)
    requires Inv(s) && Enabled(s, PutFail(t, false)) && !FailOk(s, t)
    ensures IsPath(trace, labels) && trace[0] == s && |labels| == 4 && labels[0] == PutFail(t, false)
    ensures forall i :: 1 <= i < |labels| ==> Orderly(trace[i], labels[i])
    ensures !DumpsOk(trace[4])
  {
    assert Paired(s, t);
    hide Inv;
    labels := [PutFail(t, false), CommitStart(t), CommitMove(t), CommitRecord(t)];
    var s1 := Apply(s, labels[0]);
    var s2 := Apply(s1, labels[1]);
    var s3 := Apply(s2, labels[2]);
    var s4 := Apply(s3, labels[3]);
    trace := [s, s1, s2, s3, s4];
    var g := s.tokens[t];
    assert s4.dest[g.schema] == s.tmp[g.schema] && s4.tokens[t].completed == g.pending && !Landed(s4.requests, t);
    assert s4.dest[g.schema].whole ==> !CompletedOk(s4.tokens[t], s4.dest);
  }

  /** A failed upload that leaves its temp file is harmless, whatever orderly steps follow,
      if and only if `FailOk`. */
  lemma FailIsSafeExactly(s: State, t: Token)
    requires Inv(s) && Enabled(s, PutFail(t, false))
    ensures SafeAfter(s, PutFail(t, false)) <==> FailOk(s, t)
  {
    if FailOk(s, t) {
      hide Inv, Enabled, Apply, DumpsOk, FailOk;
      forall trace, labels, n: nat |
        IsPath(trace, labels) && labels != [] && trace[0] == s && labels[0] == PutFail(t, false) && n < |trace|
        && forall i :: 1 <= i < |labels| ==> Orderly(trace[i], labels[i])
        ensures DumpsOk(trace[n])
      {
        assert Orderly(trace[0], labels[0]);
        PathKeeps(trace, labels, n);
        InvDumpsOk(trace[n]);
      }
    } else {
      hide Inv, Enabled, Apply, DumpsOk, FailOk;
      var trace, labels := TornCommit(s, t);
    }
  }

  // ---- the handlers, each run to its end ------------------------------------------------------------------

  datatype Status = Ok200 | Forbidden | Conflict | ServerError

  function Joined(chunks: seq<Bytes>): Bytes {
    if chunks == [] then [] else Joined(chunks[..|chunks| - 1]) + chunks[|chunks| - 1]
  }

  /** What the disk and the stream do to an upload: how many chunks arrive and are written
      before one breaks off, and whether the other file operations succeed. */
  datatype Luck = Luck(creates: bool, takes: nat, syncs: bool, renames: bool, removes: bool)

  predicate Lands(chunks: seq<Bytes>, lengthKnown: bool, luck: Luck) {
    && luck.creates && |chunks| <= luck.takes && |Joined(chunks)| <= MAX_DUMP_BYTES
    && luck.syncs && (lengthKnown ==> luck.renames)
  }

  class Server {
    var tokens: map<Token, Grant>
    var tmp: map<string, Bytes>
    var dest: map<string, Bytes>

    constructor (files: map<string, Bytes>)
      ensures tokens == map[] && tmp == map[] && dest == files
    {
      tokens, tmp, dest := map[], map[], files;
    }

    /** `issue`: every expired grant goes, with the temp file of an upload it left
        uncommitted. */
    method IssueGrant(t: Token, schema: string, mode: Mode, stuck: set<string>, clock: nat) returns (ok: bool)
      modifies this`tokens, this`tmp
      ensures ok <==> schema != "" && '/' !in schema && '\\' !in schema
      ensures !ok ==> tokens == old(tokens) && tmp == old(tmp)
      ensures ok ==> tokens == Swept(old(tokens), clock)[t := Grant(schema, mode, clock, None, None)]
      ensures
        ok ==> tmp == map x | x in old(tmp) && (x in stuck || !SweepRemoves(old(tokens), clock, x)) :: old(tmp)[x]
    {
      if '/' in schema || '\\' in schema || schema == "" {
        return false;
      }
      ok := true;
      var expired: set<string> := {};
      var kept: map<Token, Grant> := map[];
      var rest := tokens.Keys;
      while rest != {}
        invariant rest <= tokens.Keys && tokens == old(tokens) && tmp == old(tmp)
        invariant forall u :: u in kept <==> u in tokens && u !in rest && Fresh(tokens[u], clock)
        invariant forall u :: u in kept ==> kept[u] == tokens[u]
        invariant forall x :: x in expired <==>
          exists u :: u in tokens && u !in rest && !Fresh(tokens[u], clock) && tokens[u].pending.Some?
            && tokens[u].schema == x
        decreases rest
      {
        var u :| u in rest;
        rest := rest - {u};
        if Fresh(tokens[u], clock) {
          kept := kept[u := tokens[u]];
        } else if tokens[u].pending.Some? {
          expired := expired + {tokens[u].schema};
        }
      }
      assert kept == Swept(tokens, clock);
      assert forall x :: x in expired <==> SweepRemoves(tokens, clock, x);
      tmp := map x | x in tmp && (x in stuck || x !in expired) :: tmp[x];
      tokens := kept[t := Grant(schema, mode, clock, None, None)];
    }

    /** `handle_put`: the body lands whole or not at all, and a failure leaves at most a
        part of it in the temp file, and only if that cannot be removed. */
    method HandlePut(t: Token, lengthKnown: bool, chunks: seq<Bytes>, luck: Luck, clock: nat) returns (status: Status)
      modifies this
      ensures status == if !MayPut(old(tokens), t, clock) then Forbidden
                        else if Lands(chunks, lengthKnown, luck) then Ok200 else ServerError
      ensures status != Ok200 ==> dest == old(dest) && tokens == old(tokens)
      ensures status == Forbidden ==> tmp == old(tmp)
      ensures status == ServerError && luck.removes ==> tmp == old(tmp) - {old(tokens)[t].schema}
      ensures status == ServerError && !luck.removes ==>
        || (!luck.creates && tmp == old(tmp))
        || (luck.creates && PartLeft(old(tmp), tmp, old(tokens)[t].schema, chunks))
      ensures status == Ok200 && lengthKnown ==>
        && dest == old(dest)[old(tokens)[t].schema := Joined(chunks)]
        && tmp == old(tmp) - {old(tokens)[t].schema}
        && tokens == old(tokens)[t := old(tokens)[t].(completed := Some(|Joined(chunks)|))]
      ensures status == Ok200 && !lengthKnown ==>
        && dest == old(dest)
        && tmp == old(tmp)[old(tokens)[t].schema := Joined(chunks)]
        && tokens == old(tokens)[t := old(tokens)[t].(pending := Some(|Joined(chunks)|))]
    {
      if !MayPut(tokens, t, clock) {
        return Forbidden;
      }
      var schema := tokens[t].schema;
      var written, ok := 0, luck.creates;
      if ok {
        written, ok := Receive(schema, chunks, luck.takes);
        ok := ok && luck.syncs;
      }
      if ok && lengthKnown {
        ok := luck.renames;
        if ok {
          dest := dest[schema := tmp[schema]];
          tmp := tmp - {schema};
        }
      }
      if !ok {
        if luck.removes {
          tmp := tmp - {schema};
        }
        return ServerError;
      }
      if lengthKnown {
        tokens := tokens[t := tokens[t].(completed := Some(written))];
      } else {
        tokens := tokens[t := tokens[t].(pending := Some(written))];
      }
      return Ok200;
    }

    /** The temp file is created and filled, up to the cap and as long as chunks come. */
    method Receive(schema: string, chunks: seq<Bytes>, takes: nat) returns (written: nat, ok: bool)
      modifies this`tmp
      ensures ok <==> |chunks| <= takes && |Joined(chunks)| <= MAX_DUMP_BYTES
      ensures ok ==> written == |Joined(chunks)| && tmp == old(tmp)[schema := Joined(chunks)]
      ensures PartLeft(old(tmp), tmp, schema, chunks)
    {
      tmp := tmp[schema := []];
      written, ok := 0, true;
      var i := 0;
      while i < |chunks|
        invariant 0 <= i <= |chunks| && i <= takes
        invariant tmp == old(tmp)[schema := Joined(chunks[..i])] && written == |Joined(chunks[..i])| <= MAX_DUMP_BYTES
      {
        if i == takes {
          ok := false;
          return;
        }
        assert chunks[..i + 1][..i] == chunks[..i];
        written := written + |chunks[i]|;
        if written > MAX_DUMP_BYTES {
          JoinedGrows(chunks, i + 1);
          ok := false;
          return;
        }
        tmp := tmp[schema := tmp[schema] + chunks[i]];
        i := i + 1;
      }
      assert chunks[..i] == chunks;
    }

    /** `handle_commit`. */
    method HandleCommit(t: Token, renames: bool, clock: nat) returns (status: Status)
      modifies this
      ensures
        status == if !MayPut(old(tokens), t, clock) then Forbidden
                  else if old(tokens)[t].pending.None? then Conflict
                  else if old(tokens)[t].schema !in old(tmp) || !renames then ServerError
                  else Ok200
      ensures status != Ok200 ==> tokens == old(tokens) && tmp == old(tmp) && dest == old(dest)
      ensures status == Ok200 ==>
        var g := old(tokens)[t];
        && dest == old(dest)[g.schema := old(tmp)[g.schema]] && tmp == old(tmp) - {g.schema}
        && tokens == old(tokens)[t := g.(pending := None, completed := g.pending)]
    {
      if !MayPut(tokens, t, clock) {
        return Forbidden;
      }
      var g := tokens[t];
      if g.pending.None? {
        return Conflict;
      }
      if g.schema !in tmp || !renames {
        return ServerError;
      }
      dest := dest[g.schema := tmp[g.schema]];
      tmp := tmp - {g.schema};
      tokens := tokens[t := g.(pending := None, completed := g.pending)];
      return Ok200;
    }

    /** `handle_abort`. */
    method HandleAbort(t: Token, removes: bool, clock: nat) returns (status: Status)
      modifies this`tokens, this`tmp
      ensures status == if MayPut(old(tokens), t, clock) then Ok200 else Forbidden
      ensures status == Forbidden ==> tokens == old(tokens) && tmp == old(tmp)
      ensures status == Ok200 ==>
        && tokens == old(tokens)[t := old(tokens)[t].(pending := None)]
        && tmp == (if removes then old(tmp) - {old(tokens)[t].schema} else old(tmp))
    {
      if !MayPut(tokens, t, clock) {
        return Forbidden;
      }
      tokens := tokens[t := tokens[t].(pending := None)];
      if removes {
        tmp := tmp - {tokens[t].schema};
      }
      return Ok200;
    }
  }

  /** The temp file holds the first so many chunks. */
  ghost predicate PartLeft(was: map<string, Bytes>, now: map<string, Bytes>, schema: string, chunks: seq<Bytes>) {
    exists k :: 0 <= k <= |chunks| && now == was[schema := Joined(chunks[..k])]
  }

  lemma {:induction false} JoinedGrows(chunks: seq<Bytes>, i: nat)
    requires i <= |chunks|
    ensures |Joined(chunks[..i])| <= |Joined(chunks)|
  {
    if i == |chunks| {
      assert chunks[..i] == chunks;
    } else {
      JoinedGrows(chunks[..|chunks| - 1], i);
      assert chunks[..|chunks| - 1][..i] == chunks[..i];
    }
  }
}
