/**
 * What the dump server stores, by what its clients sent (src/dumpsrv.rs): every dump in
 * place is, byte for byte, the body of one upload under a grant for its schema, begun
 * within the grant's hour.
 */
module DumpUploads {
  import opened Text
  import opened DumpServer

  /** A token by the requests made with it: what it was issued for and how many seconds ago;
      the bytes of its latest upload, whether that came to its end, and whether HTTP
      vouches for the end; whether its temp file should be there or has been moved or
      removed since; and what it should report complete, and pending. */
  datatype Story = Story(
    schema: Option<string>, mode: Mode, age: nat,
    file: File, lengthKnown: bool, at: Whereabouts,
    completed: Option<nat>, pending: Option<nat>)

  datatype Whereabouts = Unknown | There | Removed

  const Untold := Story(None, Get, 0, File([], false), false, Unknown, None, None)

  function Next(y: Story, l: Label, t: Token): Story {
    if l.Tick? then y.(age := y.age + 1)
    else if l.Consume? || l.token != t then y
    else
      match l
      case Issue(_, schema, mode, _) => Untold.(schema := Some(schema), mode := mode)
      case PutStart(_, lengthKnown) => y.(file := File([], false), lengthKnown := lengthKnown, at := There)
      case PutChunk(_, data) => y.(file := File(y.file.bytes + data, y.file.whole))
      case PutEnd(_) => y.(file := File(y.file.bytes, true))
      case PutMove(_) => y.(at := Removed)
      case PutRecord(_) =>
        if y.lengthKnown then y.(completed := Some(|y.file.bytes|)) else y.(pending := Some(|y.file.bytes|))
      case PutFail(_, cleaned) => if cleaned then y.(at := Removed) else y
      case CommitMove(_) => y.(at := Removed)
      case CommitRecord(_) => y.(completed := Some(|y.file.bytes|), pending := None)
      case AbortStart(_) => y.(pending := None)
      case AbortRemove(_, removed) => if removed then y.(at := Removed) else y
      case _ => y
  }

  function Told(labels: seq<Label>, t: Token): Story {
    if labels == [] then Untold else Next(Told(labels[..|labels| - 1], t), labels[|labels| - 1], t)
  }

  /** What a token's request says of its latest upload is so, */
  predicate RequestOk(r: Request, tmp: map<string, File>, y: Story) {
    && y.schema == Some(r.schema)
    && match r.stage
       case Putting(known, body) => y.file == File(body, false) && y.at == There && y.lengthKnown == known
       case Received(known, body) => y.file == File(body, true) && y.at == There && y.lengthKnown == known
       case Moved(size) => size == |y.file.bytes| && y.at == Removed && y.lengthKnown
       case Committing(_) => r.schema in tmp ==> tmp[r.schema] == y.file
       case Committed(size) => size == |y.file.bytes| && y.at == Removed
       case Aborting => true
  }

  /** and what its grant says; and the temp file is there if it should be. */
  predicate GrantOk(g: Grant, clock: nat, tmp: map<string, File>, y: Story) {
    && y.schema == Some(g.schema) && y.mode == g.mode && clock == g.issued + y.age
    && y.completed == g.completed && y.pending == g.pending
    && (y.at == There ==> g.schema in tmp && tmp[g.schema] == y.file)
    && (y.at == Removed ==> g.schema !in tmp)
    && (g.mode == Put && g.pending.Some? && g.schema in tmp ==> tmp[g.schema] == y.file && y.at == There)
    && (g.mode == Get ==> y.at == Unknown && g.pending.None?)
  }

  predicate StoryOk(s: State, t: Token, y: Story) {
    && (t in s.requests ==> RequestOk(s.requests[t], s.tmp, y))
    && (t in s.tokens ==> GrantOk(s.tokens[t], s.clock, s.tmp, y))
    && (y.schema.Some? && y.age < TOKEN_TTL ==> t in s.tokens)
  }

  lemma OwnPut(s: State, l: Label, y: Story)
    requires Enabled(s, l) && IsPut(l) && TokenOk(s, l.token) && Paired(s, l.token) && StoryOk(s, l.token, y)
    ensures StoryOk(Apply(s, l), l.token, Next(y, l, l.token))
  {
  }

  lemma OwnCommit(s: State, l: Label, y: Story)
    requires Enabled(s, l) && IsCommit(l) && TokenOk(s, l.token) && Paired(s, l.token) && StoryOk(s, l.token, y)
    ensures StoryOk(Apply(s, l), l.token, Next(y, l, l.token))
  {
  }

  lemma Others(s: State, s': State, t: Token, moved: string, u: Token, y: Story)
    requires OneGrant(s) && OnlyMoves(s, s', t, moved) && Owns(s, t, moved) && u != t && StoryOk(s, u, y)
    ensures StoryOk(s', u, y)
  {
    assert SameToken(s, s', u) && !Owns(s, u, moved);
    if u in s.requests {
      assert SameFiles(s, s', s.requests[u].schema);
    }
    if u in s.tokens && s.tokens[u].mode == Put {
      assert SameFiles(s, s', s.tokens[u].schema);
    }
  }

  lemma NotTold(s: State, l: Label, t: Token, y: Story)
    requires Enabled(s, l) && (IsPut(l) || IsCommit(l)) && l.token != t
    ensures Next(y, l, t) == y
  {
  }

  /** A sweep leaves the temp file of a grant it keeps. */
  lemma SweepSpares(s: State, t: Token)
    requires OneGrant(s) && t in s.tokens && s.tokens[t].mode == Put && Fresh(s.tokens[t], s.clock)
    requires forall u :: u in s.tokens && s.tokens[u].pending.Some? ==> s.tokens[u].mode == Put
    ensures !SweepRemoves(s.tokens, s.clock, s.tokens[t].schema)
  {
    var schema := s.tokens[t].schema;
    forall u | u in s.tokens && s.tokens[u].mode == Put && s.tokens[u].schema == schema ensures u == t {
      assert Owns(s, u, schema) && Owns(s, t, schema);
    }
  }

  lemma TimeTold(s: State, l: Label, t: Token, y: Story)
    requires Inv(s) && Enabled(s, l) && (l.Issue? || l.Tick? || l.Consume?) && StoryOk(s, t, y)
    requires forall u :: u in s.tokens && s.tokens[u].pending.Some? ==> s.tokens[u].mode == Put
    ensures StoryOk(Apply(s, l), t, Next(y, l, t))
  {
    if l.Issue? && t in s.tokens && s.tokens[t].mode == Put && Fresh(s.tokens[t], s.clock) {
      SweepSpares(s, t);
    }
    hide OneGrant, TokenOk, SweepRemoves;
  }

  lemma StoryStep(s: State, l: Label, t: Token, y: Story)
    requires Inv(s) && Enabled(s, l) && Orderly(s, l) && StoryOk(s, t, y)
    requires forall u :: u in s.tokens && s.tokens[u].pending.Some? ==> s.tokens[u].mode == Put
    ensures StoryOk(Apply(s, l), t, Next(y, l, t))
  {
    assert TokenOk(s, t) && Paired(s, t);
    hide Enabled, Apply, Orderly, StoryOk, TokenOk, Paired, OnlyMoves, Owns, Next;
    if !IsPut(l) && !IsCommit(l) {
      TimeTold(s, l, t, y);
    } else if l.token != t {
      assert TokenOk(s, l.token) && Paired(s, l.token);
      if IsPut(l) {
        PutMoves(s, l);
        PutOwn(s, l);
      } else {
        CommitMoves(s, l);
        CommitOwn(s, l);
      }
      Others(s, Apply(s, l), l.token, SchemaOf(s, l), t, y);
      NotTold(s, l, t, y);
    } else if IsPut(l) {
      OwnPut(s, l, y);
    } else {
      OwnCommit(s, l, y);
    }
  }

  lemma NothingTold(s: State, t: Token)
    requires Init(s)
    ensures StoryOk(s, t, Untold)
  {
  }

  lemma PendingIsPut(s: State, t: Token, y: Story)
    requires StoryOk(s, t, y) && t in s.tokens && s.tokens[t].pending.Some?
    ensures s.tokens[t].mode == Put
  {
  }

  lemma {:induction false} RunTold(trace: seq<State>, labels: seq<Label>, n: nat, t: Token)
    requires IsRun(trace, labels) && n < |trace|
    ensures StoryOk(trace[n], t, Told(labels[..n], t))
  {
    hide Inv, Enabled, Apply, Orderly, StoryOk, Init;
    if n > 0 {
      var s := trace[n - 1];
      RunKeeps(trace, labels, n - 1);
      forall u | u in s.tokens && s.tokens[u].pending.Some? ensures s.tokens[u].mode == Put {
        RunTold(trace, labels, n - 1, u);
        PendingIsPut(s, u, Told(labels[..n - 1], u));
      }
      RunTold(trace, labels, n - 1, t);
      assert labels[..n][..n - 1] == labels[..n - 1];
      StoryStep(s, labels[n - 1], t, Told(labels[..n - 1], t));
    } else {
      NothingTold(trace[0], t);
    }
  }

  // ---- what lands ---------------------------------------------------------------------------------

  /** A step that moves a file into place: it is the token's latest upload, to its end, in
      the place of the schema the token was issued for. */
  predicate LandsSent(s': State, y: Story) {
    && y.schema.Some? && y.file.whole
    && y.schema.value in s'.dest && s'.dest[y.schema.value] == y.file && y.schema.value !in s'.tmp
  }

  lemma LandStep(s: State, l: Label, y: Story)
    requires Inv(s) && Enabled(s, l) && (l.PutMove? || l.CommitMove?) && StoryOk(s, l.token, y)
    ensures LandsSent(Apply(s, l), y)
    ensures forall x :: x in Apply(s, l).dest && y.schema != Some(x) ==> x in s.dest && Apply(s, l).dest[x] == s.dest[x]
  {
    hide OneGrant;
    assert TokenOk(s, l.token);
  }

  /** Both ways a dump gets into place put there exactly what was sent. */
  lemma LandedIsWhatWasSent(trace: seq<State>, labels: seq<Label>, n: nat)
    requires IsRun(trace, labels) && n < |labels| && (labels[n].PutMove? || labels[n].CommitMove?)
    ensures LandsSent(trace[n + 1], Told(labels[..n], labels[n].token))
  {
    hide Inv, Enabled, Apply, Orderly, StoryOk, Init, LandsSent;
    RunKeeps(trace, labels, n);
    RunTold(trace, labels, n, labels[n].token);
    LandStep(trace[n], labels[n], Told(labels[..n], labels[n].token));
  }

  /** What a grant says is what its requests have told: complete with the number of bytes sent
      once the upload is in place, pending with that number while it waits for its
      commit, and nothing else. */
  lemma GrantExactly(trace: seq<State>, labels: seq<Label>, n: nat, t: Token)
    requires IsRun(trace, labels) && n < |trace| && t in trace[n].tokens
    ensures
      var y, g := Told(labels[..n], t), trace[n].tokens[t];
      && y.schema == Some(g.schema) && y.mode == g.mode && trace[n].clock == g.issued + y.age
      && g.completed == y.completed && g.pending == y.pending
  {
    hide Inv, Orderly, Init, Told, Enabled, Apply;
    RunTold(trace, labels, n, t);
  }

  /** A grant whose hour is over goes with the next one issued, and the temp file of an upload
      it left uncommitted with it, unless that cannot be removed. */
  lemma SweptWithItsFile(trace: seq<State>, labels: seq<Label>, n: nat, t: Token)
    requires IsRun(trace, labels) && n < |labels| && labels[n].Issue? && t in trace[n].tokens
    ensures
      var y := Told(labels[..n], t);
      && (t in trace[n + 1].tokens <==> y.age < 3600)
      && (y.age >= 3600 && y.pending.Some? && y.schema.Some? && y.schema.value !in labels[n].stuck ==>
            y.schema.value !in trace[n + 1].tmp)
  {
    hide Inv, Orderly, Init, Told;
    RunTold(trace, labels, n, t);
    assert Enabled(trace[n], labels[n]) && trace[n + 1] == Apply(trace[n], labels[n]);
  }

  /** Over every orderly run each dump in place was there at the start, or is the whole
      body of one upload, as it was sent, under a grant for the schema; and nobody has
      taken it away since. */
  lemma {:induction false} EveryDumpWasSent(trace: seq<State>, labels: seq<Label>, n: nat, schema: string)
    returns (i: int)
    requires IsRun(trace, labels) && n < |trace| && schema in trace[n].dest
    ensures -1 <= i < n && forall k :: i < k < n ==> labels[k] != Consume(schema)
    ensures i == -1 ==> schema in trace[0].dest && trace[n].dest[schema] == trace[0].dest[schema]
    ensures i >= 0 ==>
      && (labels[i].PutMove? || labels[i].CommitMove?)
      && var y := Told(labels[..i], labels[i].token);
         y.schema == Some(schema) && trace[n].dest[schema] == y.file && y.file.whole
  {
    hide Inv, Enabled, Apply, Orderly, Init, Told, MovesWhole;
    if n == 0 {
      i := -1;
    } else if labels[n - 1].PutMove? || labels[n - 1].CommitMove? {
      LandedIsWhatWasSent(trace, labels, n - 1);
      i := n - 1;
      if Told(labels[..i], labels[i].token).schema != Some(schema) {
        RunKeeps(trace, labels, i);
        RunTold(trace, labels, i, labels[i].token);
        assert schema in trace[i].dest && trace[n].dest[schema] == trace[i].dest[schema] by {
          hide StoryOk;
          LandStep(trace[i], labels[i], Told(labels[..i], labels[i].token));
        }
        i := EveryDumpWasSent(trace, labels, n - 1, schema);
      }
    } else {
      StaysPut(trace[n - 1], labels[n - 1], schema);
      i := EveryDumpWasSent(trace, labels, n - 1, schema);
    }
  }

  lemma StaysPut(s: State, l: Label, schema: string)
    requires Enabled(s, l) && !l.PutMove? && !l.CommitMove?
    ensures schema in Apply(s, l).dest <==> schema in s.dest && l != Consume(schema)
    ensures schema in Apply(s, l).dest ==> Apply(s, l).dest[schema] == s.dest[schema]
  {
  }

  /** No upload is ever taken beyond five gigabytes. */
  lemma {:induction false} UploadsAreCapped(trace: seq<State>, labels: seq<Label>, n: nat, t: Token)
    requires IsRun(trace, labels) && n < |trace|
    ensures |Told(labels[..n], t).file.bytes| <= 5_368_709_120
  {
    if n > 0 {
      assert Enabled(trace[n - 1], labels[n - 1]);
      hide Inv, Apply, Orderly, Init, StoryOk;
      UploadsAreCapped(trace, labels, n - 1, t);
      RunTold(trace, labels, n - 1, t);
      assert labels[..n][..n - 1] == labels[..n - 1];
      CapStep(trace[n - 1], labels[n - 1], t, Told(labels[..n - 1], t));
    }
  }

  lemma CapStep(s: State, l: Label, t: Token, y: Story)
    requires Enabled(s, l) && StoryOk(s, t, y) && |y.file.bytes| <= 5_368_709_120
    ensures |Next(y, l, t).file.bytes| <= 5_368_709_120
  {
  }

  // ---- who may -----------------------------------------------------------------------------------

  /** With no request under way, a token may upload, and take back what it has pending,
      exactly within the hour after it was issued for uploads, whatever else is issued
      and swept meanwhile; and commit if an upload is pending. */
  lemma MayExactly(trace: seq<State>, labels: seq<Label>, n: nat, t: Token, lengthKnown: bool)
    requires IsRun(trace, labels) && n < |trace| && t !in trace[n].requests
    ensures
      var y := Told(labels[..n], t);
      var may := y.schema.Some? && y.mode == Put && y.age < 3600;
      && (Enabled(trace[n], PutStart(t, lengthKnown)) <==> may)
      && (Enabled(trace[n], AbortStart(t)) <==> may)
      && (Enabled(trace[n], CommitStart(t)) <==> may && trace[n].tokens[t].pending.Some?)
  {
    hide Inv, Apply, Orderly, Init, Told;
    RunTold(trace, labels, n, t);
  }

  /** As long as the grant lives, its temp file is there, and is the upload, from the start of
      the upload until it is moved into place or removed, and not after: an upload that
      waits for its commit is not lost to a commit that fails, and one that is given up
      leaves nothing behind. */
  lemma TempFileExactly(trace: seq<State>, labels: seq<Label>, n: nat, t: Token)
    requires IsRun(trace, labels) && n < |trace| && t in trace[n].tokens
    ensures
      var y := Told(labels[..n], t);
      && y.schema.Some?
      && (y.at == There ==> y.schema.value in trace[n].tmp && trace[n].tmp[y.schema.value] == y.file)
      && (y.at == Removed ==> y.schema.value !in trace[n].tmp)
  {
    hide Inv, Apply, Orderly, Init, Told;
    RunTold(trace, labels, n, t);
  }
}
