/** What parsing a file leaves behind: the document that is active afterwards and its
    chunks, how long an attempt and a dispatcher's claim last, and that an upload or a
    reparse can be carried through to an active document. */
module IngestionEffects {
  import opened Options
  import opened Ingestion

  // ---------------------------------------------------------------------------
  // Activation

  // The attempt still holds the file, under a lease that has not run out, and the
  // file's checksum is unknown or the one that was parsed.
  predicate MayActivate(s: State, a: Activation) {
    && a.generation >= 1 && a.file in s.sources
    && var x := s.sources[a.file];
       && (x.project, x.generation, x.status, x.token) == (a.project, a.generation, Parsing, Some(a.token))
       && x.lease.Some? && s.now < x.lease.value && (x.checksum == None || x.checksum == Some(a.checksum))
  }

  // The file was parsed before with this checksum by this parser.
  ghost predicate Known(s: State, a: Activation) {
    exists d :: d in s.documents && IsDocument(s, d, a.file, Key(a.checksum, a.parser))
  }

  function ChunksOf(s: State, d: Id): set<Id> {
    set c | c in s.chunks && s.chunks[c].document == d
  }

  // Document d is what is parsed of the file now, with its chunks: those parsed, or
  // those it had if the file was known. No other document or chunk of the file is
  // active, and nothing else has changed.
  ghost predicate Activated(s: State, a: Activation, d: Id, n: State) {
    && n == s.(sources := n.sources, documents := n.documents, chunks := n.chunks)
    && a.file in s.sources && n.sources == s.sources[a.file := s.sources[a.file].(
         status := Done, token := None, lease := None, checksum := Some(a.checksum),
         activeKey := Some(Key(a.checksum, a.parser)))]
    && d in n.documents && n.documents[d] == Document(a.file, a.project, Key(a.checksum, a.parser), true)
    && n.documents.Keys == s.documents.Keys + {d} && (d in s.documents <==> Known(s, a))
    && (forall e | e in s.documents && e != d ::
          n.documents[e] == if s.documents[e].file == a.file then s.documents[e].(active := false) else s.documents[e])
    && ChunksActivated(s, a, d, n)
  }

  ghost predicate ChunksActivated(s: State, a: Activation, d: Id, n: State) {
    && n.chunks.Keys == s.chunks.Keys + ChunksOf(n, d)
    && ChunksOf(n, d) == (if Known(s, a) then ChunksOf(s, d) else a.chunks)
    && (forall c | c in ChunksOf(n, d) :: n.chunks[c] == Chunk(a.file, a.project, d, true))
    && (forall c | c in s.chunks && s.chunks[c].document != d ::
          n.chunks[c] == if s.chunks[c].file == a.file then s.chunks[c].(active := false) else s.chunks[c])
  }

  lemma CreationEffects(s: State, a: Activation, n: State)
    requires DocumentsOk(s) && FreshIds(s, a) && MayActivate(s, a) && !Known(s, a)
    requires n == Completed(Created(Deactivated(s, a.file), a), a)
    ensures Activated(s, a, a.document, n)
  {
    forall c | c in s.chunks ensures s.chunks[c].document != a.document { assert ChunkOk(s, c); }
    assert ChunksOf(n, a.document) == a.chunks;
  }

  // The document is the active one: its chunks are too, and no others of the file.
  lemma KeepingEffects(s: State, a: Activation, d: Id, n: State)
    requires DocumentsOk(s) && MayActivate(s, a) && IsDocument(s, d, a.file, Key(a.checksum, a.parser)) && s.documents[d].active
    requires n == Completed(s, a)
    ensures Activated(s, a, d, n)
  {
    assert DocumentOk(s, d);
    ActiveIsUnique(s, d);
    KeptChunks(s, a, d, n);
  }

  lemma KeptChunks(s: State, a: Activation, d: Id, n: State)
    requires DocumentsOk(s) && d in s.documents && IsDocument(s, d, a.file, Key(a.checksum, a.parser)) && s.documents[d].active
    requires n.chunks == s.chunks && s.documents[d].project == a.project
    requires forall e | e in s.documents && s.documents[e].active && s.documents[e].file == a.file :: e == d
    ensures ChunksActivated(s, a, d, n)
  {
    assert ChunksOf(n, d) == ChunksOf(s, d) && Known(s, a);
    forall c | c in s.chunks ensures s.chunks[c].document == d ==> s.chunks[c] == Chunk(a.file, a.project, d, true)
      ensures s.chunks[c].document != d && s.chunks[c].file == a.file ==> !s.chunks[c].active
    {
      assert ChunkOk(s, c);
    }
  }

  lemma RevivalEffects(s: State, a: Activation, d: Id, n: State)
    requires DocumentsOk(s) && MayActivate(s, a) && IsDocument(s, d, a.file, Key(a.checksum, a.parser)) && !s.documents[d].active
    requires n == Completed(Reactivated(Deactivated(s, a.file), d), a)
    ensures Activated(s, a, d, n)
  {
    assert DocumentOk(s, d);
    RevivedChunks(s, a, d, n);
  }

  lemma RevivedChunks(s: State, a: Activation, d: Id, n: State)
    requires DocumentsOk(s) && d in s.documents && IsDocument(s, d, a.file, Key(a.checksum, a.parser))
    requires n.chunks == Reactivated(Deactivated(s, a.file), d).chunks && s.documents[d].project == a.project
    ensures ChunksActivated(s, a, d, n)
  {
    forall c | c in s.chunks && s.chunks[c].document == d
      ensures s.chunks[c].file == a.file && s.chunks[c].project == a.project
    {
      assert ChunkOk(s, c);
    }
    assert n.chunks.Keys == s.chunks.Keys && ChunksOf(n, d) == ChunksOf(s, d) && Known(s, a);
  }

  lemma RefusalIs(s: State, a: Activation)
    ensures Refusal(s, a).None? <==> MayActivate(s, a)
  {}

  // An activation succeeds exactly for an attempt that still holds the file, and then
  // the parsed document is the file's active one with its chunks.
  lemma ActivationEffects(s: State, a: Activation) returns (d: Id)
    requires DocumentsOk(s) && FreshIds(s, a)
    ensures ActivateTx(s, a).Ok? <==> MayActivate(s, a)
    ensures if MayActivate(s, a) then Activated(s, a, d, Step(s, DoActivate(a))) else Step(s, DoActivate(a)) == s
    ensures d == match FindDocument(s, a.file, Key(a.checksum, a.parser)) case Some(e) => e case None => a.document
  {
    RefusalIs(s, a);
    FindsDocument(s, a.file, Key(a.checksum, a.parser));
    var found := FindDocument(s, a.file, Key(a.checksum, a.parser));
    d := if found.Some? then found.value else a.document;
    if MayActivate(s, a) {
      var n := Step(s, DoActivate(a));
      if found.None? {
        CreationEffects(s, a, n);
      } else if s.documents[d].active {
        KeepingEffects(s, a, d, n);
      } else {
        RevivalEffects(s, a, d, n);
      }
    }
  }

  // ---------------------------------------------------------------------------
  // Attempts

  // Waiting to be parsed, failed, or held by an attempt whose lease has run out.
  predicate Takeable(s: State, f: File, project: Id, generation: nat) {
    && f in s.sources && (s.sources[f].project, s.sources[f].generation) == (project, generation)
    && match s.sources[f].status
       case Pending => true
       case Failed => true
       case Parsing => s.sources[f].lease == None || s.sources[f].lease.value <= s.now
       case Done => false
  }

  predicate IsHeld(s: State, f: File, project: Id, generation: nat, token: Id) {
    && f in s.sources
    && var x := s.sources[f]; x.project == project && x.generation == generation && x.status == Parsing && x.token == Some(token)
  }

  // Since the attempt took the file at the given time, its lease is what it was.
  ghost predicate HeldSince(s: State, f: File, token: Id, taken: Micros) {
    token in s.tokens && (f in s.sources && s.sources[f].token == Some(token) ==> s.sources[f].lease == Some(taken + 180_000_000))
  }

  lemma StepKeepsHeld(s: State, a: Action, f: File, token: Id, taken: Micros)
    requires HeldSince(s, f, token, taken)
    ensures HeldSince(Step(s, a), f, token, taken)
  {
    if OutboxAction(a) {
      OutboxActionsKeepSources(s, a);
      TokensKept(s, a);
    } else if a.DoActivate? {
      ActivationKeepsToken(s, a.activation, f);
    }
  }

  lemma TokensKept(s: State, a: Action)
    requires OutboxAction(a)
    ensures Step(s, a).tokens == s.tokens
  {}

  lemma ActivationKeepsToken(s: State, a: Activation, f: File)
    ensures var n := Step(s, DoActivate(a));
      n.tokens == s.tokens && (f in n.sources && n.sources[f].token.Some? ==> f in s.sources && n.sources[f] == s.sources[f])
  {}

  lemma {:induction false} RunKeepsHeld(s: State, actions: seq<Action>, f: File, token: Id, taken: Micros)
    requires HeldSince(s, f, token, taken)
    ensures HeldSince(Run(s, actions), f, token, taken)
    decreases |actions|
  {
    if actions != [] {
      StepKeepsHeld(s, actions[0], f, token, taken);
      RunKeepsHeld(Step(s, actions[0]), actions[1..], f, token, taken);
    }
  }

  // A worker takes a file exactly when it is free. Whatever happens then, as long as
  // the file is held under its token, nobody can take it and the worker may activate
  // for 180 seconds; from then on it is the other way round.
  lemma AttemptLease(s: State, f: File, project: Id, generation: nat, token: Id, actions: seq<Action>)
    requires generation >= 1 && token !in s.tokens
    ensures var n := Step(s, DoClaimParse(f, project, generation, token));
      if !Takeable(s, f, project, generation) then n == s else
        && IsHeld(n, f, project, generation, token) && n.sources.Keys == s.sources.Keys
        && (forall x | x in s.sources && x != f :: n.sources[x] == s.sources[x])
        && var later := Run(n, actions);
           IsHeld(later, f, project, generation, token) ==>
             && (Takeable(later, f, project, generation) <==> later.now >= s.now + 180_000_000)
             && (forall a: Activation | (a.file, a.project, a.generation, a.token) == (f, project, generation, token) ::
                   (MayActivate(later, a)
                    <==> later.now < s.now + 180_000_000 && later.sources[f].checksum in {None, Some(a.checksum)}))
  {
    var n := Step(s, DoClaimParse(f, project, generation, token));
    if Takeable(s, f, project, generation) {
      assert HeldSince(n, f, token, s.now);
      RunKeepsHeld(n, actions, f, token, s.now);
    }
  }

  // Only the attempt's own failure frees the file early.
  lemma FailureFrees(s: State, f: File, project: Id, generation: nat, token: Id)
    ensures var n := Step(s, DoFailParse(f, project, generation, token));
      if IsHeld(s, f, project, generation, token)
      then n == s.(sources := s.sources[f := s.sources[f].(status := Failed, token := None, lease := None)])
           && Takeable(n, f, project, generation)
      else n == s
  {}

  // ---------------------------------------------------------------------------
  // Dispatchers

  ghost predicate LeasedSince(s: State, e: Event, taken: Micros) {
    && e.owner in s.owners
    && (e.file in s.outbox && s.outbox[e.file].owner == Some(e.owner) ==>
          !s.outbox[e.file].published && s.outbox[e.file].expires == taken + 60_000_000 && s.outbox[e.file].nextAttempt <= taken)
  }

  lemma StepKeepsLease(s: State, a: Action, e: Event, taken: Micros)
    requires OutboxOk(s) && LeasedSince(s, e, taken) && e in s.events
    requires !(a.DoRenew? && a.event.file == e.file && a.event.owner == e.owner)
    ensures LeasedSince(Step(s, a), e, taken) && e in Step(s, a).events
  {
    if a.DoClaimParse? || a.DoActivate? || a.DoFailParse? || a.DoTombstone? || a.JobDone? || a.Tick? {
      SourceActionsFrame(s, a);
    } else if a.DoClaimOutbox? {
      ClaimKeepsLease(s, a.owner, a.files, e, taken);
    } else {
      RowsKeepLease(s, a, e, taken);
    }
  }

  lemma ClaimKeepsLease(s: State, owner: Id, files: set<File>, e: Event, taken: Micros)
    requires LeasedSince(s, e, taken) && e in s.events
    ensures LeasedSince(ClaimOutbox(s, owner, files), e, taken) && e in ClaimOutbox(s, owner, files).events
  {}

  lemma RowsKeepLease(s: State, a: Action, e: Event, taken: Micros)
    requires LeasedSince(s, e, taken) && e in s.events
    requires a.DoUpload? || a.DoReparse? || a.DoEnqueue? || a.DoMarkPublished? || a.DoBackOff?
      || (a.DoRenew? && !(a.event.file == e.file && a.event.owner == e.owner))
    ensures LeasedSince(Step(s, a), e, taken) && e in Step(s, a).events
  {}

  lemma {:induction false} RunKeepsLease(s: State, actions: seq<Action>, e: Event, taken: Micros)
    requires OutboxOk(s) && LeasedSince(s, e, taken) && e in s.events
    requires forall a | a in actions :: !(a.DoRenew? && a.event.file == e.file && a.event.owner == e.owner)
    ensures LeasedSince(Run(s, actions), e, taken)
    decreases |actions|
  {
    if actions != [] {
      StepKeepsLease(s, actions[0], e, taken);
      StepKeepsOutbox(s, actions[0]);
      RunKeepsLease(Step(s, actions[0]), actions[1..], e, taken);
    }
  }

  // A dispatcher's claim, or its renewal, keeps the row for sixty seconds: as long as
  // it is the owner's, it is due again exactly from then on.
  lemma DispatcherLease(s: State, a: Action, e: Event, actions: seq<Action>)
    requires OutboxOk(s) && Holds(Step(s, a), e) && s.outbox[e.file].nextAttempt <= s.now
    requires (a.DoClaimOutbox? && a.owner == e.owner && e.owner !in s.owners && e.file in s.outbox)
      || (a == DoRenew(e) && Holds(s, e))
    requires forall x | x in actions :: !(x.DoRenew? && x.event.file == e.file && x.event.owner == e.owner)
    ensures var later := Run(Step(s, a), actions);
      Holds(later, e) ==> (Due(later.outbox[e.file], later.now) <==> later.now >= s.now + 60_000_000)
  {
    LeaseIsWritten(s, a, e);
    StepKeepsOutbox(s, a);
    RunKeepsLease(Step(s, a), actions, e, s.now);
  }

  lemma LeaseIsWritten(s: State, a: Action, e: Event)
    requires OutboxOk(s) && Holds(Step(s, a), e) && e.file in s.outbox && s.outbox[e.file].nextAttempt <= s.now
    requires (a.DoClaimOutbox? && a.owner == e.owner && e.owner !in s.owners) || (a == DoRenew(e) && Holds(s, e))
    ensures LeasedSince(Step(s, a), e, s.now)
  {
    assert RowOk(s, e.file);
  }

  // ---------------------------------------------------------------------------
  // From upload or reparse to the active document

  // A generation of a file that nobody has begun to parse.
  ghost predicate Fresh(s: State, f: File, project: Id, generation: nat) {
    && generation >= 1 && Takeable(s, f, project, generation)
    && f in s.outbox && Due(s.outbox[f], s.now)
    && s.outbox[f].generation == generation && s.outbox[f].job == JobOf(f, generation)
  }

  // An upload is a first generation that waits to be parsed.
  lemma UploadIsFresh(s: State, f: File, project: Id, checksum: Option<Id>)
    requires f !in s.sources
    ensures var n := Step(s, DoUpload(f, project, checksum));
      && Fresh(n, f, project, 1) && n.sources[f].checksum == checksum && n.sources[f].activeKey.None? && !n.sources[f].deleted
      && n == s.(sources := s.sources[f := n.sources[f]], outbox := s.outbox[f := n.outbox[f]])
  {}

  // A reparse is a next generation that does: no attempt holds the file any more, and
  // what was parsed before stays active meanwhile.
  lemma ReparseIsFresh(s: State, f: File, project: Id)
    requires OutboxOk(s) && f in s.sources && s.sources[f].project == project
    ensures var n, g := Step(s, DoReparse(f, project)), s.sources[f].generation;
      && Fresh(n, f, project, g + 1)
      && (forall token, h :: !IsHeld(n, f, project, h, token))
      && (forall e | e in s.events && e.file == f && e.owner in s.owners :: !Holds(n, e))
      && n.sources[f].activeKey == s.sources[f].activeKey && n.sources[f].checksum == s.sources[f].checksum
      && n == s.(sources := s.sources[f := n.sources[f]], outbox := s.outbox[f := n.outbox[f]])
  {
    assert RowOk(s, f);
    var n := Step(s, DoReparse(f, project));
    assert n == ReparseTx(s, f, project) && n.sources[f].status == Pending;
    forall token, g ensures !IsHeld(n, f, project, g, token) {}
  }

  // A deletion leaves nothing of the file active and no attempt holding it.
  lemma TombstoneClears(s: State, f: File, project: Id)
    requires DocumentsOk(s) && f in s.sources && s.sources[f].project == project && !s.sources[f].deleted
    ensures var n := Step(s, DoTombstone(f, project));
      && n.sources[f].deleted && n.sources[f].activeKey.None? && n.sources[f].token.None?
      && n.sources[f].generation == s.sources[f].generation
      && n.sources.Keys == s.sources.Keys && (forall x | x in s.sources && x != f :: n.sources[x] == s.sources[x])
      && n.documents.Keys == s.documents.Keys && n.chunks.Keys == s.chunks.Keys
      && (forall d | d in s.documents :: n.documents[d] ==
            if s.documents[d].file == f then s.documents[d].(active := false) else s.documents[d])
      && (forall c | c in s.chunks :: n.chunks[c] ==
            if s.chunks[c].file == f then s.chunks[c].(active := false) else s.chunks[c])
      && n == s.(sources := n.sources, documents := n.documents, chunks := n.chunks)
      && Step(n, DoTombstone(f, project)) == n
  {
    forall d | d in s.documents && s.documents[d].file == f ensures s.documents[d].project == project {
      assert DocumentOk(s, d);
    }
    forall c | c in s.chunks && s.chunks[c].file == f ensures s.chunks[c].project == project { assert ChunkOk(s, c); }
  }

  // One dispatcher and one worker that meet nobody else.
  function Journey(a: Activation, owner: Id): seq<Action> {
    var e := Event(a.file, a.generation, JobOf(a.file, a.generation), owner);
    [DoClaimOutbox(owner, {a.file}), DoEnqueue(e), DoMarkPublished(e)]
    + [DoClaimParse(a.file, a.project, a.generation, a.token), DoActivate(a)]
  }

  lemma FreshIsClaimed(s: State, e: Event)
    requires e.file in s.outbox && Due(s.outbox[e.file], s.now) && e.owner !in s.owners
    requires e == Event(e.file, s.outbox[e.file].generation, s.outbox[e.file].job, e.owner)
    ensures var n := Step(s, DoClaimOutbox(e.owner, {e.file}));
      Holds(n, e) && n == s.(outbox := n.outbox, events := n.events, owners := n.owners)
  {
    var hits := set x | x in {e.file} && x in s.outbox && Due(s.outbox[x], s.now);
    assert hits == {e.file};
    assert Step(s, DoClaimOutbox(e.owner, {e.file})) == ClaimOutbox(s, e.owner, {e.file});
  }

  lemma ClaimedIsSent(s: State, e: Event)
    requires Holds(s, e)
    ensures var n := Step(Step(s, DoEnqueue(e)), DoMarkPublished(e));
      e.file in n.outbox && n.outbox[e.file].published && e in n.sent
      && n == s.(outbox := n.outbox, queue := n.queue, sent := n.sent, enqueued := n.enqueued)
  {
    var m := Step(s, DoEnqueue(e));
    assert m == Enqueue(s, e) && Holds(m, e) && e in m.sent;
    assert Step(m, DoMarkPublished(e)) == MarkPublished(m, e);
  }

  lemma FreshIsPublished(s: State, f: File, project: Id, generation: nat, owner: Id)
    requires OutboxOk(s) && Fresh(s, f, project, generation) && owner !in s.owners
    ensures var e := Event(f, generation, JobOf(f, generation), owner);
      var n := Step(Step(Step(s, DoClaimOutbox(owner, {f})), DoEnqueue(e)), DoMarkPublished(e));
      && f in n.outbox && n.outbox[f].published && Job(f, generation) in n.enqueued
      && n.sources == s.sources && n.documents == s.documents && n.chunks == s.chunks && n.tokens == s.tokens && n.now == s.now
  {
    var e := Event(f, generation, JobOf(f, generation), owner);
    var m1 := Step(s, DoClaimOutbox(owner, {f}));
    FreshIsClaimed(s, e);
    ClaimedIsSent(m1, e);
    StepKeepsOutbox(s, DoClaimOutbox(owner, {f}));
    StepKeepsOutbox(m1, DoEnqueue(e));
    StepKeepsOutbox(Step(m1, DoEnqueue(e)), DoMarkPublished(e));
  }

  lemma FreshIsActivated(s: State, a: Activation) returns (d: Id)
    requires DocumentsOk(s) && Takeable(s, a.file, a.project, a.generation) && a.generation >= 1
    requires a.token !in s.tokens && FreshIds(s, a) && s.sources[a.file].checksum in {None, Some(a.checksum)}
    ensures var n := Step(Step(s, DoClaimParse(a.file, a.project, a.generation, a.token)), DoActivate(a));
      d in n.documents && n.documents[d] == Document(a.file, a.project, Key(a.checksum, a.parser), true)
      && a.file in n.sources && n.sources[a.file].status == Done
      && n.sources[a.file].activeKey == Some(Key(a.checksum, a.parser))
      && ChunksOf(n, d) == (if Known(s, a) then ChunksOf(s, d) else a.chunks)
      && forall c | c in ChunksOf(n, d) :: n.chunks[c].active
  {
    var m := Step(s, DoClaimParse(a.file, a.project, a.generation, a.token));
    StepKeepsDocuments(s, DoClaimParse(a.file, a.project, a.generation, a.token));
    assert MayActivate(m, a);
    d := ActivationEffects(m, a);
    assert Known(m, a) <==> Known(s, a);
    assert ChunksOf(m, d) == ChunksOf(s, d);
  }

  lemma JourneyRuns(s: State, a: Activation, owner: Id)
    ensures var e := Event(a.file, a.generation, JobOf(a.file, a.generation), owner);
      var published := Step(Step(Step(s, DoClaimOutbox(owner, {a.file})), DoEnqueue(e)), DoMarkPublished(e));
      Run(s, Journey(a, owner))
      == Step(Step(published, DoClaimParse(a.file, a.project, a.generation, a.token)), DoActivate(a))
  {
    var e := Event(a.file, a.generation, JobOf(a.file, a.generation), owner);
    var x1, x2, x3 := DoClaimOutbox(owner, {a.file}), DoEnqueue(e), DoMarkPublished(e);
    var x4, x5 := DoClaimParse(a.file, a.project, a.generation, a.token), DoActivate(a);
    var s3 := Step(Step(Step(s, x1), x2), x3);
    var all := Journey(a, owner);
    assert all == [x1, x2, x3, x4, x5];
    assert all[1..] == [x2, x3, x4, x5] && [x2, x3, x4, x5][1..] == [x3, x4, x5] && [x3, x4, x5][1..] == [x4, x5];
    assert [x4, x5][1..] == [x5] && [x5][1..] == [];
    assert Run(Step(s3, x4), [x5]) == Step(Step(s3, x4), x5);
    assert Run(s3, [x4, x5]) == Run(Step(s3, x4), [x5]);
    assert Run(Step(Step(s, x1), x2), [x3, x4, x5]) == Run(s3, [x4, x5]);
    assert Run(Step(s, x1), [x2, x3, x4, x5]) == Run(Step(Step(s, x1), x2), [x3, x4, x5]);
  }

  // Whatever happened before, a fresh generation can be carried through: its job is
  // enqueued, and the parsed document is active with its chunks.
  lemma FreshCanBeParsed(s: State, a: Activation, owner: Id) returns (d: Id)
    requires DocumentsOk(s) && OutboxOk(s) && Fresh(s, a.file, a.project, a.generation) && owner !in s.owners
    requires a.token !in s.tokens && FreshIds(s, a) && s.sources[a.file].checksum in {None, Some(a.checksum)}
    ensures var n := Run(s, Journey(a, owner));
      && Job(a.file, a.generation) in n.enqueued && a.file in n.outbox && n.outbox[a.file].published
      && d in n.documents && n.documents[d] == Document(a.file, a.project, Key(a.checksum, a.parser), true)
      && a.file in n.sources && n.sources[a.file].status == Done
      && ChunksOf(n, d) == (if Known(s, a) then ChunksOf(s, d) else a.chunks)
      && forall c | c in ChunksOf(n, d) :: n.chunks[c].active
  {
    var e := Event(a.file, a.generation, JobOf(a.file, a.generation), owner);
    FreshIsPublished(s, a.file, a.project, a.generation, owner);
    var m := Step(Step(Step(s, DoClaimOutbox(owner, {a.file})), DoEnqueue(e)), DoMarkPublished(e));
    SameDocuments(s, m);
    assert Takeable(m, a.file, a.project, a.generation);
    d := FreshIsActivated(m, a);
    JourneyRuns(s, a, owner);
    var taken := Step(m, DoClaimParse(a.file, a.project, a.generation, a.token));
    SourceActionsFrame(m, DoClaimParse(a.file, a.project, a.generation, a.token));
    SourceActionsFrame(taken, DoActivate(a));
    assert Known(m, a) <==> Known(s, a);
    assert ChunksOf(m, d) == ChunksOf(s, d);
  }

  lemma SameDocuments(s: State, m: State)
    requires DocumentsOk(s) && m.sources == s.sources && m.documents == s.documents && m.chunks == s.chunks
    ensures DocumentsOk(m)
  {
    forall d | d in m.documents ensures DocumentOk(m, d) { assert DocumentOk(s, d); }
    forall f | f in m.sources ensures ActiveNamed(m, f) {
      assert ActiveNamed(s, f);
      if s.sources[f].activeKey.Some? {
        var d :| IsDocument(s, d, f, s.sources[f].activeKey.value) && s.documents[d].active;
        assert IsDocument(m, d, f, m.sources[f].activeKey.value);
      }
    }
    forall c | c in m.chunks ensures ChunkOk(m, c) { assert ChunkOk(s, c); }
  }
}
