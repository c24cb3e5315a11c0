/** Parse attempts, ingestion activation and the parse outbox: generations,
    attempt tokens and leases against concurrent workers, reparse and tombstones. */
module Ingestion {
  import opened Options

  type Id = nat
  type File = nat
  type Micros = nat

  const SECOND: Micros := 1_000_000
  const PARSE_LEASE: Micros := 180 * SECOND
  const CLAIM_LEASE: Micros := 60 * SECOND

  datatype ParseStatus = Pending | Parsing | Done | Failed
  // createIngestionKey hashes these together; equal keys mean equal parts.
  datatype Key = Key(checksum: Id, parser: Id)
  datatype Source = Source(
    project: Id, generation: nat, status: ParseStatus, token: Option<Id>, lease: Option<Micros>,
    checksum: Option<Id>, activeKey: Option<Key>, deleted: bool)
  datatype Document = Document(file: File, project: Id, key: Key, active: bool)
  datatype Chunk = Chunk(file: File, project: Id, document: Id, active: bool)

  // The one outbox row of a file, and the jobs of the parse queue by job id.
  datatype JobId = FirstParse(file: File) | Reparse(file: File, generation: nat)
  datatype Job = Job(file: File, generation: nat)
  datatype Row = Row(
    generation: nat, job: JobId, published: bool, owner: Option<Id>, expires: Micros, nextAttempt: Micros)
  // A claimed row in a dispatcher's hands; sent once the queue accepted its job.
  datatype Event = Event(file: File, generation: nat, job: JobId, owner: Id)

  datatype State = State(
    now: Micros, sources: map<File, Source>, documents: map<Id, Document>, chunks: map<Id, Chunk>,
    outbox: map<File, Row>, queue: map<JobId, Job>, enqueued: set<Job>, events: set<Event>,
    sent: set<Event>, tokens: set<Id>, owners: set<Id>)

  datatype Error =
    | InvalidGeneration | WrongProject | StaleGeneration | StaleAttempt | ChecksumChanged

  datatype Activation = Activation(
    file: File, project: Id, generation: nat, token: Id, checksum: Id, parser: Id, document: Id,
    chunks: set<Id>)

  // ---------------------------------------------------------------------------
  // Parse attempts

  predicate Claimable(s: State, f: File, project: Id, generation: nat) {
    f in s.sources
    && var x := s.sources[f];
       x.project == project && x.generation == generation
       && (x.status.Pending? || x.status.Failed?
           || (x.status.Parsing? && (x.lease.None? || x.lease.value <= s.now)))
  }

  // The conditional UPDATE of handleParse. What the worker read before is stale by
  // now, so only the WHERE clause counts.
  function ClaimParse(s: State, f: File, project: Id, generation: nat, token: Id): State {
    if generation < 1 || token in s.tokens || !Claimable(s, f, project, generation) then s
    else s.(
      sources := s.sources[f := s.sources[f].(
        status := Parsing, token := Some(token), lease := Some(s.now + PARSE_LEASE))],
      tokens := s.tokens + {token})
  }

  predicate HoldsAttempt(s: State, f: File, project: Id, generation: nat, token: Id) {
    f in s.sources
    && var x := s.sources[f];
       x.project == project && x.generation == generation && x.status.Parsing? && x.token == Some(token)
  }

  function FailParse(s: State, f: File, project: Id, generation: nat, token: Id): State {
    if !HoldsAttempt(s, f, project, generation, token) then s
    else s.(sources := s.sources[f := s.sources[f].(status := Failed, token := None, lease := None)])
  }

  // ---------------------------------------------------------------------------
  // Activation

  predicate IsDocument(s: State, d: Id, f: File, key: Key) {
    d in s.documents && s.documents[d].file == f && s.documents[d].key == key
  }

  function Deactivated(s: State, f: File): State {
    s.(documents := map d | d in s.documents ::
         if s.documents[d].file == f then s.documents[d].(active := false) else s.documents[d],
       chunks := map c | c in s.chunks ::
         if s.chunks[c].file == f then s.chunks[c].(active := false) else s.chunks[c])
  }

  function Reactivated(s: State, d: Id): State
    requires d in s.documents
  {
    s.(documents := s.documents[d := s.documents[d].(active := true)],
       chunks := map c | c in s.chunks ::
         if s.chunks[c].document == d then s.chunks[c].(active := true) else s.chunks[c])
  }

  function Created(s: State, a: Activation): State {
    s.(documents := s.documents[a.document := Document(a.file, a.project, Key(a.checksum, a.parser), true)],
       chunks := map c | c in s.chunks.Keys + a.chunks ::
         if c in a.chunks then Chunk(a.file, a.project, a.document, true) else s.chunks[c])
  }

  function Completed(s: State, a: Activation): State
    requires a.file in s.sources
  {
    s.(sources := s.sources[a.file := s.sources[a.file].(
      status := Done, token := None, lease := None, checksum := Some(a.checksum),
      activeKey := Some(Key(a.checksum, a.parser)))])
  }

  // The attempt still owns the file when the row lock is taken.
  function Refusal(s: State, a: Activation): Option<Error> {
    if a.generation < 1 then Some(InvalidGeneration)
    else if a.file !in s.sources || s.sources[a.file].project != a.project then Some(WrongProject)
    else
      var x := s.sources[a.file];
      if x.generation != a.generation then Some(StaleGeneration)
      else if !x.status.Parsing? || x.token != Some(a.token) then Some(StaleAttempt)
      else if x.lease.None? || x.lease.value <= s.now then Some(StaleAttempt)
      else if x.checksum.Some? && x.checksum.value != a.checksum then Some(ChecksumChanged)
      else None
  }

  // The document with this file and key; uq_documents_file_ingestion allows one.
  predicate IsTheDocument(s: State, d: Id, f: File, key: Key) {
    IsDocument(s, d, f, key) && forall e | e in s.documents && IsDocument(s, e, f, key) :: e == d
  }

  function FindDocument(s: State, f: File, key: Key): Option<Id> {
    if exists d | d in s.documents :: IsTheDocument(s, d, f, key)
    then var d :| d in s.documents && IsTheDocument(s, d, f, key); Some(d)
    else None
  }

  lemma FindsDocument(s: State, f: File, key: Key)
    requires KeysUnique(s)
    ensures match FindDocument(s, f, key)
      case Some(d) => IsDocument(s, d, f, key)
      case None => forall d | d in s.documents :: !IsDocument(s, d, f, key)
  {
    forall d | d in s.documents && IsDocument(s, d, f, key) ensures IsTheDocument(s, d, f, key) {}
  }

  function ActivateTx(s: State, a: Activation): Result<State, Error> {
    if Refusal(s, a).Some? then Err(Refusal(s, a).value)
    else
      match FindDocument(s, a.file, Key(a.checksum, a.parser))
      case Some(d) =>
        Ok(Completed(if s.documents[d].active then s else Reactivated(Deactivated(s, a.file), d), a))
      case None => Ok(Completed(Created(Deactivated(s, a.file), a), a))
  }

  // ---------------------------------------------------------------------------
  // Uploads, reparse, tombstones and the outbox

  function JobOf(f: File, generation: nat): JobId {
    if generation == 1 then FirstParse(f) else Reparse(f, generation)
  }

  function CommitUpload(s: State, f: File, project: Id, checksum: Option<Id>): State {
    if f in s.sources then s
    else s.(
      sources := s.sources[f := Source(project, 1, Pending, None, None, checksum, None, false)],
      outbox := s.outbox[f := Row(1, FirstParse(f), false, None, 0, s.now)])
  }

  function ReparseTx(s: State, f: File, project: Id): State {
    if f !in s.sources || s.sources[f].project != project then s
    else
      var next := s.sources[f].generation + 1;
      s.(sources := s.sources[f := s.sources[f].(
           generation := next, status := Pending, token := None, lease := None)],
         outbox := s.outbox[f := Row(next, Reparse(f, next), false, None, 0, s.now)])
  }

  function TombstoneTx(s: State, f: File, project: Id): State {
    if f !in s.sources || s.sources[f].project != project || s.sources[f].deleted then s
    else s.(
      sources := s.sources[f := s.sources[f].(deleted := true, activeKey := None, token := None, lease := None)],
      documents := map d | d in s.documents ::
        if s.documents[d].file == f && s.documents[d].project == project
        then s.documents[d].(active := false) else s.documents[d],
      chunks := map c | c in s.chunks ::
        if s.chunks[c].file == f && s.chunks[c].project == project
        then s.chunks[c].(active := false) else s.chunks[c])
  }

  predicate Due(r: Row, now: Micros) {
    !r.published && r.nextAttempt <= now && (r.owner.None? || r.expires <= now)
  }

  // claimRetryBatch under a fresh owner, and the rows it then finds as its own.
  function ClaimOutbox(s: State, owner: Id, files: set<File>): State {
    if owner in s.owners then s
    else
      var hits := set f | f in files && f in s.outbox && Due(s.outbox[f], s.now);
      s.(outbox := map f | f in s.outbox ::
           if f in hits then s.outbox[f].(owner := Some(owner), expires := s.now + CLAIM_LEASE) else s.outbox[f],
         events := s.events + (set f | f in hits :: Event(f, s.outbox[f].generation, s.outbox[f].job, owner)),
         owners := s.owners + {owner})
  }

  predicate Holds(s: State, e: Event) {
    e in s.events && e.file in s.outbox && s.outbox[e.file].owner == Some(e.owner)
  }

  // Adding a job whose id the queue still knows is a no-op.
  function Enqueue(s: State, e: Event): State {
    if e !in s.events then s
    else if e.job in s.queue then s.(sent := s.sent + {e})
    else s.(queue := s.queue[e.job := Job(e.file, e.generation)], sent := s.sent + {e},
            enqueued := s.enqueued + {Job(e.file, e.generation)})
  }

  function MarkPublished(s: State, e: Event): State {
    if e !in s.sent || !Holds(s, e) then s
    else s.(outbox := s.outbox[e.file := s.outbox[e.file].(published := true, owner := None)])
  }

  function BackOff(s: State, e: Event, delay: Micros): State {
    if !Holds(s, e) then s
    else s.(outbox := s.outbox[e.file := s.outbox[e.file].(owner := None, nextAttempt := s.now + delay)])
  }

  // ---------------------------------------------------------------------------
  // Runs

  datatype Action =
    | DoUpload(file: File, project: Id, checksum: Option<Id>)
    | DoClaimParse(file: File, project: Id, generation: nat, token: Id)
    | DoActivate(activation: Activation)
    | DoFailParse(file: File, project: Id, generation: nat, token: Id)
    | DoReparse(file: File, project: Id)
    | DoTombstone(file: File, project: Id)
    | DoClaimOutbox(owner: Id, files: set<File>)
    | DoRenew(event: Event)
    | DoEnqueue(event: Event)
    | DoMarkPublished(event: Event)
    | DoBackOff(event: Event, delay: Micros)
    | JobDone(job: JobId)
    | Tick(elapsed: Micros)

  // A new document and its chunks have ids of their own.
  predicate FreshIds(s: State, a: Activation) {
    a.document !in s.documents && a.chunks !! s.chunks.Keys
  }

  function Step(s: State, a: Action): State {
    match a
    case DoUpload(f, p, c) => CommitUpload(s, f, p, c)
    case DoClaimParse(f, p, g, t) => ClaimParse(s, f, p, g, t)
    case DoActivate(x) =>
      if !FreshIds(s, x) then s else (match ActivateTx(s, x) case Ok(n) => n case Err(_) => s)
    case DoFailParse(f, p, g, t) => FailParse(s, f, p, g, t)
    case DoReparse(f, p) => ReparseTx(s, f, p)
    case DoTombstone(f, p) => TombstoneTx(s, f, p)
    case DoClaimOutbox(o, files) => ClaimOutbox(s, o, files)
    case DoRenew(e) =>
      if Holds(s, e) then s.(outbox := s.outbox[e.file := s.outbox[e.file].(expires := s.now + CLAIM_LEASE)]) else s
    case DoEnqueue(e) => Enqueue(s, e)
    case DoMarkPublished(e) => MarkPublished(s, e)
    case DoBackOff(e, d) => BackOff(s, e, d)
    case JobDone(j) => s.(queue := s.queue - {j})
    case Tick(dt) => s.(now := s.now + dt)
  }

  function Run(s: State, actions: seq<Action>): State
    decreases |actions|
  {
    if actions == [] then s else Run(Step(s, actions[0]), actions[1..])
  }

  const START := State(0, map[], map[], map[], map[], map[], {}, {}, {}, {}, {})

  // ---------------------------------------------------------------------------
  // Documents, chunks and the active key

  // At most one active document per file, chunks active with their document, and
  // the source's active key naming the active document.
  ghost predicate DocumentOk(s: State, d: Id)
    requires d in s.documents
  {
    var x := s.documents[d];
    && x.file in s.sources && s.sources[x.file].project == x.project
    && (x.active ==> s.sources[x.file].activeKey == Some(x.key))
  }

  ghost predicate ActiveNamed(s: State, f: File)
    requires f in s.sources
  {
    s.sources[f].activeKey.Some? ==>
      exists d :: IsDocument(s, d, f, s.sources[f].activeKey.value) && s.documents[d].active
  }

  ghost predicate ChunkOk(s: State, c: Id)
    requires c in s.chunks
  {
    var x := s.chunks[c];
    && x.document in s.documents && x.file == s.documents[x.document].file
    && x.project == s.documents[x.document].project && x.active == s.documents[x.document].active
  }

  ghost predicate KeysUnique(s: State) {
    forall d, e | d in s.documents && e in s.documents ::
      s.documents[d].file == s.documents[e].file && s.documents[d].key == s.documents[e].key ==> d == e
  }

  ghost predicate DocumentsOk(s: State) {
    && (forall d {:trigger DocumentOk(s, d)} | d in s.documents :: DocumentOk(s, d))
    && (forall f {:trigger ActiveNamed(s, f)} | f in s.sources :: ActiveNamed(s, f))
    && (forall c {:trigger ChunkOk(s, c)} | c in s.chunks :: ChunkOk(s, c))
    && KeysUnique(s)
  }

  // A step that makes d the active document of f, or leaves f without one, and
  // keeps its chunks in line, keeps everything in line.
  ghost predicate Switched(s: State, n: State, f: File, active: Option<Id>) {
    && f in s.sources && n.sources.Keys == s.sources.Keys
    && (forall x | x in s.sources :: n.sources[x].project == s.sources[x].project)
    && (forall x | x in s.sources && x != f :: n.sources[x].activeKey == s.sources[x].activeKey)
    && s.documents.Keys <= n.documents.Keys
    && (forall d | d in s.documents && s.documents[d].file != f :: n.documents[d] == s.documents[d])
    && (forall d | d in s.documents && s.documents[d].file == f ::
          n.documents[d] == s.documents[d].(active := active == Some(d)))
    && (forall d | d in n.documents && d !in s.documents :: active == Some(d)
          && n.documents[d].file == f && n.documents[d].project == s.sources[f].project && n.documents[d].active)
    && (active.Some? ==> active.value in n.documents && n.documents[active.value].file == f)
    && (active.Some? ==> n.sources[f].activeKey == Some(n.documents[active.value].key))
    && (active.None? ==> n.sources[f].activeKey.None?)
  }

  lemma SwitchKeepsDocuments(s: State, n: State, f: File, active: Option<Id>)
    requires DocumentsOk(s) && Switched(s, n, f, active) && KeysUnique(n)
    requires forall c | c in n.chunks :: ChunkOk(n, c)
    ensures DocumentsOk(n)
  {
    forall d | d in n.documents ensures DocumentOk(n, d) {
      if d in s.documents { assert DocumentOk(s, d); }
    }
    forall x | x in n.sources ensures ActiveNamed(n, x) {
      assert ActiveNamed(s, x);
      if x != f && s.sources[x].activeKey.Some? {
        var d :| IsDocument(s, d, x, s.sources[x].activeKey.value) && s.documents[d].active;
        assert IsDocument(n, d, x, n.sources[x].activeKey.value) && n.documents[d].active;
      }
      if x == f && active.Some? { assert IsDocument(n, active.value, f, n.sources[f].activeKey.value); }
    }
  }

  lemma ReactivateKeepsDocuments(s: State, a: Activation, d: Id)
    requires DocumentsOk(s) && a.file in s.sources && IsDocument(s, d, a.file, Key(a.checksum, a.parser))
    ensures DocumentsOk(Completed(if s.documents[d].active then s else Reactivated(Deactivated(s, a.file), d), a))
  {
    var n := Completed(if s.documents[d].active then s else Reactivated(Deactivated(s, a.file), d), a);
    ReactivateSwitches(s, a, d);
    ReactivateKeepsChunks(s, a, d);
    SwitchKeepsDocuments(s, n, a.file, Some(d));
  }

  lemma ReactivateSwitches(s: State, a: Activation, d: Id)
    requires DocumentsOk(s) && a.file in s.sources && IsDocument(s, d, a.file, Key(a.checksum, a.parser))
    ensures var n := Completed(if s.documents[d].active then s else Reactivated(Deactivated(s, a.file), d), a);
      Switched(s, n, a.file, Some(d)) && KeysUnique(n)
  {
    assert DocumentOk(s, d);
    if s.documents[d].active { KeepSwitches(s, a, d); } else { ReplaceSwitches(s, a, d); }
  }

  // The document is the active one already.
  lemma KeepSwitches(s: State, a: Activation, d: Id)
    requires DocumentsOk(s) && a.file in s.sources && IsDocument(s, d, a.file, Key(a.checksum, a.parser))
    requires s.documents[d].active
    ensures Switched(s, Completed(s, a), a.file, Some(d)) && KeysUnique(Completed(s, a))
  {
    ActiveIsUnique(s, d);
  }

  lemma ReplaceSwitches(s: State, a: Activation, d: Id)
    requires DocumentsOk(s) && a.file in s.sources && IsDocument(s, d, a.file, Key(a.checksum, a.parser))
    requires !s.documents[d].active
    ensures var n := Completed(Reactivated(Deactivated(s, a.file), d), a); Switched(s, n, a.file, Some(d)) && KeysUnique(n)
  {
    assert DocumentOk(s, d);
  }

  lemma ReactivateKeepsChunks(s: State, a: Activation, d: Id)
    requires DocumentsOk(s) && a.file in s.sources && IsDocument(s, d, a.file, Key(a.checksum, a.parser))
    ensures var n := Completed(if s.documents[d].active then s else Reactivated(Deactivated(s, a.file), d), a);
      forall c | c in n.chunks :: ChunkOk(n, c)
  {
    var n := Completed(if s.documents[d].active then s else Reactivated(Deactivated(s, a.file), d), a);
    forall c | c in n.chunks ensures ChunkOk(n, c) { assert ChunkOk(s, c); }
  }

  lemma CreateKeepsDocuments(s: State, a: Activation)
    requires DocumentsOk(s) && FreshIds(s, a) && a.file in s.sources && s.sources[a.file].project == a.project
    requires forall d | d in s.documents :: !IsDocument(s, d, a.file, Key(a.checksum, a.parser))
    ensures DocumentsOk(Completed(Created(Deactivated(s, a.file), a), a))
  {
    var n := Completed(Created(Deactivated(s, a.file), a), a);
    forall c | c in n.chunks ensures ChunkOk(n, c) {
      if c !in a.chunks { assert ChunkOk(s, c); }
    }
    CreateKeepsKeys(s, a, n);
    SwitchKeepsDocuments(s, n, a.file, Some(a.document));
  }

  lemma CreateKeepsKeys(s: State, a: Activation, n: State)
    requires KeysUnique(s) && a.file in s.sources && n == Completed(Created(Deactivated(s, a.file), a), a)
    requires forall d | d in s.documents :: !IsDocument(s, d, a.file, Key(a.checksum, a.parser))
    ensures KeysUnique(n)
  {
    forall d | d in s.documents ensures !IsDocument(s, d, a.file, Key(a.checksum, a.parser)) {}
  }

  lemma ActivateKeepsDocuments(s: State, a: Activation)
    requires DocumentsOk(s) && FreshIds(s, a) && ActivateTx(s, a).Ok?
    ensures DocumentsOk(ActivateTx(s, a).value)
  {
    var found := FindDocument(s, a.file, Key(a.checksum, a.parser));
    FindsDocument(s, a.file, Key(a.checksum, a.parser));
    if found.Some? { ReactivateKeepsDocuments(s, a, found.value); } else { CreateKeepsDocuments(s, a); }
  }

  lemma ActiveIsUnique(s: State, d: Id)
    requires DocumentsOk(s) && d in s.documents && s.documents[d].active
    ensures s.documents[d].file in s.sources
    ensures s.sources[s.documents[d].file].activeKey == Some(s.documents[d].key)
    ensures forall e | e in s.documents && s.documents[e].active && s.documents[e].file == s.documents[d].file :: e == d
  {
    assert DocumentOk(s, d);
    forall e | e in s.documents && s.documents[e].active && s.documents[e].file == s.documents[d].file ensures e == d {
      assert DocumentOk(s, e);
    }
  }

  lemma TombstoneKeepsDocuments(s: State, f: File, project: Id)
    requires DocumentsOk(s)
    ensures DocumentsOk(TombstoneTx(s, f, project))
  {
    var n := TombstoneTx(s, f, project);
    if n != s {
      forall d | d in s.documents && s.documents[d].file == f ensures s.documents[d].project == project {
        assert DocumentOk(s, d);
      }
      forall c | c in n.chunks ensures ChunkOk(n, c) { assert ChunkOk(s, c); }
      SwitchKeepsDocuments(s, n, f, None);
    }
  }

  lemma StepKeepsDocuments(s: State, a: Action)
    requires DocumentsOk(s)
    ensures DocumentsOk(Step(s, a))
  {
    if a.DoActivate? {
      if FreshIds(s, a.activation) && ActivateTx(s, a.activation).Ok? { ActivateKeepsDocuments(s, a.activation); }
    } else if a.DoTombstone? {
      TombstoneKeepsDocuments(s, a.file, a.project);
    } else {
      OtherStepsKeepDocuments(s, a);
    }
  }

  lemma OtherStepsKeepDocuments(s: State, a: Action)
    requires DocumentsOk(s) && !a.DoActivate? && !a.DoTombstone?
    ensures DocumentsOk(Step(s, a))
  {
    var n := Step(s, a);
    StepKeepsKeys(s, a);
    forall d | d in n.documents ensures DocumentOk(n, d) { assert DocumentOk(s, d); }
    forall f | f in n.sources ensures ActiveNamed(n, f) {
      if f in s.sources {
        assert ActiveNamed(s, f);
        if s.sources[f].activeKey.Some? {
          var d :| IsDocument(s, d, f, s.sources[f].activeKey.value) && s.documents[d].active;
          assert IsDocument(n, d, f, n.sources[f].activeKey.value) && n.documents[d].active;
        }
      }
    }
    forall c | c in n.chunks ensures ChunkOk(n, c) { assert ChunkOk(s, c); }
  }

  predicate OutboxAction(a: Action) {
    a.DoClaimOutbox? || a.DoRenew? || a.DoEnqueue? || a.DoMarkPublished? || a.DoBackOff? || a.JobDone? || a.Tick?
  }

  lemma OutboxActionsKeepSources(s: State, a: Action)
    requires OutboxAction(a)
    ensures var n := Step(s, a);
      n.sources == s.sources && n.documents == s.documents && n.chunks == s.chunks
  {
    match a {
      case DoClaimOutbox(owner, files) => assert Step(s, a) == ClaimOutbox(s, owner, files);
      case DoEnqueue(e) => assert Step(s, a) == Enqueue(s, e);
      case DoMarkPublished(e) => assert Step(s, a) == MarkPublished(s, e);
      case DoBackOff(e, d) => assert Step(s, a) == BackOff(s, e, d);
      case _ =>
    }
  }

  lemma StepKeepsKeys(s: State, a: Action)
    requires !a.DoActivate? && !a.DoTombstone?
    ensures var n := Step(s, a);
      && n.documents == s.documents && n.chunks == s.chunks && s.sources.Keys <= n.sources.Keys
      && (forall f | f in s.sources ::
            n.sources[f].project == s.sources[f].project && n.sources[f].activeKey == s.sources[f].activeKey)
      && (forall f | f in n.sources && f !in s.sources :: n.sources[f].activeKey.None?)
  {
    if OutboxAction(a) { OutboxActionsKeepSources(s, a); }
  }

  lemma {:induction false} RunKeepsDocuments(s: State, actions: seq<Action>)
    requires DocumentsOk(s)
    ensures DocumentsOk(Run(s, actions))
    decreases |actions|
  {
    if actions != [] {
      StepKeepsDocuments(s, actions[0]);
      RunKeepsDocuments(Step(s, actions[0]), actions[1..]);
    }
  }

  // Activations, reparses and tombstones in any order: one active document per
  // file, its chunks and no others active, and the source naming exactly it.
  lemma OneActiveDocument(actions: seq<Action>, f: File)
    requires f in Run(START, actions).sources
    ensures var s := Run(START, actions);
      var active := set d | d in s.documents && s.documents[d].file == f && s.documents[d].active;
      && |active| <= 1
      && (s.sources[f].activeKey.None? <==> active == {})
      && (forall d | d in active :: s.sources[f].activeKey == Some(s.documents[d].key))
      && (forall c | c in s.chunks :: s.chunks[c].document in s.documents
            && (s.chunks[c].active <==> s.documents[s.chunks[c].document].active))
  {
    var s := Run(START, actions);
    RunKeepsDocuments(START, actions);
    var active := set d | d in s.documents && s.documents[d].file == f && s.documents[d].active;
    assert ActiveNamed(s, f);
    forall d | d in active ensures s.sources[f].activeKey == Some(s.documents[d].key) && active == {d} {
      ActiveIsUnique(s, d);
    }
    if s.sources[f].activeKey.Some? {
      var d :| IsDocument(s, d, f, s.sources[f].activeKey.value) && s.documents[d].active;
      assert d in active;
    }
    forall c | c in s.chunks
      ensures s.chunks[c].document in s.documents
      ensures s.chunks[c].active <==> s.documents[s.chunks[c].document].active
    {
      assert ChunkOk(s, c);
    }
  }

  // ---------------------------------------------------------------------------
  // Attempts: one activation per generation, and none by a stale attempt

  ghost predicate Activates(s: State, a: Action, f: File, generation: nat) {
    a.DoActivate? && a.activation.file == f && a.activation.generation == generation
    && FreshIds(s, a.activation) && ActivateTx(s, a.activation).Ok?
  }

  ghost function ActivationsOf(s: State, actions: seq<Action>, f: File, generation: nat): nat
    decreases |actions|
  {
    if actions == [] then 0
    else (if Activates(s, actions[0], f, generation) then 1 else 0)
         + ActivationsOf(Step(s, actions[0]), actions[1..], f, generation)
  }

  // This generation of the file is finished or has been replaced.
  ghost predicate Spent(s: State, f: File, generation: nat) {
    f in s.sources
    && (s.sources[f].generation > generation || (s.sources[f].generation == generation && s.sources[f].status.Done?))
  }

  lemma SpentStays(s: State, a: Action, f: File, generation: nat)
    requires Spent(s, f, generation)
    ensures Spent(Step(s, a), f, generation) && !Activates(s, a, f, generation)
  {}

  lemma {:induction false} AtMostOneActivation(s: State, actions: seq<Action>, f: File, generation: nat)
    ensures ActivationsOf(s, actions, f, generation) <= 1
    ensures Spent(s, f, generation) ==> ActivationsOf(s, actions, f, generation) == 0
    decreases |actions|
  {
    if actions != [] {
      AtMostOneActivation(Step(s, actions[0]), actions[1..], f, generation);
      if Spent(s, f, generation) { SpentStays(s, actions[0], f, generation); }
    }
  }

  // The attempt's token was replaced, its generation advanced, or its lease ran
  // out: nothing gives any of these back.
  ghost predicate Stale(s: State, f: File, generation: nat, token: Id) {
    token in s.tokens
    && (f !in s.sources || s.sources[f].generation > generation || s.sources[f].token != Some(token)
        || s.sources[f].lease.None? || s.sources[f].lease.value <= s.now)
  }

  lemma StaleStays(s: State, a: Action, f: File, generation: nat, token: Id)
    requires Stale(s, f, generation, token)
    ensures Stale(Step(s, a), f, generation, token)
  {}

  lemma {:induction false} StaleAttemptChangesNothing(s: State, actions: seq<Action>, late: Activation)
    requires Stale(s, late.file, late.generation, late.token)
    ensures var n := Run(s, actions);
      ActivateTx(n, late).Err? && Step(n, DoActivate(late)) == n
    decreases |actions|
  {
    if actions != [] {
      StaleStays(s, actions[0], late.file, late.generation, late.token);
      StaleAttemptChangesNothing(Step(s, actions[0]), actions[1..], late);
    }
  }

  // ---------------------------------------------------------------------------
  // The outbox: published means enqueued

  ghost predicate RowOk(s: State, f: File)
    requires f in s.outbox
  {
    var r := s.outbox[f];
    && r.generation >= 1 && r.job == JobOf(f, r.generation)
    && (r.owner.Some? ==> r.owner.value in s.owners && !r.published)
    && (r.published ==> Job(f, r.generation) in s.enqueued)
  }

  // An event still owning its row was claimed from the row's present generation.
  ghost predicate EventOk(s: State, e: Event) {
    && e.owner in s.owners && e.generation >= 1 && e.job == JobOf(e.file, e.generation)
    && (e.file in s.outbox && s.outbox[e.file].owner == Some(e.owner) ==> s.outbox[e.file].generation == e.generation)
  }

  ghost predicate OutboxOk(s: State) {
    && (forall f {:trigger RowOk(s, f)} | f in s.outbox :: RowOk(s, f))
    && s.outbox.Keys == s.sources.Keys
    && (forall f | f in s.sources :: s.outbox[f].generation == s.sources[f].generation)
    && (forall e {:trigger EventOk(s, e)} | e in s.events :: EventOk(s, e))
    && s.sent <= s.events
    && (forall e | e in s.sent :: Job(e.file, e.generation) in s.enqueued)
    && (forall j | j in s.queue :: j == JobOf(s.queue[j].file, s.queue[j].generation)
          && s.queue[j].generation >= 1 && s.queue[j] in s.enqueued)
  }

  lemma ClaimKeepsOutbox(s: State, owner: Id, files: set<File>)
    requires OutboxOk(s)
    ensures OutboxOk(ClaimOutbox(s, owner, files))
  {
    var n := ClaimOutbox(s, owner, files);
    if owner !in s.owners {
      forall f | f in n.outbox ensures RowOk(n, f) { assert RowOk(s, f); }
      forall e | e in n.events ensures EventOk(n, e) {
        if e in s.events { assert EventOk(s, e); } else { assert RowOk(s, e.file); }
      }
    }
  }

  lemma EnqueueKeepsOutbox(s: State, e: Event)
    requires OutboxOk(s)
    ensures OutboxOk(Enqueue(s, e))
  {
    var n := Enqueue(s, e);
    if e in s.events {
      assert EventOk(s, e);
      EnqueueKeepsQueue(s, e);
      forall f | f in n.outbox ensures RowOk(n, f) { assert RowOk(s, f); }
      forall x | x in n.events ensures EventOk(n, x) { assert EventOk(s, x); }
    }
  }

  lemma EnqueueKeepsQueue(s: State, e: Event)
    requires OutboxOk(s) && e in s.events && EventOk(s, e)
    ensures var n := Enqueue(s, e);
      && n.outbox == s.outbox && n.sources == s.sources && n.events == s.events && n.owners == s.owners
      && s.enqueued <= n.enqueued && n.sent <= n.events
      && (forall x | x in n.sent :: Job(x.file, x.generation) in n.enqueued)
      && (forall j | j in n.queue :: j == JobOf(n.queue[j].file, n.queue[j].generation)
            && n.queue[j].generation >= 1 && n.queue[j] in n.enqueued)
  {
    var n := Enqueue(s, e);
    var job := Job(e.file, e.generation);
    if e.job in s.queue {
      assert n == s.(sent := s.sent + {e});
      assert s.queue[e.job] == job;
    } else {
      assert n.queue == s.queue[e.job := job] && n.enqueued == s.enqueued + {job};
    }
  }

  // The row of one file is rewritten by the holder of its lease.
  lemma RowWriteKeepsOutbox(s: State, e: Event, r: Row)
    requires OutboxOk(s) && Holds(s, e)
    requires r.generation == s.outbox[e.file].generation && r.job == s.outbox[e.file].job
    requires r.owner.Some? ==> r.owner == s.outbox[e.file].owner && r.published == s.outbox[e.file].published
    requires r.published ==> s.outbox[e.file].published || e in s.sent
    ensures OutboxOk(s.(outbox := s.outbox[e.file := r]))
  {
    var n := s.(outbox := s.outbox[e.file := r]);
    assert EventOk(s, e);
    forall f | f in n.outbox ensures RowOk(n, f) { assert RowOk(s, f); }
    forall x | x in n.events ensures EventOk(n, x) { assert EventOk(s, x); }
  }

  // A new generation starts with a fresh row that nobody owns.
  lemma NewRowKeepsOutbox(s: State, f: File, generation: nat, n: State)
    requires OutboxOk(s) && generation >= 1
    requires n == s.(sources := n.sources,
      outbox := s.outbox[f := Row(generation, JobOf(f, generation), false, None, 0, s.now)])
    requires n.sources.Keys == s.sources.Keys + {f} && n.sources[f].generation == generation
    requires forall x | x in s.sources && x != f :: n.sources[x].generation == s.sources[x].generation
    ensures OutboxOk(n)
  {
    forall x | x in n.outbox ensures RowOk(n, x) {
      if x != f { assert RowOk(s, x); }
    }
    forall x | x in n.events ensures EventOk(n, x) { assert EventOk(s, x); }
  }

  lemma GenerationKeepsOutbox(s: State, a: Action)
    requires OutboxOk(s) && (a.DoUpload? || a.DoReparse?)
    ensures OutboxOk(Step(s, a))
  {
    var n := Step(s, a);
    if n != s {
      if a.DoReparse? { assert RowOk(s, a.file); }
      NewRowKeepsOutbox(s, a.file, n.sources[a.file].generation, n);
    }
  }

  lemma SourceActionsFrame(s: State, a: Action)
    requires a.DoClaimParse? || a.DoActivate? || a.DoFailParse? || a.DoTombstone? || a.JobDone? || a.Tick?
    ensures var n := Step(s, a);
      && n.outbox == s.outbox && n.events == s.events && n.sent == s.sent && n.enqueued == s.enqueued
      && n.owners == s.owners && n.queue.Keys <= s.queue.Keys && n.sources.Keys == s.sources.Keys
      && (forall j | j in n.queue :: n.queue[j] == s.queue[j])
      && (forall f | f in s.sources :: n.sources[f].generation == s.sources[f].generation)
  {
    if a.DoActivate? { ActivationFrame(s, a.activation); }
  }

  lemma ActivationFrame(s: State, a: Activation)
    ensures var n := Step(s, DoActivate(a));
      && n == s.(sources := n.sources, documents := n.documents, chunks := n.chunks)
      && n.sources.Keys == s.sources.Keys
      && (forall f | f in s.sources :: n.sources[f].generation == s.sources[f].generation)
  {}

  lemma SourceStepsKeepOutbox(s: State, a: Action)
    requires OutboxOk(s) && (a.DoClaimParse? || a.DoActivate? || a.DoFailParse? || a.DoTombstone? || a.JobDone? || a.Tick?)
    ensures OutboxOk(Step(s, a))
  {
    SourceActionsFrame(s, a);
    OutboxFrame(s, Step(s, a));
  }

  lemma OutboxFrame(s: State, n: State)
    requires OutboxOk(s)
    requires n.outbox == s.outbox && n.events == s.events && n.sent == s.sent && n.enqueued == s.enqueued
    requires n.owners == s.owners && n.queue.Keys <= s.queue.Keys && n.sources.Keys == s.sources.Keys
    requires forall j | j in n.queue :: n.queue[j] == s.queue[j]
    requires forall f | f in s.sources :: n.sources[f].generation == s.sources[f].generation
    ensures OutboxOk(n)
  {
    forall f | f in n.outbox ensures RowOk(n, f) { assert RowOk(s, f); }
    forall x | x in n.events ensures EventOk(n, x) { assert EventOk(s, x); }
  }

  lemma StepKeepsOutbox(s: State, a: Action)
    requires OutboxOk(s)
    ensures OutboxOk(Step(s, a))
  {
    match a {
      case DoClaimOutbox(owner, files) => ClaimKeepsOutbox(s, owner, files);
      case DoEnqueue(e) => EnqueueKeepsOutbox(s, e);
      case DoRenew(e) =>
        if Holds(s, e) { RowWriteKeepsOutbox(s, e, s.outbox[e.file].(expires := s.now + CLAIM_LEASE)); }
      case DoMarkPublished(e) =>
        if e in s.sent && Holds(s, e) { RowWriteKeepsOutbox(s, e, s.outbox[e.file].(published := true, owner := None)); }
      case DoBackOff(e, d) =>
        if Holds(s, e) { RowWriteKeepsOutbox(s, e, s.outbox[e.file].(owner := None, nextAttempt := s.now + d)); }
      case DoUpload(_, _, _) => GenerationKeepsOutbox(s, a);
      case DoReparse(_, _) => GenerationKeepsOutbox(s, a);
      case _ => SourceStepsKeepOutbox(s, a);
    }
  }

  lemma {:induction false} RunKeepsOutbox(s: State, actions: seq<Action>)
    requires OutboxOk(s)
    ensures OutboxOk(Run(s, actions))
    decreases |actions|
  {
    if actions != [] {
      StepKeepsOutbox(s, actions[0]);
      RunKeepsOutbox(Step(s, actions[0]), actions[1..]);
    }
  }

  // Whatever dispatchers, lease takeovers and reparses do, a published row means
  // the parse job of its file and present generation was enqueued.
  lemma PublishedMeansEnqueued(actions: seq<Action>, f: File)
    requires var s := Run(START, actions); f in s.outbox && s.outbox[f].published
    ensures var s := Run(START, actions);
      f in s.sources && Job(f, s.outbox[f].generation) in s.enqueued && s.outbox[f].generation == s.sources[f].generation
  {
    RunKeepsOutbox(START, actions);
    assert RowOk(Run(START, actions), f);
  }
}
