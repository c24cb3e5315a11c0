/** What the broker's calls are for, said of the tables alone: which requests are
    granted, what each call leaves behind, and that an upload can be carried through
    to its parse job. */
module StorageEffects {
  import opened Options
  import opened StorageBroker
  import opened StorageSafety
  import opened StorageRuns

  predicate OpenEpoch(db: Db, epoch: Id) {
    db.control == Some(Control(epoch, "storage-broker.v1"))
  }

  // ---------------------------------------------------------------------------
  // Requests

  predicate ObjectIs(db: Db, r: Request, state: ObjectState) {
    r.objectId in db.objects
    && db.objects[r.objectId] == Object(r.project, r.source, r.generation, r.key, r.sha, r.size, state)
  }

  predicate KeyUnused(db: Db, r: Request) {
    forall x | x in db.objects ::
      && db.objects[x].key != r.key
      && !(db.objects[x].source == r.source && db.objects[x].generation == r.generation)
  }

  // The outbox row of the source, whatever its status.
  predicate ByUpload(db: Db, r: Request) {
    r.authorizationId in db.outbox
    && var b := db.outbox[r.authorizationId]; (b.file, b.project, b.generation) == (r.source, r.project, r.generation)
  }

  // A move of the source by the actor that nobody rejected.
  predicate ByMove(db: Db, r: Request) {
    r.authorizationId in db.moves
    && var m := db.moves[r.authorizationId];
       (m.file, m.project, m.user) == (r.source, r.project, r.actor) && m.status != MoveRejected
  }

  // Who may ask for what: the project's owner, about the current generation of a
  // source of the project, with the authority that the kind of request needs.
  predicate Granted(db: Db, r: Request) {
    && OpenEpoch(db, r.epoch)
    && r.project in db.projects && db.projects[r.project] == r.actor
    && r.source in db.sources && (db.sources[r.source].project, db.sources[r.source].generation) == (r.project, r.generation)
    && (r.quarantineKey.Some? || r.kind.DeleteBlob?)
    && match r.kind
       case Promote =>
         && ByUpload(db, r) && db.outbox[r.authorizationId].status == StoragePreparing && db.outbox[r.authorizationId].intent == None
         && (ObjectIs(db, r, Staging) || ObjectIs(db, r, Available) || (r.objectId !in db.objects && KeyUnused(db, r)))
       case DeleteQuarantine =>
         && (exists state :: ObjectIs(db, r, state))
         && (if r.authorizationKind.UploadCommit? then ByUpload(db, r) else r.authorizationKind.MoveAbort? && ByMove(db, r))
       case DeleteBlob =>
         ObjectIs(db, r, Available) && db.sources[r.source].deletedBy == Some(r.actor) && r.authorizationId == r.source
       case AbortPromotion => ObjectIs(db, r, Staging) && ByMove(db, r)
  }

  // The row that a request inserts.
  function Asked(db: Db, r: Request): Intent {
    Intent(r.idempotencyKey, r.kind, r.project, r.objectId, r.generation, r.key,
           if r.kind == DeleteBlob then None else r.quarantineKey, r.sha, r.size,
           match r.kind
           case Promote => UploadCommit
           case DeleteQuarantine => r.authorizationKind
           case DeleteBlob => SourceFileTombstone
           case AbortPromotion => MoveAbort,
           r.authorizationId, r.epoch, Pending, 0, None, None, None, None, 0, None, None, db.now)
  }

  // The tables with that row, the object in the state the request puts it in, and
  // for a promotion the outbox row waiting for it.
  ghost predicate Recorded(db: Db, r: Request, n: Db) {
    && n == db.(objects := n.objects, intents := db.intents[r.intent := Asked(db, r)], outbox := n.outbox)
    && n.outbox == (if r.kind == Promote && r.authorizationId in db.outbox
                    then db.outbox[r.authorizationId :=
                      db.outbox[r.authorizationId].(status := StoragePending, intent := Some(r.intent))]
                    else db.outbox)
    && match r.kind
       case Promote => n.objects == if r.objectId in db.objects then db.objects else db.objects[r.objectId :=
         Object(r.project, r.source, r.generation, r.key, r.sha, r.size, Staging)]
       case DeleteQuarantine => n.objects == db.objects
       case _ => n.objects == db.objects[r.objectId :=
         Object(r.project, r.source, r.generation, r.key, r.sha, r.size, DeletePending)]
  }

  predicate Unused(db: Db, r: Request) {
    r.intent !in db.intents && forall i | i in db.intents :: db.intents[i].idempotencyKey != r.idempotencyKey
  }

  lemma AuthorisationIs(db: Db, r: Request)
    requires r.source in db.sources
    ensures OutboxNamed(db, r) == ByUpload(db, r) && MoveNamed(db, r) == ByMove(db, r)
    ensures EpochOpen(db, r.epoch) == OpenEpoch(db, r.epoch)
  {}

  lemma ObjectIsThere(db: Db, r: Request)
    ensures r.objectId in db.objects && Coordinates(db.objects[r.objectId], r) <==>
      exists state :: ObjectIs(db, r, state)
    ensures forall state :: ObjectIs(db, r, state) ==> db.objects[r.objectId].state == state
  {
    if r.objectId in db.objects && Coordinates(db.objects[r.objectId], r) {
      assert ObjectIs(db, r, db.objects[r.objectId].state);
    }
  }

  lemma PromoteIff(db: Db, r: Request)
    requires Unused(db, r) && r.kind.Promote?
    ensures RequestTx(db, r).Ok? <==> Granted(db, r)
    ensures RequestTx(db, r).Ok? ==>
      Recorded(db, r, RequestTx(db, r).value.0) && RequestTx(db, r).value.1 == Reply(r.intent, Pending, 0, None)
  {
    if r.source in db.sources { AuthorisationIs(db, r); }
    ObjectIsThere(db, r);
    assert r.objectId in db.objects ==> db.objects[r.objectId := db.objects[r.objectId]] == db.objects;
  }

  lemma DeletionIff(db: Db, r: Request)
    requires Unused(db, r) && !r.kind.Promote?
    ensures RequestTx(db, r).Ok? <==> Granted(db, r)
    ensures RequestTx(db, r).Ok? ==>
      Recorded(db, r, RequestTx(db, r).value.0) && RequestTx(db, r).value.1 == Reply(r.intent, Pending, 0, None)
  {
    if r.source in db.sources { AuthorisationIs(db, r); }
    ObjectIsThere(db, r);
  }

  // A new request is granted exactly to those with the authority for it, and what it
  // leaves is exactly its row and the state that goes with it.
  lemma RequestIsGrantedIff(db: Db, r: Request)
    requires Unused(db, r)
    ensures RequestTx(db, r).Ok? <==> Granted(db, r)
    ensures RequestTx(db, r).Ok? ==>
      Recorded(db, r, RequestTx(db, r).value.0) && RequestTx(db, r).value.1 == Reply(r.intent, Pending, 0, None)
  {
    if r.kind.Promote? { PromoteIff(db, r); } else { DeletionIff(db, r); }
  }

  // The same operation asked for again, by its identity.
  predicate Repeats(db: Db, r: Request) {
    && r.intent in db.intents
    && var i, j := db.intents[r.intent], Asked(db, r);
       (i.idempotencyKey, i.kind, i.project, i.objectId, i.generation, i.key, i.quarantine, i.sha, i.size,
        i.authorization, i.authorizationId, i.epoch)
       == (j.idempotencyKey, j.kind, j.project, j.objectId, j.generation, j.key, j.quarantine, j.sha, j.size,
           j.authorization, j.authorizationId, j.epoch)
  }

  // What is asked again when a request is repeated: a promotion's outbox row must
  // still be waiting and its object not deleted.
  predicate Standing(db: Db, r: Request) {
    && OpenEpoch(db, r.epoch)
    && r.project in db.projects && db.projects[r.project] == r.actor
    && r.source in db.sources && (db.sources[r.source].project, db.sources[r.source].generation) == (r.project, r.generation)
    && match r.kind
       case Promote =>
         && ByUpload(db, r) && db.outbox[r.authorizationId].status in {StoragePreparing, StoragePending}
         && (ObjectIs(db, r, Staging) || ObjectIs(db, r, Available))
       case DeleteQuarantine =>
         && (exists state :: ObjectIs(db, r, state))
         && (if r.authorizationKind.UploadCommit? then ByUpload(db, r) else r.authorizationKind.MoveAbort? && ByMove(db, r))
       case DeleteBlob =>
         (exists state :: ObjectIs(db, r, state)) && db.sources[r.source].deletedBy == Some(r.actor) && r.authorizationId == r.source
       case AbortPromotion => (exists state :: ObjectIs(db, r, state)) && ByMove(db, r)
  }

  // A repeated request changes nothing; it is answered with where its intent stands
  // as long as its authority does.
  lemma RepeatIsAnsweredIff(db: Db, r: Request)
    requires Repeats(db, r) && r.objectId in db.objects
    ensures RequestTx(db, r).Ok? <==> Standing(db, r)
    ensures RequestTx(db, r).Ok? ==>
      RequestTx(db, r).value.0 == db && var i := db.intents[r.intent];
      RequestTx(db, r).value.1 == Reply(r.intent, i.status, i.fence, i.result)
    ensures Step(db, DoRequest(r)) == db
  {
    if r.source in db.sources { AuthorisationIs(db, r); }
    ObjectIsThere(db, r);
    assert SameOperation(db.intents[r.intent], r);
  }

  // Nothing else gets an id or a key that is in use.
  lemma UsedIdentityIsRefused(db: Db, r: Request)
    requires !Unused(db, r) && !Repeats(db, r)
    ensures RequestTx(db, r).Err? && Step(db, DoRequest(r)) == db
  {
    var bad := r.intent in db.intents || exists i | i in db.intents :: db.intents[i].idempotencyKey == r.idempotencyKey;
    assert bad;
    assert r.intent in db.intents ==> !SameOperation(db.intents[r.intent], r);
  }

  // ---------------------------------------------------------------------------
  // Uploads

  // What is drawn for one file is not in use.
  predicate Drawn(db: Db, p: Plan) {
    && p.source !in db.sources && p.authorizationId !in db.outbox && p.intent !in db.intents && p.objectId !in db.objects
    && (forall b | b in db.outbox :: db.outbox[b].file != p.source)
    && (forall x | x in db.objects :: db.objects[x].key != p.key && db.objects[x].source != p.source)
    && (forall i | i in db.intents :: db.intents[i].idempotencyKey != p.idempotencyKey)
  }

  predicate Apart(p: Plan, q: Plan) {
    && p.source != q.source && p.authorizationId != q.authorizationId && p.objectId != q.objectId && p.intent != q.intent
    && p.key != q.key && p.idempotencyKey != q.idempotencyKey
  }

  predicate AllApart(plans: seq<Plan>) {
    forall k, m | 0 <= k < m < |plans| :: Apart(plans[k], plans[m])
  }

  // The rows of one file of the upload.
  predicate SourceRows(n: Db, u: Upload, p: Plan, status: OutboxStatus, waitsFor: Option<Id>, now: Micros) {
    && p.source in n.sources && n.sources[p.source] == Source(u.project, 1, None)
    && p.authorizationId in n.outbox
    && n.outbox[p.authorizationId] == Outbox(p.source, u.project, 1, status, waitsFor, None, None, now)
  }

  predicate ObjectRows(n: Db, u: Upload, p: Plan, now: Micros) {
    && p.objectId in n.objects && n.objects[p.objectId] == Object(u.project, p.source, 1, p.key, p.sha, p.size, Staging)
    && p.intent in n.intents && n.intents[p.intent] ==
         Intent(p.idempotencyKey, Promote, u.project, p.objectId, 1, p.key, Some(p.quarantine), p.sha, p.size,
                UploadCommit, p.authorizationId, u.epoch, Pending, 0, None, None, None, None, 0, None, None, now)
  }

  ghost predicate KeptRows<T>(a: map<Id, T>, n: map<Id, T>, added: set<Id>) {
    n.Keys == a.Keys + added && forall x | x in a && x !in added :: n[x] == a[x]
  }

  function Sources(plans: seq<Plan>): set<Id> { set p | p in plans :: p.source }
  function Authorizations(plans: seq<Plan>): set<Id> { set p | p in plans :: p.authorizationId }
  function ObjectIds(plans: seq<Plan>): set<Id> { set p | p in plans :: p.objectId }
  function IntentIds(plans: seq<Plan>): set<Id> { set p | p in plans :: p.intent }

  // Between the two loops: every file has its source row and a prepared outbox row.
  ghost predicate Prepared(db: Db, u: Upload, plans: seq<Plan>, n: Db) {
    && n == db.(sources := n.sources, outbox := n.outbox)
    && KeptRows(db.sources, n.sources, Sources(plans)) && KeptRows(db.outbox, n.outbox, Authorizations(plans))
    && (forall k | 0 <= k < |plans| :: SourceRows(n, u, plans[k], StoragePreparing, None, db.now))
  }

  // Afterwards: also its object in STAGING and its PROMOTE intent, and the outbox row
  // waits for that intent.
  ghost predicate Uploaded(db: Db, u: Upload, plans: seq<Plan>, n: Db) {
    && n == db.(sources := n.sources, outbox := n.outbox, objects := n.objects, intents := n.intents)
    && KeptRows(db.sources, n.sources, Sources(plans)) && KeptRows(db.outbox, n.outbox, Authorizations(plans))
    && KeptRows(db.objects, n.objects, ObjectIds(plans)) && KeptRows(db.intents, n.intents, IntentIds(plans))
    && (forall k | 0 <= k < |plans| :: PromisedRows(n, u, plans[k], db.now))
  }

  function WithRows(db: Db, project: Id, p: Plan): Db {
    db.(sources := db.sources[p.source := Source(project, 1, None)],
        outbox := db.outbox[p.authorizationId := Outbox(p.source, project, 1, StoragePreparing, None, None, None, db.now)])
  }

  lemma RestIsDrawn(db: Db, project: Id, plans: seq<Plan>)
    requires plans != [] && AllApart(plans) && forall k | 0 <= k < |plans| :: Drawn(db, plans[k])
    ensures AllApart(plans[1..]) && forall k | 0 <= k < |plans[1..]| :: Drawn(WithRows(db, project, plans[0]), plans[1..][k])
  {
    var n := WithRows(db, project, plans[0]);
    forall k | 0 <= k < |plans[1..]| ensures Drawn(n, plans[1..][k]) {
      assert Apart(plans[0], plans[k + 1]) && Drawn(db, plans[k + 1]);
    }
  }

  lemma {:induction false} InsertPrepares(db: Db, u: Upload, plans: seq<Plan>)
    requires AllApart(plans) && (forall k | 0 <= k < |plans| :: Drawn(db, plans[k])) && u.project in db.projects
    ensures InsertUpload(db, u.project, plans).Ok? && Prepared(db, u, plans, InsertUpload(db, u.project, plans).value)
    decreases |plans|
  {
    if plans != [] {
      assert Drawn(db, plans[0]);
      RestIsDrawn(db, u.project, plans);
      InsertPrepares(WithRows(db, u.project, plans[0]), u, plans[1..]);
      FirstInserted(db, u, plans);
      FirstPrepared(db, u, plans, InsertUpload(db, u.project, plans).value);
    }
  }

  lemma FirstInserted(db: Db, u: Upload, plans: seq<Plan>)
    requires plans != [] && Drawn(db, plans[0]) && u.project in db.projects
    ensures InsertUpload(db, u.project, plans) == InsertUpload(WithRows(db, u.project, plans[0]), u.project, plans[1..])
  {}

  // One row added, and then those of the rest.
  lemma FirstKept<T>(a: map<Id, T>, id: Id, row: T, n: map<Id, T>, rest: set<Id>)
    requires KeptRows(a[id := row], n, rest) && id !in rest
    ensures KeptRows(a, n, rest + {id}) && n[id] == row
  {}

  lemma FirstPrepared(db: Db, u: Upload, plans: seq<Plan>, n: Db)
    requires plans != [] && AllApart(plans) && Prepared(WithRows(db, u.project, plans[0]), u, plans[1..], n)
    ensures Prepared(db, u, plans, n)
  {
    var p, m := plans[0], WithRows(db, u.project, plans[0]);
    SetsOf(plans);
    FirstIsApart(plans);
    FirstKept(db.sources, p.source, m.sources[p.source], n.sources, Sources(plans[1..]));
    FirstKept(db.outbox, p.authorizationId, m.outbox[p.authorizationId], n.outbox, Authorizations(plans[1..]));
    forall k | 0 <= k < |plans| ensures SourceRows(n, u, plans[k], StoragePreparing, None, db.now) {
      if k > 0 { assert SourceRows(n, u, plans[1..][k - 1], StoragePreparing, None, m.now); }
    }
  }

  lemma SetsOf(plans: seq<Plan>)
    requires plans != []
    ensures Sources(plans) == Sources(plans[1..]) + {plans[0].source}
    ensures Authorizations(plans) == Authorizations(plans[1..]) + {plans[0].authorizationId}
    ensures ObjectIds(plans) == ObjectIds(plans[1..]) + {plans[0].objectId}
    ensures IntentIds(plans) == IntentIds(plans[1..]) + {plans[0].intent}
  {
    var rest := plans[1..];
    assert forall p :: p in plans <==> p == plans[0] || p in rest;
  }

  lemma FirstIsApart(plans: seq<Plan>)
    requires plans != [] && AllApart(plans)
    ensures forall p | p in plans[1..] :: Apart(plans[0], p)
  {
    forall p | p in plans[1..] ensures Apart(plans[0], p) {
      var k :| 0 <= k < |plans[1..]| && plans[1..][k] == p;
      assert Apart(plans[0], plans[k + 1]);
    }
  }

  // The file's rows are prepared and what was drawn for its object is not in use.
  predicate Ready(db: Db, u: Upload, p: Plan, now: Micros) {
    && SourceRows(db, u, p, StoragePreparing, None, now)
    && p.intent !in db.intents && p.objectId !in db.objects
    && (forall x | x in db.objects :: db.objects[x].key != p.key && db.objects[x].source != p.source)
    && (forall i | i in db.intents :: db.intents[i].idempotencyKey != p.idempotencyKey)
  }

  // What the request for one file adds.
  function WithPromotion(db: Db, u: Upload, p: Plan): Db
    requires p.authorizationId in db.outbox
  {
    db.(outbox := db.outbox[p.authorizationId :=
          db.outbox[p.authorizationId].(status := StoragePending, intent := Some(p.intent))],
        objects := db.objects[p.objectId := Object(u.project, p.source, 1, p.key, p.sha, p.size, Staging)],
        intents := db.intents[p.intent := Asked(db, PromoteRequest(u, p))])
  }

  lemma ReadyIsGranted(db: Db, u: Upload, p: Plan)
    requires Ready(db, u, p, db.now)
    ensures RequestTx(db, PromoteRequest(u, p)).Ok? <==>
      OpenEpoch(db, u.epoch) && u.project in db.projects && db.projects[u.project] == u.user
    ensures RequestTx(db, PromoteRequest(u, p)).Ok? ==>
      && RequestTx(db, PromoteRequest(u, p)).value.0 == WithPromotion(db, u, p)
      && RequestTx(db, PromoteRequest(u, p)).value.1.status.Pending?
  {
    RequestIsGrantedIff(db, PromoteRequest(u, p));
  }

  lemma StaysReady(db: Db, u: Upload, p: Plan, q: Plan)
    requires Ready(db, u, p, db.now) && Ready(db, u, q, db.now) && Apart(p, q)
    ensures Ready(WithPromotion(db, u, p), u, q, db.now)
  {}

  lemma RestStaysReady(db: Db, u: Upload, plans: seq<Plan>)
    requires plans != [] && AllApart(plans) && forall k | 0 <= k < |plans| :: Ready(db, u, plans[k], db.now)
    ensures plans[0].authorizationId in db.outbox
    ensures forall k | 0 <= k < |plans[1..]| :: Ready(WithPromotion(db, u, plans[0]), u, plans[1..][k], db.now)
  {
    assert Ready(db, u, plans[0], db.now);
    forall k | 0 <= k < |plans[1..]| ensures Ready(WithPromotion(db, u, plans[0]), u, plans[1..][k], db.now) {
      assert Apart(plans[0], plans[k + 1]) && Ready(db, u, plans[k + 1], db.now);
      StaysReady(db, u, plans[0], plans[k + 1]);
    }
  }

  lemma {:induction false} AllAreRequested(db: Db, u: Upload, plans: seq<Plan>)
    requires AllApart(plans) && forall k | 0 <= k < |plans| :: Ready(db, u, plans[k], db.now)
    requires OpenEpoch(db, u.epoch) && u.project in db.projects && db.projects[u.project] == u.user
    ensures RequestAll(db, u, plans).Ok? && Promised(db, u, plans, RequestAll(db, u, plans).value)
    decreases |plans|
  {
    if plans != [] {
      RestStaysReady(db, u, plans);
      RestIsApart(plans);
      AllAreRequested(WithPromotion(db, u, plans[0]), u, plans[1..]);
      FirstRequested(db, u, plans);
      FirstPromised(db, u, plans, RequestAll(db, u, plans).value);
    }
  }

  lemma FirstRequested(db: Db, u: Upload, plans: seq<Plan>)
    requires plans != [] && Ready(db, u, plans[0], db.now)
    requires OpenEpoch(db, u.epoch) && u.project in db.projects && db.projects[u.project] == u.user
    ensures RequestAll(db, u, plans) == RequestAll(WithPromotion(db, u, plans[0]), u, plans[1..])
  {
    ReadyIsGranted(db, u, plans[0]);
  }

  lemma RestIsApart(plans: seq<Plan>)
    requires plans != [] && AllApart(plans)
    ensures AllApart(plans[1..])
  {
    forall k, m | 0 <= k < m < |plans[1..]| ensures Apart(plans[1..][k], plans[1..][m]) {
      assert Apart(plans[k + 1], plans[m + 1]);
    }
  }

  // What the second loop adds to prepared rows.
  ghost predicate Promised(db: Db, u: Upload, plans: seq<Plan>, n: Db) {
    && n == db.(outbox := n.outbox, objects := n.objects, intents := n.intents)
    && KeptRows(db.outbox, n.outbox, Authorizations(plans))
    && KeptRows(db.objects, n.objects, ObjectIds(plans)) && KeptRows(db.intents, n.intents, IntentIds(plans))
    && (forall k | 0 <= k < |plans| :: PromisedRows(n, u, plans[k], db.now))
  }

  predicate PromisedRows(n: Db, u: Upload, p: Plan, now: Micros) {
    SourceRows(n, u, p, StoragePending, Some(p.intent), now) && ObjectRows(n, u, p, now)
  }

  lemma FirstPromised(db: Db, u: Upload, plans: seq<Plan>, n: Db)
    requires plans != [] && AllApart(plans) && Ready(db, u, plans[0], db.now)
    requires Promised(WithPromotion(db, u, plans[0]), u, plans[1..], n)
    ensures Promised(db, u, plans, n)
  {
    var p, m := plans[0], WithPromotion(db, u, plans[0]);
    SetsOf(plans);
    FirstIsApart(plans);
    FirstKept(db.outbox, p.authorizationId, m.outbox[p.authorizationId], n.outbox, Authorizations(plans[1..]));
    FirstKept(db.objects, p.objectId, m.objects[p.objectId], n.objects, ObjectIds(plans[1..]));
    FirstKept(db.intents, p.intent, m.intents[p.intent], n.intents, IntentIds(plans[1..]));
    forall k | 0 <= k < |plans| ensures PromisedRows(n, u, plans[k], db.now) {
      if k > 0 { assert PromisedRows(n, u, plans[1..][k - 1], m.now); }
    }
  }

  // With ids drawn afresh, an upload is accepted exactly from the project's owner in
  // the open epoch, and then leaves exactly those rows for every file.
  lemma UploadIsAcceptedIff(db: Db, u: Upload, plans: seq<Plan>)
    requires plans != [] && AllApart(plans) && forall k | 0 <= k < |plans| :: Drawn(db, plans[k])
    ensures UploadTx(db, u, plans).Ok? <==>
      OpenEpoch(db, u.epoch) && u.project in db.projects && db.projects[u.project] == u.user
    ensures UploadTx(db, u, plans).Ok? ==> Uploaded(db, u, plans, UploadTx(db, u, plans).value)
  {
    assert Drawn(db, plans[0]);
    if u.project in db.projects {
      InsertPrepares(db, u, plans);
      var m := InsertUpload(db, u.project, plans).value;
      forall k | 0 <= k < |plans| ensures Ready(m, u, plans[k], m.now) {
        assert Drawn(db, plans[k]) && SourceRows(m, u, plans[k], StoragePreparing, None, db.now);
      }
      assert Ready(m, u, plans[0], m.now);
      ReadyIsGranted(m, u, plans[0]);
      if OpenEpoch(db, u.epoch) && db.projects[u.project] == u.user {
        AllAreRequested(m, u, plans);
        PreparedThenUploaded(db, u, plans, m, RequestAll(m, u, plans).value);
      }
    }
  }

  lemma PreparedThenUploaded(db: Db, u: Upload, plans: seq<Plan>, m: Db, n: Db)
    requires Prepared(db, u, plans, m) && Promised(m, u, plans, n)
    ensures Uploaded(db, u, plans, n)
  {}

  // ---------------------------------------------------------------------------
  // Deletions

  // A file is deleted exactly when it is not yet, its object is available and the
  // user owns the project; then it is tombstoned, the object is to be deleted and the
  // intent to do so is recorded.
  lemma DeletionIsAcceptedIff(db: Db, user: Id, r: Request)
    requires Unused(db, r)
    ensures DeleteFileTx(db, user, r).Ok? <==>
      && OpenEpoch(db, r.epoch) && r.project in db.projects && db.projects[r.project] == user
      && r.source in db.sources && db.sources[r.source] == Source(r.project, r.generation, None)
      && ObjectIs(db, r, Available)
    ensures DeleteFileTx(db, user, r).Ok? ==>
      DeleteFileTx(db, user, r).value == db.(
        sources := db.sources[r.source := Source(r.project, r.generation, Some(user))],
        objects := db.objects[r.objectId := Object(r.project, r.source, r.generation, r.key, r.sha, r.size, DeletePending)],
        intents := db.intents[r.intent :=
          Intent(r.idempotencyKey, DeleteBlob, r.project, r.objectId, r.generation, r.key, None, r.sha, r.size,
                 SourceFileTombstone, r.source, r.epoch, Pending, 0, None, None, None, None, 0, None, None, db.now)])
  {
    ObjectIsThere(db, r);
    if r.source in db.sources {
      var marked := db.(sources := db.sources[r.source := db.sources[r.source].(deletedBy := Some(user))]);
      var d := r.(kind := DeleteBlob, actor := user, authorizationId := r.source);
      RequestIsGrantedIff(marked, d);
      DeletionGranted(db, user, r, marked, d);
    }
  }

  lemma DeletionGranted(db: Db, user: Id, r: Request, marked: Db, d: Request)
    requires r.source in db.sources && d == r.(kind := DeleteBlob, actor := user, authorizationId := r.source)
    requires marked == db.(sources := db.sources[r.source := db.sources[r.source].(deletedBy := Some(user))])
    ensures Granted(marked, d) <==>
      && OpenEpoch(db, r.epoch) && r.project in db.projects && db.projects[r.project] == user
      && (db.sources[r.source].project, db.sources[r.source].generation) == (r.project, r.generation)
      && ObjectIs(db, r, Available)
  {}

  // ---------------------------------------------------------------------------
  // Completions

  predicate IsClaimant(i: Intent, c: Completion) {
    (i.status, i.epoch, i.token, i.fence) == (Executing, c.epoch, Some(c.token), c.fence)
  }

  // The claimant of the current fence reports an outcome in its form.
  predicate Reports(db: Db, c: Completion) {
    && OpenEpoch(db, c.epoch) && c.intent in db.intents && IsClaimant(db.intents[c.intent], c)
    && match c.outcome
       case Some(Succeeded) => c.result.Some? && c.error.None?
       case Some(Retry) => c.error.Some? && c.result.None? && c.retryAfter.Some? && 1 <= c.retryAfter.value <= 86_400
       case Some(Rejected) => c.result.Some? && c.retryAfter.None?
       case _ => false
  }

  predicate PromotesDeleted(db: Db, c: Completion)
    requires c.intent in db.intents
  {
    && c.outcome == Some(Succeeded) && db.intents[c.intent].kind == Promote
    && DeletionsOf(db, db.intents[c.intent].objectId) != {}
  }

  // A completion commits exactly when the claimant reports, unless it promotes an
  // object that is being deleted; a claim is refused exactly for its arguments.
  lemma WorkIsAcceptedIff(control: Option<Control>, calls: seq<Call>)
    ensures var db := Run(Empty(control), calls);
      && (forall c: Completion :: Commits(db, DoComplete(c)) <==> Reports(db, c) && !PromotesDeleted(db, c))
      && (forall n, l, e, k, t :: ClaimTx(db, n, l, e, k, t).Err? <==> n == "" || !(5 <= l <= 300) || !OpenEpoch(db, e))
  {
    var db := Run(Empty(control), calls);
    RunKeepsShapes(Empty(control), calls);
    RunKeepsInv(Empty(control), calls);
    forall c: Completion ensures Commits(db, DoComplete(c)) <==> Reports(db, c) && !PromotesDeleted(db, c) {
      CompleteDecision(db, c);
    }
    forall n, l, e, k, t ensures ClaimTx(db, n, l, e, k, t).Err? <==> n == "" || !(5 <= l <= 300) || !OpenEpoch(db, e) {
      ClaimDecision(db, n, l, e, k, t);
    }
  }

  lemma ClaimDecision(db: Db, n: string, l: nat, e: Id, k: set<Id>, t: Id)
    requires RowsShaped(db)
    ensures ClaimTx(db, n, l, e, k, t).Err? <==> n == "" || !(5 <= l <= 300) || !OpenEpoch(db, e)
  {
    if ClaimTx(db, n, l, e, k, t).Err? { ClaimNeverTrips(db, n, l, e, k, t); }
  }

  // What the commit of a completion leaves of its intent.
  predicate Closed(i: Intent, c: Completion, now: Micros, row: Intent) {
    && row == i.(status := row.status, token := None, expires := None, nextAttempt := row.nextAttempt,
                 completedAt := row.completedAt, result := row.result, error := row.error)
    && match c.outcome
       case Some(Retry) =>
         && c.retryAfter.Some? && (row.status, row.result, row.error, row.completedAt) == (Retry, None, c.error, None)
         && row.nextAttempt == Some(now + c.retryAfter.value * 1_000_000)
       case Some(Succeeded) =>
         (row.status, row.result, row.error, row.completedAt, row.nextAttempt) == (Succeeded, c.result, None, Some(now), None)
       case Some(Rejected) =>
         (row.status, row.result, row.error, row.completedAt, row.nextAttempt) == (Rejected, c.result, c.error, Some(now), None)
       case _ => false
  }

  // The outbox row that waited for the intent may be published at once.
  predicate Freed(b: Outbox, now: Micros, row: Outbox) {
    row == Outbox(b.file, b.project, b.generation, Publishable, None, None, None, now)
  }

  // A committed completion closes its intent's row. A success moves the object on,
  // and a promotion frees the one outbox row that waited; nothing else changes.
  lemma CompletionEffects(db: Db, c: Completion) returns (o: Id)
    requires Commits(db, DoComplete(c))
    ensures var i, n := db.intents[c.intent], Step(db, DoComplete(c));
      && c.intent in db.intents && c.intent in n.intents && Closed(i, c, db.now, n.intents[c.intent]) && o == i.objectId
      && n == db.(intents := db.intents[c.intent := n.intents[c.intent]], objects := n.objects, outbox := n.outbox)
      && (c.outcome != Some(Succeeded) || i.kind == DeleteQuarantine ==> n.objects == db.objects && n.outbox == db.outbox)
      && (c.outcome == Some(Succeeded) && i.kind == Promote ==>
            && o in db.objects && db.objects[o].state == Staging
            && n.objects == db.objects[o := db.objects[o].(state := Available)]
            && exists b :: b in db.outbox && b in n.outbox && n.outbox == db.outbox[b := n.outbox[b]]
                 && db.outbox[b].intent == Some(c.intent) && Freed(db.outbox[b], db.now, n.outbox[b]))
      && (c.outcome == Some(Succeeded) && i.kind in {DeleteBlob, AbortPromotion} ==>
            && o in db.objects && db.objects[o].state == DeletePending
            && n.objects == db.objects[o := db.objects[o].(state := Deleted)] && n.outbox == db.outbox)
  {
    o := db.intents[c.intent].objectId;
    if c.outcome == Some(Succeeded) && db.intents[c.intent].kind == Promote { OneIsFreed(db, c); }
  }

  lemma OneIsFreed(db: Db, c: Completion)
    requires Commits(db, DoComplete(c)) && c.outcome == Some(Succeeded) && db.intents[c.intent].kind == Promote
    ensures var n := Step(db, DoComplete(c));
      exists b :: b in db.outbox && b in n.outbox && n.outbox == db.outbox[b := n.outbox[b]]
        && db.outbox[b].intent == Some(c.intent) && Freed(db.outbox[b], db.now, n.outbox[b])
  {
    var waiting := OutboxWaitingFor(db, c.intent);
    var b :| b in waiting;
    assert waiting == {b} by { OneElement(waiting, b); }
    var n := Step(db, DoComplete(c));
    assert n.outbox == db.outbox[b := n.outbox[b]];
  }

  lemma OneElement(s: set<Id>, b: Id)
    requires |s| == 1 && b in s
    ensures s == {b}
  {
    assert |s - {b}| == 0;
  }

  // ---------------------------------------------------------------------------
  // From the upload to the parse job

  function ClaimOf(u: Upload, locked: set<Id>, token: Id): Call {
    DoClaim("worker", 60, u.epoch, locked, token)
  }

  function DoneOf(u: Upload, p: Plan, token: Id, result: Id): Completion {
    Completion(p.intent, token, 1, u.epoch, Some(Succeeded), Some(result), None, None)
  }

  // One worker and one dispatcher that meet nobody else.
  function Schedule(u: Upload, p: Plan, locked: set<Id>, token: Id, result: Id, owner: Id): seq<Call> {
    [DoUpload(u, [p]), ClaimOf(u, locked, token), DoComplete(DoneOf(u, p, token, result))]
    + [DoClaimOutbox(owner, {p.authorizationId}), DoEnqueue(Event(p.authorizationId, p.source, 1, owner)),
       DoMarkPublished(Event(p.authorizationId, p.source, 1, owner))]
  }

  lemma RunThree(db: Db, a: Call, b: Call, c: Call)
    ensures Run(db, [a, b, c]) == Step(Step(Step(db, a), b), c)
  {
    var calls := [a, b, c];
    assert calls[1..] == [b, c] && [b, c][1..] == [c] && [c][1..] == [];
    assert Run(Step(Step(db, a), b), [c]) == Step(Step(Step(db, a), b), c);
    assert Run(Step(db, a), [b, c]) == Run(Step(Step(db, a), b), [c]);
  }

  lemma UploadedIsClaimed(n: Db, p: Plan, epoch: Id, locked: set<Id>, token: Id)
    requires OpenEpoch(n, epoch) && p.intent in n.intents && p.intent !in locked
    requires n.intents[p.intent].status.Pending? && n.intents[p.intent].epoch == epoch && Shape(n.intents[p.intent])
    requires forall i | i in n.intents && i != p.intent :: i in locked
    ensures ClaimedBy(n, DoClaim("worker", 60, epoch, locked, token)) == Some(p.intent)
    ensures var m := Step(n, DoClaim("worker", 60, epoch, locked, token));
      && m == n.(intents := n.intents[p.intent := m.intents[p.intent]]) && p.intent in m.intents
      && m.intents[p.intent].objectId == n.intents[p.intent].objectId && m.intents[p.intent].kind == n.intents[p.intent].kind
      && (forall c: Completion | c.intent == p.intent && c.epoch == epoch && c.token == token
            && c.fence == n.intents[p.intent].fence + 1 :: FenceHeld(m, c))
  {
    ClaimFindsDueWork(n, epoch, locked);
    assert Claimable(n, epoch, locked, p.intent);
    assert Pick(n, epoch, locked) == Some(p.intent);
  }

  lemma ClaimedIsCompleted(m: Db, p: Plan, done: Completion)
    requires Inv(m) && RowsShaped(m) && FenceHeld(m, done) && done.intent == p.intent && OpenEpoch(m, done.epoch)
    requires done.outcome == Some(Succeeded) && done.result.Some? && done.error.None?
    requires m.intents[p.intent].kind.Promote? && m.intents[p.intent].objectId == p.objectId
    requires p.objectId in m.objects && m.objects[p.objectId].state.Staging? && m.objects[p.objectId].source == p.source
    requires p.authorizationId in m.outbox && m.outbox[p.authorizationId].file == p.source
    ensures var n := Step(m, DoComplete(done));
      && n.now == m.now && n.events == m.events && n.jobs == m.jobs
      && p.objectId in n.objects && n.objects[p.objectId].state.Available?
      && p.authorizationId in n.outbox && Freed(m.outbox[p.authorizationId], m.now, n.outbox[p.authorizationId])
  {
    var deletions := DeletionsOf(m, p.objectId);
    assert ObjectOk(m, p.objectId);
    if deletions != {} {
      var d :| d in deletions;
      assert IsDeletion(m, d, p.objectId);
    }
    CompleteDecision(m, done);
    var o := CompletionEffects(m, done);
    var b :| b in m.outbox && m.outbox[b].intent == Some(done.intent)
      && b in Step(m, DoComplete(done)).outbox && Freed(m.outbox[b], m.now, Step(m, DoComplete(done)).outbox[b]);
    assert OutboxOk(m, b);
  }

  lemma FreedIsPublished(n: Db, b: Id, owner: Id, event: Event)
    requires b in n.outbox && event == Event(b, n.outbox[b].file, n.outbox[b].generation, owner)
    requires Freed(n.outbox[b], n.now, n.outbox[b])
    ensures var m := Step(Step(Step(n, DoClaimOutbox(owner, {b})), DoEnqueue(event)), DoMarkPublished(event));
      && Job(event.file, event.generation) in m.jobs && b in m.outbox && m.outbox[b].status.Published?
      && m.objects == n.objects
  {
    var m1 := Step(n, DoClaimOutbox(owner, {b}));
    assert OutboxDue(n.outbox[b], n.now);
    assert m1.outbox[b].owner == Some(owner) && event in m1.events;
    var m2 := Step(m1, DoEnqueue(event));
    assert EventHeld(m2, event) && Job(event.file, event.generation) in m2.jobs;
  }

  lemma OneUploaded(db: Db, u: Upload, p: Plan, n: Db)
    requires Uploaded(db, u, [p], n)
    ensures PromisedRows(n, u, p, n.now) && n.control == db.control && n.intents.Keys == db.intents.Keys + {p.intent}
  {
    assert PromisedRows(n, u, [p][0], db.now) && IntentIds([p]) == {p.intent};
  }

  lemma UploadLeaves(db: Db, u: Upload, p: Plan)
    requires Inv(db) && RowsShaped(db) && Drawn(db, p)
    requires OpenEpoch(db, u.epoch) && u.project in db.projects && db.projects[u.project] == u.user
    ensures var n := Step(db, DoUpload(u, [p]));
      && Inv(n) && RowsShaped(n) && PromisedRows(n, u, p, n.now) && OpenEpoch(n, u.epoch)
      && n.intents.Keys == db.intents.Keys + {p.intent} && p.intent !in db.intents.Keys
  {
    UploadIsAcceptedIff(db, u, [p]);
    OneUploaded(db, u, p, UploadTx(db, u, [p]).value);
    StepKeepsShapes(db, DoUpload(u, [p]));
    StepKeepsInv(db, DoUpload(u, [p]));
  }

  // The worker's part: the promotion is claimed and completed.
  lemma PromiseIsPromoted(s1: Db, u: Upload, p: Plan, locked: set<Id>, token: Id, result: Id)
    requires Inv(s1) && RowsShaped(s1) && PromisedRows(s1, u, p, s1.now) && OpenEpoch(s1, u.epoch)
    requires s1.intents.Keys == locked + {p.intent} && p.intent !in locked
    ensures var n := Step(Step(s1, ClaimOf(u, locked, token)), DoComplete(DoneOf(u, p, token, result)));
      && p.objectId in n.objects && n.objects[p.objectId] == Object(u.project, p.source, 1, p.key, p.sha, p.size, Available)
      && p.authorizationId in n.outbox
      && n.outbox[p.authorizationId] == Outbox(p.source, u.project, 1, Publishable, None, None, None, n.now)
  {
    var claim, done := ClaimOf(u, locked, token), DoneOf(u, p, token, result);
    UploadedIsClaimed(s1, p, u.epoch, locked, token);
    var s2 := Step(s1, claim);
    StepKeepsShapes(s1, claim);
    StepKeepsInv(s1, claim);
    ClaimedIsCompleted(s2, p, done);
    ObjectMovesOn(s2, done, p.objectId);
  }

  // From any database that runs reach, an upload by the project's owner in the open
  // epoch can be carried through: promoted by one claim and one completion, and
  // parsed after one claim of its outbox row.
  lemma UploadCanBeParsed(control: Option<Control>, calls: seq<Call>, u: Upload, p: Plan, token: Id, result: Id, owner: Id)
    requires var db := Run(Empty(control), calls);
      Drawn(db, p) && OpenEpoch(db, u.epoch) && u.project in db.projects && db.projects[u.project] == u.user
    ensures var db := Run(Empty(control), calls);
      var n := Run(db, Schedule(u, p, db.intents.Keys, token, result, owner));
      && Job(p.source, 1) in n.jobs
      && p.objectId in n.objects && n.objects[p.objectId] == Object(u.project, p.source, 1, p.key, p.sha, p.size, Available)
      && p.authorizationId in n.outbox && n.outbox[p.authorizationId].status.Published?
  {
    var db := Run(Empty(control), calls);
    RunKeepsShapes(Empty(control), calls);
    RunKeepsInv(Empty(control), calls);
    UploadLeaves(db, u, p);
    var s1 := Step(db, DoUpload(u, [p]));
    PromiseIsPromoted(s1, u, p, db.intents.Keys, token, result);
    var s3 := Step(Step(s1, ClaimOf(u, db.intents.Keys, token)), DoComplete(DoneOf(u, p, token, result)));
    FreedIsPublished(s3, p.authorizationId, owner, Event(p.authorizationId, p.source, 1, owner));
    ScheduleRuns(db, u, p, db.intents.Keys, token, result, owner);
  }

  lemma ScheduleRuns(db: Db, u: Upload, p: Plan, locked: set<Id>, token: Id, result: Id, owner: Id)
    ensures var event := Event(p.authorizationId, p.source, 1, owner);
      var s3 := Step(Step(Step(db, DoUpload(u, [p])), ClaimOf(u, locked, token)), DoComplete(DoneOf(u, p, token, result)));
      Run(db, Schedule(u, p, locked, token, result, owner))
      == Step(Step(Step(s3, DoClaimOutbox(owner, {p.authorizationId})), DoEnqueue(event)), DoMarkPublished(event))
  {
    var event := Event(p.authorizationId, p.source, 1, owner);
    var worker := [DoUpload(u, [p]), ClaimOf(u, locked, token), DoComplete(DoneOf(u, p, token, result))];
    var dispatcher := [DoClaimOutbox(owner, {p.authorizationId}), DoEnqueue(event), DoMarkPublished(event)];
    RunThree(db, worker[0], worker[1], worker[2]);
    RunThree(Run(db, worker), dispatcher[0], dispatcher[1], dispatcher[2]);
    RunAppend(db, worker, dispatcher);
  }

  lemma ObjectMovesOn(db: Db, c: Completion, o: Id)
    requires o in db.objects
    ensures var n := Step(db, DoComplete(c));
      o in n.objects && n.objects[o] == db.objects[o].(state := n.objects[o].state)
  {
    if Commits(db, DoComplete(c)) { var x := CompletionEffects(db, c); }
  }
}
