/** What every interleaving of broker calls keeps. */
module StorageSafety {
  import opened Options
  import opened StorageBroker

  // ---------------------------------------------------------------------------
  // The invariant

  ghost predicate IsPromote(db: Db, i: Id, o: Id) {
    i in db.intents && db.intents[i].kind.Promote? && db.intents[i].objectId == o
  }

  ghost predicate IsDeletion(db: Db, i: Id, o: Id) {
    i in db.intents && db.intents[i].objectId == o
    && (db.intents[i].kind.DeleteBlob? || db.intents[i].kind.AbortPromotion?)
  }

  ghost predicate HasDeletion(db: Db, o: Id) {
    exists d :: IsDeletion(db, d, o)
  }

  ghost predicate Done(db: Db, i: Id)
    requires i in db.intents
  {
    db.intents[i].status.Succeeded?
  }

  ghost predicate IntentOk(db: Db, i: Id)
    requires i in db.intents
  {
    var row := db.intents[i];
    && row.objectId in db.objects
    && db.objects[row.objectId].project == row.project
    && db.objects[row.objectId].generation == row.generation
    && db.objects[row.objectId].key == row.key
  }

  // The object's state is what its PROMOTE and deletion intents say it is.
  ghost predicate StateOk(db: Db, o: Id)
    requires o in db.objects
  {
    && (forall d :: IsDeletion(db, d, o) ==>
        db.objects[o].state == if Done(db, d) then Deleted else DeletePending)
    && (forall p :: IsPromote(db, p, o) && !HasDeletion(db, o) ==>
        db.objects[o].state == if Done(db, p) then Available else Staging)
    && (forall d, p :: IsDeletion(db, d, o) && IsPromote(db, p, o) ==>
        (db.intents[d].kind.DeleteBlob? <==> Done(db, p)))
  }

  ghost predicate ObjectOk(db: Db, o: Id)
    requires o in db.objects
  {
    var row := db.objects[o];
    && row.source in db.sources && db.sources[row.source].project == row.project
    && db.sources[row.source].generation == row.generation
    && (exists p :: IsPromote(db, p, o))
    && StateOk(db, o)
  }

  ghost predicate Unique(db: Db) {
    && (forall p, q, o :: IsPromote(db, p, o) && IsPromote(db, q, o) ==> p == q)
    && (forall p, q, o :: IsDeletion(db, p, o) && IsDeletion(db, q, o) ==> p == q)
    && (forall o, x | o in db.objects && x in db.objects :: db.objects[o].source == db.objects[x].source ==> o == x)
    && (forall a, b | a in db.outbox && b in db.outbox :: db.outbox[a].file == db.outbox[b].file ==> a == b)
  }

  // The file's object exists and its PROMOTE intent has succeeded.
  ghost predicate Promoted(db: Db, file: Id, generation: nat) {
    exists o, p :: IsPromote(db, p, o) && o in db.objects && Done(db, p)
      && db.objects[o].source == file && db.objects[o].generation == generation
  }

  ghost predicate OutboxOk(db: Db, b: Id)
    requires b in db.outbox
  {
    var row := db.outbox[b];
    && row.file in db.sources && db.sources[row.file].project == row.project
    && db.sources[row.file].generation == row.generation
    && (row.status.StoragePending? <==> row.intent.Some?)
    && (row.owner.Some? ==> row.status.Publishable?)
    && (row.status.StoragePreparing? ==> forall o | o in db.objects :: db.objects[o].source != row.file)
    && (row.intent.Some? ==>
        var p := row.intent.value;
        p in db.intents && db.intents[p].kind.Promote? && !Done(db, p)
        && db.intents[p].objectId in db.objects
        && db.objects[db.intents[p].objectId].source == row.file)
    && (row.status.Publishable? || row.status.Published? ==> Promoted(db, row.file, row.generation))
  }

  // A PROMOTE that has not succeeded has an outbox row waiting for it.
  ghost predicate Awaited(db: Db, p: Id)
    requires p in db.intents
  {
    db.intents[p].kind.Promote? && !Done(db, p) ==>
      exists b :: b in db.outbox && db.outbox[b].intent == Some(p)
  }

  ghost predicate Intents(db: Db) {
    forall i {:trigger IntentOk(db, i)} {:trigger Awaited(db, i)} | i in db.intents :: IntentOk(db, i) && Awaited(db, i)
  }

  ghost predicate Objects(db: Db) {
    forall o {:trigger ObjectOk(db, o)} | o in db.objects :: ObjectOk(db, o)
  }

  ghost predicate Outboxes(db: Db) {
    forall b {:trigger OutboxOk(db, b)} | b in db.outbox :: OutboxOk(db, b)
  }

  ghost predicate Jobs(db: Db) {
    && (forall e {:trigger Promoted(db, e.file, e.generation)} | e in db.events :: Promoted(db, e.file, e.generation))
    && (forall j {:trigger Promoted(db, j.file, j.generation)} | j in db.jobs :: Promoted(db, j.file, j.generation))
  }

  ghost predicate Inv(db: Db) {
    Intents(db) && Objects(db) && Outboxes(db) && Unique(db) && Jobs(db)
  }

  // ---------------------------------------------------------------------------
  // Frames: what a step must leave alone for a row to stay as it should be

  // The two databases agree on which intents promote and delete object o, and on
  // which of those are done.
  ghost predicate SameRoles(db: Db, db': Db, o: Id) {
    && (forall i :: IsPromote(db', i, o) <==> IsPromote(db, i, o))
    && (forall i :: IsDeletion(db', i, o) <==> IsDeletion(db, i, o))
    && (forall i :: IsPromote(db, i, o) ==> (Done(db', i) <==> Done(db, i)))
    && (forall i :: IsDeletion(db, i, o) ==>
        (Done(db', i) <==> Done(db, i)) && db'.intents[i].kind == db.intents[i].kind)
  }

  ghost predicate SourcesKept(db: Db, db': Db) {
    forall s | s in db.sources :: s in db'.sources
      && db'.sources[s].project == db.sources[s].project
      && db'.sources[s].generation == db.sources[s].generation
  }

  ghost predicate PromotionsKept(db: Db, db': Db) {
    forall p, o :: IsPromote(db, p, o) && o in db.objects && Done(db, p) ==>
      IsPromote(db', p, o) && Done(db', p) && o in db'.objects
      && db'.objects[o].source == db.objects[o].source
      && db'.objects[o].generation == db.objects[o].generation
  }

  lemma ObjectFrame(db: Db, db': Db, o: Id)
    requires o in db.objects && ObjectOk(db, o) && SameRoles(db, db', o) && SourcesKept(db, db')
    requires o in db'.objects && db'.objects[o] == db.objects[o]
    ensures ObjectOk(db', o)
  {
    var p :| IsPromote(db, p, o);
    assert IsPromote(db', p, o);
    assert HasDeletion(db', o) ==> HasDeletion(db, o);
    assert HasDeletion(db, o) ==> HasDeletion(db', o);
    assert StateOk(db', o);
  }

  lemma PromotedFrame(db: Db, db': Db, file: Id, generation: nat)
    requires Promoted(db, file, generation) && PromotionsKept(db, db')
    ensures Promoted(db', file, generation)
  {
    var o, p :| IsPromote(db, p, o) && o in db.objects && Done(db, p)
      && db.objects[o].source == file && db.objects[o].generation == generation;
    assert IsPromote(db', p, o);
  }

  lemma OutboxFrame(db: Db, db': Db, b: Id)
    requires b in db.outbox && OutboxOk(db, b) && SourcesKept(db, db') && PromotionsKept(db, db')
    requires b in db'.outbox
      && db'.outbox[b].file == db.outbox[b].file && db'.outbox[b].project == db.outbox[b].project
      && db'.outbox[b].generation == db.outbox[b].generation && db'.outbox[b].intent == db.outbox[b].intent
      && (db'.outbox[b].status == db.outbox[b].status
          || (db.outbox[b].status.Publishable? && db'.outbox[b].status.Published?))
      && (db'.outbox[b].owner.Some? ==> db'.outbox[b].status.Publishable?)
    requires var p := db.outbox[b].intent; p.Some? ==>
      p.value in db'.intents && db'.intents[p.value].kind.Promote? && !Done(db', p.value)
      && db'.intents[p.value].objectId == db.intents[p.value].objectId
      && db.intents[p.value].objectId in db'.objects
      && db'.objects[db.intents[p.value].objectId].source == db.outbox[b].file
    requires db.outbox[b].status.StoragePreparing? ==>
      forall o | o in db'.objects :: o in db.objects && db'.objects[o].source == db.objects[o].source
    ensures OutboxOk(db', b)
  {
    var row := db.outbox[b];
    if row.status.Publishable? || row.status.Published? {
      PromotedFrame(db, db', row.file, row.generation);
    }
  }

  lemma JobsFrame(db: Db, db': Db)
    requires Jobs(db) && PromotionsKept(db, db') && db'.events == db.events && db'.jobs == db.jobs
    ensures Jobs(db')
  {
    forall e | e in db.events ensures Promoted(db', e.file, e.generation) {
      PromotedFrame(db, db', e.file, e.generation);
    }
    forall j | j in db.jobs ensures Promoted(db', j.file, j.generation) {
      PromotedFrame(db, db', j.file, j.generation);
    }
  }

  // The coordinates of an intent row, which no routine rewrites.
  ghost predicate SameIdentity(i: Intent, row: Intent) {
    row.kind == i.kind && row.objectId == i.objectId && row.project == i.project
    && row.generation == i.generation && row.key == i.key
  }

  // ---------------------------------------------------------------------------
  // Intent rows that move on without a success effect

  ghost predicate RowMove(db: Db, id: Id, row: Intent, db': Db) {
    && id in db.intents && SameIdentity(db.intents[id], row)
    && (row.kind.DeleteQuarantine? || (row.status.Succeeded? <==> db.intents[id].status.Succeeded?))
    && db' == db.(intents := db.intents[id := row])
  }

  lemma RowMoveRoles(db: Db, id: Id, row: Intent, db': Db)
    requires RowMove(db, id, row, db')
    ensures forall i, o :: IsPromote(db', i, o) <==> IsPromote(db, i, o)
    ensures forall i, o :: IsDeletion(db', i, o) <==> IsDeletion(db, i, o)
    ensures forall i | i in db.intents && !db.intents[i].kind.DeleteQuarantine? :: Done(db', i) <==> Done(db, i)
    ensures PromotionsKept(db, db')
  {}

  lemma UniqueFrame(db: Db, db': Db)
    requires Unique(db) && db'.objects == db.objects && db'.outbox == db.outbox
    requires forall i, o :: IsPromote(db', i, o) ==> IsPromote(db, i, o)
    requires forall i, o :: IsDeletion(db', i, o) ==> IsDeletion(db, i, o)
    ensures Unique(db')
  {}

  lemma RowMoveIntents(db: Db, id: Id, row: Intent, db': Db)
    requires Intents(db) && RowMove(db, id, row, db')
    ensures Intents(db')
  {
    forall i | i in db'.intents ensures IntentOk(db', i) && Awaited(db', i) {
      assert IntentOk(db, i) && Awaited(db, i);
    }
  }

  lemma RowMoveOutboxes(db: Db, id: Id, row: Intent, db': Db)
    requires Outboxes(db) && RowMove(db, id, row, db') && PromotionsKept(db, db')
    ensures Outboxes(db')
  {
    forall b | b in db'.outbox ensures OutboxOk(db', b) {
      assert OutboxOk(db, b);
      OutboxFrame(db, db', b);
    }
  }

  lemma RowMoveKeepsInv(db: Db, id: Id, row: Intent, db': Db)
    requires Inv(db) && RowMove(db, id, row, db')
    ensures Inv(db')
  {
    RowMoveRoles(db, id, row, db');
    RowMoveIntents(db, id, row, db');
    RowMoveOutboxes(db, id, row, db');
    forall o | o in db'.objects ensures ObjectOk(db', o) {
      assert SameRoles(db, db', o);
      ObjectFrame(db, db', o);
    }
    UniqueFrame(db, db');
    JobsFrame(db, db');
  }

  // ---------------------------------------------------------------------------
  // Success effects

  // Intent id succeeds and object o takes the state that goes with it.
  ghost predicate Success(db: Db, id: Id, row: Intent, state: ObjectState, db': Db) {
    && id in db.intents && SameIdentity(db.intents[id], row) && row.status.Succeeded?
    && !db.intents[id].status.Succeeded? && row.objectId in db.objects
    && db'.intents == db.intents[id := row]
    && db'.objects == db.objects[row.objectId := db.objects[row.objectId].(state := state)]
    && db'.sources == db.sources && db'.events == db.events && db'.jobs == db.jobs
  }

  lemma SuccessRoles(db: Db, id: Id, row: Intent, state: ObjectState, db': Db)
    requires Success(db, id, row, state, db')
    ensures forall i, o :: IsPromote(db', i, o) <==> IsPromote(db, i, o)
    ensures forall i, o :: IsDeletion(db', i, o) <==> IsDeletion(db, i, o)
    ensures forall i | i in db.intents :: Done(db', i) <==> (i == id || Done(db, i))
    ensures PromotionsKept(db, db') && SourcesKept(db, db')
  {}

  lemma SuccessOthers(db: Db, id: Id, row: Intent, state: ObjectState, db': Db)
    requires Inv(db) && Success(db, id, row, state, db')
    requires ObjectOk(db', row.objectId)
    ensures Objects(db')
  {
    SuccessRoles(db, id, row, state, db');
    forall o | o in db'.objects ensures ObjectOk(db', o) {
      if o != row.objectId {
        assert ObjectOk(db, o);
        assert SameRoles(db, db', o);
        ObjectFrame(db, db', o);
      }
    }
  }

  lemma DeletionSucceeds(db: Db, id: Id, row: Intent, db': Db)
    requires Inv(db) && Success(db, id, row, Deleted, db') && !row.kind.Promote? && !row.kind.DeleteQuarantine?
    requires db'.outbox == db.outbox
    ensures Inv(db')
  {
    SuccessRoles(db, id, row, Deleted, db');
    var o := row.objectId;
    assert ObjectOk(db', o) by {
      assert ObjectOk(db, o);
      assert IsDeletion(db, id, o);
      var p :| IsPromote(db, p, o);
      assert IsPromote(db', p, o) && IsDeletion(db', id, o);
      assert StateOk(db', o);
    }
    SuccessOthers(db, id, row, Deleted, db');
    forall i | i in db'.intents ensures IntentOk(db', i) && Awaited(db', i) {
      assert IntentOk(db, i) && Awaited(db, i);
    }
    forall b | b in db'.outbox ensures OutboxOk(db', b) {
      assert OutboxOk(db, b);
      OutboxFrame(db, db', b);
    }
    JobsFrame(db, db');
    assert Unique(db');
  }

  // The outbox row that waits for an unfinished PROMOTE: there is exactly one.
  lemma WaitingRow(db: Db, id: Id) returns (b: Id)
    requires Inv(db) && id in db.intents && db.intents[id].kind.Promote? && !Done(db, id)
    ensures db.intents[id].objectId in db.objects
    ensures b in db.outbox && db.outbox[b].intent == Some(id) && OutboxWaitingFor(db, id) == {b}
    ensures db.outbox[b].file == db.objects[db.intents[id].objectId].source
    ensures db.outbox[b].generation == db.intents[id].generation
  {
    assert IntentOk(db, id) && Awaited(db, id);
    b :| b in db.outbox && db.outbox[b].intent == Some(id);
    assert OutboxOk(db, b);
    assert ObjectOk(db, db.intents[id].objectId);
  }

  lemma PromoteSucceeds(db: Db, id: Id, row: Intent, b: Id, db': Db)
    requires Inv(db) && Success(db, id, row, Available, db') && row.kind.Promote?
    requires db.objects[row.objectId].state.Staging?
    requires b in db.outbox && db.outbox[b].intent == Some(id)
      && db.outbox[b].file == db.objects[row.objectId].source && db.outbox[b].generation == row.generation
    requires db'.outbox == db.outbox[b := Released(db.outbox[b], db.now)]
    ensures Inv(db')
  {
    SuccessRoles(db, id, row, Available, db');
    var o := row.objectId;
    assert IsPromote(db, id, o) && IsPromote(db', id, o);
    assert ObjectOk(db', o) by {
      assert ObjectOk(db, o);
      assert StateOk(db', o);
    }
    SuccessOthers(db, id, row, Available, db');
    forall x | x in db'.outbox ensures OutboxOk(db', x) {
      assert OutboxOk(db, x) && IntentOk(db, id);
      if x == b {
        assert Promoted(db', db'.outbox[b].file, db'.outbox[b].generation);
      } else {
        OutboxFrame(db, db', x);
      }
    }
    forall i | i in db'.intents ensures IntentOk(db', i) && Awaited(db', i) {
      assert IntentOk(db, i) && Awaited(db, i);
      if db.intents[i].kind.Promote? && !Done(db', i) {
        var x :| x in db.outbox && db.outbox[x].intent == Some(i);
        assert db'.outbox[x].intent == Some(i);
      }
    }
    JobsFrame(db, db');
    assert Unique(db');
  }

  // ---------------------------------------------------------------------------
  // New rows

  ghost predicate Inserted(db: Db, r: Request, db': Db) {
    && r.intent !in db.intents && r.source in db.sources
    && db.sources[r.source].project == r.project && db.sources[r.source].generation == r.generation
    && db'.intents == db.intents[r.intent := NewIntent(db, r)]
    && db'.sources == db.sources && db'.events == db.events && db'.jobs == db.jobs
  }

  lemma InsertRoles(db: Db, r: Request, db': Db)
    requires Inserted(db, r, db')
    ensures forall i, o :: IsPromote(db', i, o) <==>
      (IsPromote(db, i, o) || (i == r.intent && o == r.objectId && r.kind.Promote?))
    ensures forall i, o :: IsDeletion(db', i, o) <==>
      (IsDeletion(db, i, o) || (i == r.intent && o == r.objectId && (r.kind.DeleteBlob? || r.kind.AbortPromotion?)))
    ensures forall i | i in db.intents :: Done(db', i) <==> Done(db, i)
    ensures !Done(db', r.intent)
  {}

  ghost predicate SameCoordinates(o: Object, x: Object) {
    o.project == x.project && o.source == x.source && o.generation == x.generation && o.key == x.key
  }

  lemma InsertIntents(db: Db, r: Request, db': Db)
    requires Intents(db) && Inserted(db, r, db')
    requires db.objects.Keys <= db'.objects.Keys
    requires forall o | o in db.objects ::
      SameCoordinates(db'.objects[o], db.objects[o])
    requires r.objectId in db'.objects && db'.objects[r.objectId].project == r.project
      && db'.objects[r.objectId].generation == r.generation && db'.objects[r.objectId].key == r.key
    requires forall b | b in db.outbox && db.outbox[b].intent.Some? ::
      b in db'.outbox && db'.outbox[b].intent == db.outbox[b].intent
    requires r.kind.Promote? ==> exists b :: b in db'.outbox && db'.outbox[b].intent == Some(r.intent)
    ensures Intents(db')
  {
    forall i | i in db'.intents ensures IntentOk(db', i) && Awaited(db', i) {
      if i != r.intent {
        assert IntentOk(db, i) && Awaited(db, i);
        if db.intents[i].kind.Promote? && !Done(db, i) {
          var b :| b in db.outbox && db.outbox[b].intent == Some(i);
          assert b in db'.outbox && db'.outbox[b].intent == Some(i);
        }
      }
    }
  }

  // DELETE_QUARANTINE adds a row and nothing else; a deletion intent also takes
  // the object to DELETE_PENDING.
  ghost predicate InsertedOn(db: Db, r: Request, db': Db) {
    && Inserted(db, r, db') && !r.kind.Promote? && db'.outbox == db.outbox
    && r.objectId in db.objects && Coordinates(db.objects[r.objectId], r)
    && (r.kind.DeleteBlob? ==> db.objects[r.objectId].state.Available?)
    && (r.kind.AbortPromotion? ==> db.objects[r.objectId].state.Staging?)
    && db'.objects == (if r.kind.DeleteQuarantine? then db.objects
                       else db.objects[r.objectId := db.objects[r.objectId].(state := DeletePending)])
  }

  lemma InsertedOnObject(db: Db, r: Request, db': Db)
    requires Inv(db) && InsertedOn(db, r, db')
    ensures ObjectOk(db', r.objectId)
  {
    InsertRoles(db, r, db');
    var o := r.objectId;
    assert ObjectOk(db, o);
    var p :| IsPromote(db, p, o);
    assert IsPromote(db', p, o);
    if r.kind.DeleteQuarantine? {
      assert SameRoles(db, db', o);
      ObjectFrame(db, db', o);
    } else {
      assert IsDeletion(db', r.intent, o);
      assert !HasDeletion(db, o);
      assert StateOk(db', o);
    }
  }

  lemma InsertOnKeepsInv(db: Db, r: Request, db': Db)
    requires Inv(db) && InsertedOn(db, r, db')
    ensures Inv(db')
  {
    InsertIntents(db, r, db');
    InsertOnObjects(db, r, db');
    assert PromotionsKept(db, db') by { InsertRoles(db, r, db'); }
    InsertOnOutboxes(db, r, db');
    JobsFrame(db, db');
    InsertOnUnique(db, r, db');
  }

  lemma InsertOnObjects(db: Db, r: Request, db': Db)
    requires Inv(db) && InsertedOn(db, r, db')
    ensures Objects(db')
  {
    InsertRoles(db, r, db');
    InsertedOnObject(db, r, db');
    forall o | o in db'.objects ensures ObjectOk(db', o) {
      if o != r.objectId {
        assert ObjectOk(db, o) && SameRoles(db, db', o);
        ObjectFrame(db, db', o);
      }
    }
  }

  lemma InsertOnOutboxes(db: Db, r: Request, db': Db)
    requires Outboxes(db) && InsertedOn(db, r, db') && PromotionsKept(db, db')
    ensures Outboxes(db')
  {
    forall b | b in db'.outbox ensures OutboxOk(db', b) {
      assert OutboxOk(db, b);
      OutboxFrame(db, db', b);
    }
  }

  lemma InsertOnUnique(db: Db, r: Request, db': Db)
    requires Inv(db) && InsertedOn(db, r, db')
    ensures Unique(db')
  {
    InsertRoles(db, r, db');
    assert ObjectOk(db, r.objectId);
    assert r.kind.DeleteQuarantine? || !HasDeletion(db, r.objectId);
  }

  // A PROMOTE creates its object: the outbox row it consumes was still
  // storage_preparing, so the file had no object before.
  ghost predicate InsertedPromote(db: Db, r: Request, db': Db) {
    && Inserted(db, r, db') && r.kind.Promote? && r.objectId !in db.objects
    && db'.objects == db.objects[r.objectId := Object(r.project, r.source, r.generation, r.key, r.sha, r.size, Staging)]
    && OutboxNamed(db, r) && db.outbox[r.authorizationId].status.StoragePreparing?
    && db'.outbox == db.outbox[r.authorizationId :=
         db.outbox[r.authorizationId].(status := StoragePending, intent := Some(r.intent))]
  }

  lemma InsertPromoteKeepsInv(db: Db, r: Request, db': Db)
    requires Inv(db) && InsertedPromote(db, r, db')
    ensures Inv(db')
  {
    assert db'.outbox[r.authorizationId].intent == Some(r.intent);
    assert OutboxOk(db, r.authorizationId);
    InsertIntents(db, r, db');
    InsertPromoteObjects(db, r, db');
    assert PromotionsKept(db, db') by { InsertRoles(db, r, db'); }
    InsertPromoteOutboxes(db, r, db');
    JobsFrame(db, db');
    InsertPromoteUnique(db, r, db');
  }

  lemma InsertPromoteObjects(db: Db, r: Request, db': Db)
    requires Inv(db) && InsertedPromote(db, r, db')
    ensures Objects(db')
  {
    InsertRoles(db, r, db');
    NoRolesYet(db, r.objectId);
    forall o | o in db'.objects ensures ObjectOk(db', o) {
      if o != r.objectId {
        assert ObjectOk(db, o) && SameRoles(db, db', o);
        ObjectFrame(db, db', o);
      } else {
        assert IsPromote(db', r.intent, o);
        assert StateOk(db', o);
      }
    }
  }

  lemma InsertPromoteOutboxes(db: Db, r: Request, db': Db)
    requires Inv(db) && InsertedPromote(db, r, db') && PromotionsKept(db, db')
    ensures Outboxes(db')
  {
    forall b | b in db'.outbox ensures OutboxOk(db', b) {
      assert OutboxOk(db, b);
      if b != r.authorizationId {
        PendingElsewhere(db, r, b);
        OutboxFrameNew(db, db', r, b);
      }
    }
  }

  lemma InsertPromoteUnique(db: Db, r: Request, db': Db)
    requires Inv(db) && InsertedPromote(db, r, db')
    ensures Unique(db')
  {
    InsertRoles(db, r, db');
    NoRolesYet(db, r.objectId);
    assert OutboxOk(db, r.authorizationId);
  }

  lemma NoRolesYet(db: Db, o: Id)
    requires Intents(db) && o !in db.objects
    ensures forall i :: !IsPromote(db, i, o) && !IsDeletion(db, i, o)
  {
    forall i ensures !IsPromote(db, i, o) && !IsDeletion(db, i, o) {
      if i in db.intents { assert IntentOk(db, i); }
    }
  }

  lemma PendingElsewhere(db: Db, r: Request, b: Id)
    requires Unique(db) && b in db.outbox && OutboxNamed(db, r) && b != r.authorizationId
    ensures db.outbox[b].file != r.source
  {}

  // Another file's outbox row when an object appears.
  lemma OutboxFrameNew(db: Db, db': Db, r: Request, b: Id)
    requires Inserted(db, r, db') && b in db.outbox && OutboxOk(db, b) && db.outbox[b].file != r.source
    requires db'.objects == db.objects[r.objectId := Object(r.project, r.source, r.generation, r.key, r.sha, r.size, Staging)]
    requires r.objectId !in db.objects && PromotionsKept(db, db')
    requires b in db'.outbox && db'.outbox[b] == db.outbox[b]
    ensures OutboxOk(db', b)
  {
    var row := db.outbox[b];
    if row.status.Publishable? || row.status.Published? {
      PromotedFrame(db, db', row.file, row.generation);
    }
  }

  // ---------------------------------------------------------------------------
  // Changes around the objects: sources, outbox leases, events and jobs

  ghost predicate FreshOutbox(db: Db, db': Db, b: Id)
    requires b in db'.outbox
  {
    var row := db'.outbox[b];
    && row.status.StoragePreparing? && row.intent.None? && row.owner.None?
    && row.file in db'.sources && db'.sources[row.file].project == row.project
    && db'.sources[row.file].generation == row.generation
    && row.file !in db.sources
  }

  // An outbox row keeps what it is about; it may be published and its lease end.
  predicate RowKept(row: Outbox, row': Outbox) {
    && row'.file == row.file && row'.project == row.project && row'.generation == row.generation && row'.intent == row.intent
    && (row'.status == row.status || (row.status.Publishable? && row'.status.Published?))
    && (row'.owner.Some? ==> row.owner == row'.owner || row.status.Publishable?)
    && (row'.owner.Some? ==> row'.status == row.status)
  }

  ghost predicate Surroundings(db: Db, db': Db) {
    && db'.intents == db.intents && db'.objects == db.objects && SourcesKept(db, db')
    && db.outbox.Keys <= db'.outbox.Keys
    && (forall b | b in db.outbox :: RowKept(db.outbox[b], db'.outbox[b]))
    && (forall b | b in db'.outbox && b !in db.outbox :: FreshOutbox(db, db', b))
    && (forall a, b | a in db'.outbox && b in db'.outbox && a !in db.outbox ::
        db'.outbox[a].file == db'.outbox[b].file ==> a == b)
    && (forall e | e in db'.events :: e in db.events || Promoted(db, e.file, e.generation))
    && (forall j | j in db'.jobs :: j in db.jobs || Promoted(db, j.file, j.generation))
  }

  lemma SurroundingsKeepInv(db: Db, db': Db)
    requires Inv(db) && Surroundings(db, db')
    ensures Inv(db')
  {
    forall o ensures SameRoles(db, db', o) {}
    forall o | o in db'.objects ensures ObjectOk(db', o) { ObjectFrame(db, db', o); }
    assert PromotionsKept(db, db');
    forall b | b in db'.outbox ensures OutboxOk(db', b) {
      if b in db.outbox {
        assert OutboxOk(db, b);
        SurroundedRow(db, db', b);
      } else {
        FreshRow(db, db', b);
      }
    }
    SurroundingIntents(db, db');
    SurroundingJobs(db, db');
    SurroundingUnique(db, db');
  }

  lemma SurroundedRow(db: Db, db': Db, b: Id)
    requires Surroundings(db, db') && b in db.outbox && OutboxOk(db, b) && PromotionsKept(db, db')
    ensures OutboxOk(db', b)
  {
    OutboxFrame(db, db', b);
  }

  lemma FreshRow(db: Db, db': Db, b: Id)
    requires Inv(db) && Surroundings(db, db') && b in db'.outbox && b !in db.outbox
    ensures OutboxOk(db', b)
  {
    assert FreshOutbox(db, db', b);
    forall o | o in db'.objects ensures db'.objects[o].source != db'.outbox[b].file {
      assert ObjectOk(db, o);
    }
  }

  lemma SurroundingIntents(db: Db, db': Db)
    requires Intents(db) && Surroundings(db, db')
    ensures Intents(db')
  {
    forall i | i in db'.intents ensures IntentOk(db', i) && Awaited(db', i) {
      assert IntentOk(db, i) && Awaited(db, i);
      if db.intents[i].kind.Promote? && !Done(db, i) {
        var b :| b in db.outbox && db.outbox[b].intent == Some(i);
        assert b in db'.outbox && db'.outbox[b].intent == Some(i);
      }
    }
  }

  lemma SurroundingJobs(db: Db, db': Db)
    requires Jobs(db) && Surroundings(db, db') && PromotionsKept(db, db')
    ensures Jobs(db')
  {
    forall e | e in db'.events ensures Promoted(db', e.file, e.generation) {
      assert Promoted(db, e.file, e.generation);
      PromotedFrame(db, db', e.file, e.generation);
    }
    forall j | j in db'.jobs ensures Promoted(db', j.file, j.generation) {
      assert Promoted(db, j.file, j.generation);
      PromotedFrame(db, db', j.file, j.generation);
    }
  }

  lemma SurroundingUnique(db: Db, db': Db)
    requires Unique(db) && Surroundings(db, db')
    ensures Unique(db')
  {
    assert forall i, o :: IsPromote(db', i, o) <==> IsPromote(db, i, o);
    assert forall i, o :: IsDeletion(db', i, o) <==> IsDeletion(db, i, o);
    forall a, b | a in db'.outbox && b in db'.outbox && db'.outbox[a].file == db'.outbox[b].file
      ensures a == b
    {
      if a in db.outbox && b in db.outbox {
        assert db.outbox[a].file == db.outbox[b].file;
      }
    }
  }

  // ---------------------------------------------------------------------------
  // Every call keeps the invariant

  lemma RequestKeepsInv(db: Db, r: Request)
    requires Inv(db) && RequestTx(db, r).Ok?
    ensures Inv(RequestTx(db, r).value.0)
    ensures SourcesKept(db, RequestTx(db, r).value.0)
    ensures RequestTx(db, r).value.0.sources == db.sources
    ensures RequestTx(db, r).value.0.now == db.now
  {
    var db1 := WithObject(db, r).value;
    if exists i | i in db1.intents :: i == r.intent || db1.intents[i].idempotencyKey == r.idempotencyKey {
      assert IntentOk(db, r.intent);
      assert db1 == db;
    } else {
      var db2 := RequestTx(db, r).value.0;
      if r.kind.Promote? {
        assert OutboxOk(db, r.authorizationId);
        assert r.objectId !in db.objects;
        assert InsertedPromote(db, r, db2);
        InsertPromoteKeepsInv(db, r, db2);
      } else {
        assert InsertedOn(db, r, db2);
        InsertOnKeepsInv(db, r, db2);
      }
    }
  }

  lemma ClaimKeepsInv(db: Db, instance: string, lease: nat, epoch: Id, locked: set<Id>, token: Id)
    requires Inv(db) && ClaimTx(db, instance, lease, epoch, locked, token).Ok?
    ensures Inv(ClaimTx(db, instance, lease, epoch, locked, token).value.0)
  {
    var (db1, picked) := ClaimTx(db, instance, lease, epoch, locked, token).value;
    if picked.Some? {
      var id := picked.value;
      var row := Claimed(db.intents[id], token, db.now + lease * SECOND);
      RowMoveKeepsInv(db, id, row, db1);
    }
  }

  lemma CompleteKeepsInv(db: Db, c: Completion)
    requires Inv(db) && CompleteTx(db, c).Ok?
    ensures Inv(CompleteTx(db, c).value)
  {
    var db1 := CompleteTx(db, c).value;
    var id := c.intent;
    var row := Finished(db.intents[id], c, db.now);
    if !c.outcome.value.Succeeded? || row.kind.DeleteQuarantine? {
      RowMoveKeepsInv(db, id, row, db1);
    } else if row.kind.Promote? {
      var b := WaitingRow(db, id);
      assert db1.outbox == db.outbox[b := Released(db.outbox[b], db.now)];
      PromoteSucceeds(db, id, row, b, db1);
    } else {
      DeletionSucceeds(db, id, row, db1);
    }
  }

  lemma {:induction false} InsertUploadKeepsInv(db: Db, project: Id, plans: seq<Plan>)
    requires Inv(db) && InsertUpload(db, project, plans).Ok?
    ensures Inv(InsertUpload(db, project, plans).value)
    decreases |plans|
  {
    if plans != [] {
      var p := plans[0];
      var db1 := db.(
        sources := db.sources[p.source := Source(project, 1, None)],
        outbox := db.outbox[p.authorizationId :=
          Outbox(p.source, project, 1, StoragePreparing, None, None, None, db.now)]);
      SurroundingsKeepInv(db, db1);
      InsertUploadKeepsInv(db1, project, plans[1..]);
    }
  }

  lemma {:induction false} RequestAllKeepsInv(db: Db, upload: Upload, plans: seq<Plan>)
    requires Inv(db) && RequestAll(db, upload, plans).Ok?
    ensures Inv(RequestAll(db, upload, plans).value)
    decreases |plans|
  {
    if plans != [] {
      var r := PromoteRequest(upload, plans[0]);
      RequestKeepsInv(db, r);
      RequestAllKeepsInv(RequestTx(db, r).value.0, upload, plans[1..]);
    }
  }

  lemma DeleteFileKeepsInv(db: Db, user: Id, r: Request)
    requires Inv(db) && DeleteFileTx(db, user, r).Ok?
    ensures Inv(DeleteFileTx(db, user, r).value)
  {
    var db1 := db.(sources := db.sources[r.source := db.sources[r.source].(deletedBy := Some(user))]);
    SurroundingsKeepInv(db, db1);
    RequestKeepsInv(db1, r.(kind := DeleteBlob, actor := user, authorizationId := r.source));
  }

  lemma StepKeepsInv(db: Db, c: Call)
    requires Inv(db)
    ensures Inv(Step(db, c))
  {
    match c
    case DoRequest(r) => if RequestTx(db, r).Ok? { RequestKeepsInv(db, r); }
    case DoUpload(u, plans) =>
      if UploadTx(db, u, plans).Ok? {
        InsertUploadKeepsInv(db, u.project, plans);
        RequestAllKeepsInv(InsertUpload(db, u.project, plans).value, u, plans);
      }
    case DoDeleteFile(u, r) => if DeleteFileTx(db, u, r).Ok? { DeleteFileKeepsInv(db, u, r); }
    case DoClaim(n, l, e, locked, t) =>
      if ClaimTx(db, n, l, e, locked, t).Ok? { ClaimKeepsInv(db, n, l, e, locked, t); }
    case DoComplete(k) => if CompleteTx(db, k).Ok? { CompleteKeepsInv(db, k); }
    case _ => DispatchKeepsInv(db, c);
  }

  lemma DispatchKeepsInv(db: Db, c: Call)
    requires Inv(db)
    requires !c.DoRequest? && !c.DoUpload? && !c.DoDeleteFile? && !c.DoClaim? && !c.DoComplete?
    ensures Inv(Step(db, c))
  {
    match c {
      case DoClaimOutbox(owner, rows) => ClaimOutboxSurroundings(db, owner, rows);
      case DoEnqueue(e) => if e in db.events { assert Promoted(db, e.file, e.generation); }
      case DoMarkPublished(e) => HeldEventSurroundings(db, c, e);
      case DoBackOff(e, t) => HeldEventSurroundings(db, c, e);
      case Environment(_, _, _) =>
    }
    SurroundingsKeepInv(db, Step(db, c));
  }

  lemma HeldEventSurroundings(db: Db, c: Call, e: Event)
    requires Inv(db) && (c == DoMarkPublished(e) || (c.DoBackOff? && c.failed == e))
    ensures Surroundings(db, Step(db, c))
  {
    var db1 := Step(db, c);
    if EventHeld(db, e) {
      assert OutboxOk(db, e.row);
      assert db1 == db.(outbox := db.outbox[e.row := db1.outbox[e.row]]);
      HeldRowSurroundings(db, e.row, db1);
    } else {
      assert db1 == db;
    }
  }

  lemma HeldRowSurroundings(db: Db, b: Id, db1: Db)
    requires Inv(db) && b in db.outbox && b in db1.outbox && db1 == db.(outbox := db.outbox[b := db1.outbox[b]])
    requires RowKept(db.outbox[b], db1.outbox[b])
    ensures Surroundings(db, db1)
  {}

  lemma ClaimOutboxSurroundings(db: Db, owner: Id, rows: set<Id>)
    requires Inv(db)
    ensures Surroundings(db, ClaimOutbox(db, owner, rows))
  {
    var db1 := ClaimOutbox(db, owner, rows);
    forall e | e in db1.events ensures e in db.events || Promoted(db, e.file, e.generation) {
      if e !in db.events { assert OutboxOk(db, e.row); }
    }
  }
}
