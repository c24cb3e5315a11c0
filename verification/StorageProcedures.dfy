/** The procedures as the server runs them: statements over the tables, row counts
    compared after each UPDATE, and the exit handler's ROLLBACK on any error. Each
    method leaves the tables exactly as the corresponding transaction function
    says, so everything proved about runs of those functions holds of the code. */
module StorageProcedures {
  import opened Options
  import opened StorageBroker

  class Session {
    var tables: Db

    constructor (control: Option<Control>)
      ensures tables == Empty(control)
    {
      tables := Empty(control);
    }

    // UPDATE storage_objects SET state=... WHERE id=... AND state=...
    method UpdateObjectState(id: Id, from: ObjectState, to: ObjectState) returns (rowCount: nat)
      modifies this
      ensures rowCount == (if id in old(tables).objects && old(tables).objects[id].state == from then 1 else 0)
      ensures rowCount == 0 ==> tables == old(tables)
      ensures rowCount == 1 ==>
        tables == old(tables).(objects := old(tables).objects[id := old(tables).objects[id].(state := to)])
    {
      rowCount := 0;
      if id in tables.objects && tables.objects[id].state == from {
        tables := tables.(objects := tables.objects[id := tables.objects[id].(state := to)]);
        rowCount := 1;
      }
    }

    // The idempotency probe: does any intent use this id or this key?
    method IntentExists(id: Id, key: Id) returns (found: bool)
      ensures found <==> exists i | i in tables.intents :: i == id || tables.intents[i].idempotencyKey == key
    {
      var rest := tables.intents.Keys;
      found := false;
      while rest != {}
        invariant rest <= tables.intents.Keys
        invariant found <==> exists i | i in tables.intents.Keys - rest ::
          i == id || tables.intents[i].idempotencyKey == key
        decreases rest
      {
        var i :| i in rest;
        if i == id || tables.intents[i].idempotencyKey == key { found := true; }
        rest := rest - {i};
      }
    }

    // One of the four sp_storage_request_*_v1 routines, by kind.
    method Request(r: Request) returns (reply: Result<Reply, Error>)
      modifies this
      ensures RequestTx(old(tables), r).Ok? ==>
        tables == RequestTx(old(tables), r).value.0 && reply == Ok(RequestTx(old(tables), r).value.1)
      ensures RequestTx(old(tables), r).Err? ==>
        tables == old(tables) && reply == Err(RequestTx(old(tables), r).error)
    {
      var savepoint := tables;
      if !EpochOpen(tables, r.epoch) { return Err(EpochMismatch); }
      if r.project !in tables.projects || tables.projects[r.project] != r.actor {
        return Err(ProjectForbidden);
      }
      if r.source !in tables.sources || tables.sources[r.source].project != r.project
        || tables.sources[r.source].generation != r.generation {
        return Err(GenerationMismatch);
      }

      if r.kind.Promote? && r.objectId !in tables.objects {
        if exists x | x in tables.objects ::
          tables.objects[x].key == r.key
          || (tables.objects[x].source == r.source && tables.objects[x].generation == r.generation) {
          return Err(DuplicateKey);
        }
        var o := Object(r.project, r.source, r.generation, r.key, r.sha, r.size, Staging);
        tables := tables.(objects := tables.objects[r.objectId := o]);
      } else if r.objectId !in tables.objects || !Coordinates(tables.objects[r.objectId], r)
        || (r.kind.Promote? && (tables.objects[r.objectId].state.DeletePending?
                                || tables.objects[r.objectId].state.Deleted?)) {
        return Err(if r.kind.Promote? then IdempotencyMismatch else ObjectMismatch);
      }
      if !RequestAuthorised(tables, r) {
        tables := savepoint;
        return Err(AuthorizationInvalid);
      }

      var found := IntentExists(r.intent, r.idempotencyKey);
      if found {
        if r.intent in tables.intents && SameOperation(tables.intents[r.intent], r) {
          var i := tables.intents[r.intent];
          return Ok(Reply(r.intent, i.status, i.fence, i.result));
        }
        tables := savepoint;
        return Err(IdempotencyMismatch);
      }

      var row := NewIntent(tables, r);
      if r.kind.DeleteBlob? || r.kind.AbortPromotion? {
        var changed := UpdateObjectState(r.objectId, if r.kind.DeleteBlob? then Available else Staging, DeletePending);
        if changed != 1 {
          tables := savepoint;
          return Err(ObjectStateInvalid);
        }
      }
      if !Shape(row) {
        tables := savepoint;
        return Err(ShapeViolated);
      }
      tables := tables.(intents := tables.intents[r.intent := row]);
      if r.kind.Promote? {
        var b := r.authorizationId;
        if !OutboxNamed(tables, r) || !tables.outbox[b].status.StoragePreparing? || tables.outbox[b].intent.Some? {
          tables := savepoint;
          return Err(OutboxStateInvalid);
        }
        tables := tables.(outbox :=
          tables.outbox[b := tables.outbox[b].(status := StoragePending, intent := Some(r.intent))]);
      }
      return Ok(Reply(r.intent, Pending, 0, None));
    }

    // sp_storage_claim_v1; the scan is ORDER BY created_at, id LIMIT 1 SKIP LOCKED.
    method Claim(instance: string, lease: nat, epoch: Id, locked: set<Id>, token: Id)
      returns (claimed: Result<Option<Id>, Error>)
      modifies this
      ensures ClaimTx(old(tables), instance, lease, epoch, locked, token).Ok? ==>
        && tables == ClaimTx(old(tables), instance, lease, epoch, locked, token).value.0
        && claimed == Ok(ClaimTx(old(tables), instance, lease, epoch, locked, token).value.1)
      ensures ClaimTx(old(tables), instance, lease, epoch, locked, token).Err? ==>
        tables == old(tables) && claimed == Err(ClaimTx(old(tables), instance, lease, epoch, locked, token).error)
    {
      if instance == "" || lease < 5 || lease > 300 { return Err(ClaimInvalid); }
      if !EpochOpen(tables, epoch) { return Err(EpochMismatch); }
      var best := OldestDue(epoch, locked);
      if best.None? { return Ok(None); }
      var id := best.value;
      var row := Claimed(tables.intents[id], token, tables.now + lease * SECOND);
      if Terminal(tables.intents[id].status) { return Err(TerminalImmutable); }
      if !Shape(row) { return Err(ShapeViolated); }
      tables := tables.(intents := tables.intents[id := row]);
      return Ok(Some(id));
    }

    method OldestDue(epoch: Id, locked: set<Id>) returns (best: Option<Id>)
      ensures best == Pick(tables, epoch, locked)
    {
      var rest := tables.intents.Keys;
      best := None;
      while rest != {}
        invariant rest <= tables.intents.Keys
        invariant best.None? ==> forall i | i in tables.intents.Keys - rest :: !Claimable(tables, epoch, locked, i)
        invariant best.Some? ==> Claimable(tables, epoch, locked, best.value)
        invariant best.Some? ==> forall i | i in tables.intents.Keys - rest ::
          Claimable(tables, epoch, locked, i) ==> NotAfter(tables, best.value, i)
        decreases rest
      {
        var i :| i in rest;
        if Claimable(tables, epoch, locked, i) && (best.None? || NotAfter(tables, i, best.value)) {
          best := Some(i);
        }
        rest := rest - {i};
      }
      assert best.Some? ==> best.value in tables.intents && IsPick(tables, epoch, locked, best.value);
    }

    // sp_storage_complete_v1
    method Complete(c: Completion) returns (done: Result<Status, Error>)
      modifies this
      ensures CompleteTx(old(tables), c).Ok? ==>
        tables == CompleteTx(old(tables), c).value && done.Ok? && c.outcome == Some(done.value)
      ensures CompleteTx(old(tables), c).Err? ==>
        tables == old(tables) && done == Err(CompleteTx(old(tables), c).error)
    {
      var savepoint := tables;
      if c.outcome.None? || c.outcome.value.Pending? || c.outcome.value.Executing? {
        return Err(CompletionInvalid);
      }
      if !EpochOpen(tables, c.epoch) { return Err(EpochMismatch); }
      if c.intent !in tables.intents || tables.intents[c.intent].objectId !in tables.objects {
        return Err(FenceLost);
      }
      var i := tables.intents[c.intent];
      if !FenceHeld(tables, c) { return Err(FenceLost); }
      if !WellFormed(c) { return Err(CompletionInvalid); }
      if c.outcome.value.Succeeded? {
        if i.kind.Promote? {
          var changed := UpdateObjectState(i.objectId, Staging, Available);
          if changed != 1 {
            tables := savepoint;
            return Err(ObjectStateInvalid);
          }
          assert OutboxWaitingFor(tables, c.intent) == OutboxWaitingFor(savepoint, c.intent);
          var waiting := OutboxWaitingFor(tables, c.intent);
          tables := tables.(outbox := map b | b in tables.outbox ::
            if b in waiting then Released(tables.outbox[b], tables.now) else tables.outbox[b]);
          if |waiting| != 1 {
            tables := savepoint;
            return Err(OutboxStateInvalid);
          }
        } else if i.kind.DeleteBlob? || i.kind.AbortPromotion? {
          var changed := UpdateObjectState(i.objectId, DeletePending, Deleted);
          if changed != 1 {
            tables := savepoint;
            return Err(ObjectStateInvalid);
          }
        }
      }
      var row := Finished(i, c, tables.now);
      if Terminal(i.status) || !Shape(row) {
        tables := savepoint;
        return Err(if Terminal(i.status) then TerminalImmutable else ShapeViolated);
      }
      tables := tables.(intents := tables.intents[c.intent := row]);
      return Ok(c.outcome.value);
    }

    // The broker upload: all rows of all files, then all PROMOTE requests, in one
    // transaction that any error rolls back.
    method UploadFiles(u: Upload, plans: seq<Plan>) returns (done: Result<nat, Error>)
      modifies this
      ensures tables == Committed(old(tables), UploadTx(old(tables), u, plans))
      ensures done == match UploadTx(old(tables), u, plans) case Ok(_) => Ok(|plans|) case Err(e) => Err(e)
    {
      var savepoint := tables;
      for k := 0 to |plans|
        invariant InsertUpload(savepoint, u.project, plans) == InsertUpload(tables, u.project, plans[k..])
      {
        var p := plans[k];
        if p.source in tables.sources || p.authorizationId in tables.outbox
          || (exists b | b in tables.outbox :: tables.outbox[b].file == p.source) {
          tables := savepoint;
          return Err(DuplicateKey);
        }
        if u.project !in tables.projects {
          tables := savepoint;
          return Err(ForeignKeyViolated);
        }
        tables := tables.(
          sources := tables.sources[p.source := Source(u.project, 1, None)],
          outbox := tables.outbox[p.authorizationId :=
            Outbox(p.source, u.project, 1, StoragePreparing, None, None, None, tables.now)]);
      }
      var inserted := tables;
      for k := 0 to |plans|
        invariant RequestAll(inserted, u, plans) == RequestAll(tables, u, plans[k..])
      {
        var reply := Request(PromoteRequest(u, plans[k]));
        if reply.Err? || reply.value.status.Rejected? {
          tables := savepoint;
          return Err(if reply.Err? then reply.error else RequestRejected);
        }
      }
      return Ok(|plans|);
    }

    // Tombstone the source and request the deletion of its blob.
    method DeleteFile(user: Id, r: Request) returns (done: Result<nat, Error>)
      modifies this
      ensures tables == Committed(old(tables), DeleteFileTx(old(tables), user, r))
      ensures done.Ok? <==> DeleteFileTx(old(tables), user, r).Ok?
    {
      var savepoint := tables;
      if r.source !in tables.sources || tables.sources[r.source].project != r.project
        || tables.sources[r.source].deletedBy.Some? {
        return Err(NotFound);
      }
      if r.objectId !in tables.objects || !Coordinates(tables.objects[r.objectId], r)
        || r.generation != tables.sources[r.source].generation
        || !tables.objects[r.objectId].state.Available? {
        return Err(ObjectNotAvailable);
      }
      tables := tables.(sources := tables.sources[r.source := tables.sources[r.source].(deletedBy := Some(user))]);
      var reply := Request(r.(kind := DeleteBlob, actor := user, authorizationId := r.source));
      if reply.Err? || reply.value.status.Rejected? {
        tables := savepoint;
        return Err(if reply.Err? then reply.error else RequestRejected);
      }
      return Ok(1);
    }
  }
}
