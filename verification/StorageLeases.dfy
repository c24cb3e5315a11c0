/** Leases and delays over runs: until one ends nobody else gets the work, and from
    then on it is due. Times are microseconds, leases and delays are seconds. */
module StorageLeases {
  import opened Options
  import opened StorageBroker
  import opened StorageRuns

  lemma StepTime(db: Db, c: Call)
    ensures Step(db, c).now >= db.now && Step(db, c).control == db.control
  {
    match c {
      case DoUpload(u, plans) => UploadTime(db, u, plans);
      case DoClaim(_, _, _, _, _) => ClaimTime(db, c);
      case DoDeleteFile(u, r) => DeleteTime(db, u, r);
      case DoRequest(r) => RequestTime(db, r);
      case _ =>
    }
  }

  lemma ClaimTime(db: Db, c: Call)
    requires c.DoClaim?
    ensures Step(db, c).now == db.now && Step(db, c).control == db.control
  {}

  lemma RequestTime(db: Db, r: Request)
    ensures RequestTx(db, r).Ok? ==>
      RequestTx(db, r).value.0.now == db.now && RequestTx(db, r).value.0.control == db.control
  {}

  lemma DeleteTime(db: Db, user: Id, r: Request)
    ensures DeleteFileTx(db, user, r).Ok? ==>
      DeleteFileTx(db, user, r).value.now == db.now && DeleteFileTx(db, user, r).value.control == db.control
  {
    if DeleteFileTx(db, user, r).Ok? {
      RequestTime(db.(sources := db.sources[r.source := db.sources[r.source].(deletedBy := Some(user))]),
                  r.(kind := DeleteBlob, actor := user, authorizationId := r.source));
    }
  }

  lemma {:induction false} InsertTime(db: Db, project: Id, plans: seq<Plan>)
    ensures InsertUpload(db, project, plans).Ok? ==>
      InsertUpload(db, project, plans).value.now == db.now && InsertUpload(db, project, plans).value.control == db.control
    decreases |plans|
  {
    if plans != [] && InsertUpload(db, project, plans).Ok? {
      var p := plans[0];
      InsertTime(db.(
        sources := db.sources[p.source := Source(project, 1, None)],
        outbox := db.outbox[p.authorizationId :=
          Outbox(p.source, project, 1, StoragePreparing, None, None, None, db.now)]), project, plans[1..]);
    }
  }

  lemma {:induction false} RequestAllTime(db: Db, u: Upload, plans: seq<Plan>)
    ensures RequestAll(db, u, plans).Ok? ==>
      RequestAll(db, u, plans).value.now == db.now && RequestAll(db, u, plans).value.control == db.control
    decreases |plans|
  {
    if plans != [] && RequestAll(db, u, plans).Ok? {
      RequestTime(db, PromoteRequest(u, plans[0]));
      RequestAllTime(RequestTx(db, PromoteRequest(u, plans[0])).value.0, u, plans[1..]);
    }
  }

  lemma UploadTime(db: Db, u: Upload, plans: seq<Plan>)
    ensures UploadTx(db, u, plans).Ok? ==>
      UploadTx(db, u, plans).value.now == db.now && UploadTx(db, u, plans).value.control == db.control
  {
    InsertTime(db, u.project, plans);
    if UploadTx(db, u, plans).Ok? { RequestAllTime(InsertUpload(db, u.project, plans).value, u, plans); }
  }

  // ---------------------------------------------------------------------------
  // Only claims and completions of an intent write its row

  predicate Completes(db: Db, c: Call, id: Id) {
    Commits(db, c) && c.completion.intent == id
  }

  // Some call of the run commits a completion of the intent.
  predicate CompletedIn(db: Db, calls: seq<Call>, id: Id)
    decreases |calls|
  {
    calls != [] && (Completes(db, calls[0], id) || CompletedIn(Step(db, calls[0]), calls[1..], id))
  }

  lemma RequestKeepsRow(db: Db, r: Request, id: Id)
    requires RequestTx(db, r).Ok? && id in db.intents
    ensures id in RequestTx(db, r).value.0.intents && RequestTx(db, r).value.0.intents[id] == db.intents[id]
  {
    var db1, db2 := WithObject(db, r).value, RequestTx(db, r).value.0;
    assert db2.intents == db.intents
      || (r.intent !in db.intents && db2.intents == db.intents[r.intent := NewIntent(db1, r)]);
  }

  lemma {:induction false} RequestAllKeepsRow(db: Db, u: Upload, plans: seq<Plan>, id: Id)
    requires RequestAll(db, u, plans).Ok? && id in db.intents
    ensures id in RequestAll(db, u, plans).value.intents && RequestAll(db, u, plans).value.intents[id] == db.intents[id]
    decreases |plans|
  {
    if plans != [] {
      RequestKeepsRow(db, PromoteRequest(u, plans[0]), id);
      RequestAllKeepsRow(RequestTx(db, PromoteRequest(u, plans[0])).value.0, u, plans[1..], id);
    }
  }

  lemma ClientKeepsRow(db: Db, c: Call, id: Id)
    requires id in db.intents && (c.DoRequest? || c.DoUpload? || c.DoDeleteFile?)
    ensures id in Step(db, c).intents && Step(db, c).intents[id] == db.intents[id]
  {
    match c {
      case DoRequest(r) => if RequestTx(db, r).Ok? { RequestKeepsRow(db, r, id); }
      case DoUpload(u, plans) =>
        if UploadTx(db, u, plans).Ok? {
          InsertUploadKeepsRows(db, u.project, plans);
          RequestAllKeepsRow(InsertUpload(db, u.project, plans).value, u, plans, id);
        }
      case DoDeleteFile(u, r) =>
        if DeleteFileTx(db, u, r).Ok? {
          RequestKeepsRow(
            db.(sources := db.sources[r.source := db.sources[r.source].(deletedBy := Some(u))]),
            r.(kind := DeleteBlob, actor := u, authorizationId := r.source), id);
        }
    }
  }

  lemma WorkerKeepsRow(db: Db, c: Call, id: Id)
    requires id in db.intents && (c.DoClaim? || c.DoComplete?) && ClaimedBy(db, c) != Some(id) && !Completes(db, c, id)
    ensures id in Step(db, c).intents && Step(db, c).intents[id] == db.intents[id]
  {
    if c.DoComplete? { CompletionKeepsRow(db, c.completion, id); }
  }

  lemma CompletionKeepsRow(db: Db, c: Completion, id: Id)
    requires id in db.intents && (CompleteTx(db, c).Ok? ==> c.intent != id)
    ensures id in Step(db, DoComplete(c)).intents && Step(db, DoComplete(c)).intents[id] == db.intents[id]
  {}

  lemma StepKeepsRow(db: Db, c: Call, id: Id)
    requires id in db.intents && ClaimedBy(db, c) != Some(id) && !Completes(db, c, id)
    ensures id in Step(db, c).intents && Step(db, c).intents[id] == db.intents[id]
  {
    if c.DoRequest? || c.DoUpload? || c.DoDeleteFile? {
      ClientKeepsRow(db, c, id);
    } else if c.DoClaim? || c.DoComplete? {
      WorkerKeepsRow(db, c, id);
    } else {
      OtherStepsKeepIntents(db, c);
    }
  }

  // The row waits until the given time.
  predicate Waits(row: Intent, until: Micros) {
    || (row.status.Executing? && row.expires == Some(until))
    || (row.status.Retry? && row.nextAttempt == Some(until))
  }

  lemma WaitingIsNotClaimed(db: Db, c: Call, id: Id, until: Micros)
    requires id in db.intents && Waits(db.intents[id], until) && db.now < until
    ensures ClaimedBy(db, c) != Some(id)
  {}

  // A row that waits is claimed by nobody before its time, and until it is claimed
  // it stays as it is.
  lemma {:induction false} WaitsThroughRun(db: Db, calls: seq<Call>, id: Id, until: Micros)
    requires id in db.intents && Waits(db.intents[id], until) && !CompletedIn(db, calls, id)
    ensures var later := Run(db, calls);
      && later.now >= db.now && later.control == db.control
      && (later.now < until ==> ClaimsOf(db, calls, id) == 0)
      && (ClaimsOf(db, calls, id) == 0 ==> id in later.intents && later.intents[id] == db.intents[id])
    decreases |calls|
  {
    if calls != [] {
      var c, n := calls[0], Step(db, calls[0]);
      StepTime(db, c);
      if ClaimedBy(db, c) != Some(id) {
        StepKeepsRow(db, c, id);
        WaitsThroughRun(n, calls[1..], id, until);
      } else {
        RunTime(n, calls[1..]);
        if db.now < until { WaitingIsNotClaimed(db, c, id, until); }
      }
    }
  }

  lemma {:induction false} RunTime(db: Db, calls: seq<Call>)
    ensures Run(db, calls).now >= db.now && Run(db, calls).control == db.control
    decreases |calls|
  {
    if calls != [] {
      StepTime(db, calls[0]);
      RunTime(Step(db, calls[0]), calls[1..]);
    }
  }

  // A valid claim that finds every other row locked.
  ghost predicate OnlyFree(db: Db, c: Call, id: Id, epoch: Id) {
    && c.DoClaim? && c.instance != "" && 5 <= c.lease <= 300 && c.epoch == epoch && EpochOpen(db, epoch)
    && id !in c.locked && forall i | i in db.intents && i != id :: i in c.locked
  }

  lemma OnlyFreeIsClaimed(db: Db, c: Call, id: Id, until: Micros)
    requires id in db.intents && Waits(db.intents[id], until) && db.now >= until && Authorised(db.intents[id])
    requires OnlyFree(db, c, id, db.intents[id].epoch)
    ensures ClaimedBy(db, c) == Some(id)
  {
    ClaimFindsDueWork(db, c.epoch, c.locked);
    assert Claimable(db, c.epoch, c.locked, id);
    assert Pick(db, c.epoch, c.locked) == Some(id);
  }

  // ---------------------------------------------------------------------------
  // Leases

  lemma ClaimWrites(db: Db, claim: Call, id: Id)
    requires ClaimedBy(db, claim) == Some(id)
    ensures var n := Step(db, claim);
      && claim.DoClaim? && EpochOpen(db, claim.epoch) && id in db.intents && id in n.intents
      && n.now == db.now && n.control == db.control
      && n.intents[id].epoch == claim.epoch && Authorised(n.intents[id])
      && n.intents[id].token == Some(claim.token) && n.intents[id].fence == db.intents[id].fence + 1
      && Waits(n.intents[id], db.now + claim.lease * 1_000_000)
  {}

  // A claimed intent is its claimant's for the seconds of the lease: unless it
  // completes the intent, no claim in any continuation returns it before the lease
  // ends, and the first claim that finds it free from then on does.
  lemma LeaseIsExclusive(db: Db, claim: Call, calls: seq<Call>, next: Call, id: Id)
    requires ClaimedBy(db, claim) == Some(id) && !CompletedIn(Step(db, claim), calls, id)
    ensures var later, end := Run(Step(db, claim), calls), db.now + claim.lease * 1_000_000;
      && (later.now < end ==> ClaimsOf(Step(db, claim), calls, id) == 0 && ClaimedBy(later, next) != Some(id))
      && (later.now >= end && ClaimsOf(Step(db, claim), calls, id) == 0 && OnlyFree(later, next, id, claim.epoch) ==>
            ClaimedBy(later, next) == Some(id))
  {
    var n, end := Step(db, claim), db.now + claim.lease * 1_000_000;
    ClaimWrites(db, claim, id);
    WaitsThroughRun(n, calls, id, end);
    var later := Run(n, calls);
    if ClaimsOf(n, calls, id) == 0 {
      if later.now < end {
        WaitingIsNotClaimed(later, next, id, end);
      } else if OnlyFree(later, next, id, claim.epoch) {
        OnlyFreeIsClaimed(later, next, id, end);
      }
    }
  }

  // Until its lease ends or the intent is claimed again, the claimant's completion
  // is the one whose fence is held.
  lemma ClaimantHoldsFence(db: Db, claim: Call, calls: seq<Call>, id: Id)
    requires ClaimedBy(db, claim) == Some(id) && !CompletedIn(Step(db, claim), calls, id)
    requires ClaimsOf(Step(db, claim), calls, id) == 0
    ensures forall c: Completion | c.intent == id :: FenceHeld(Run(Step(db, claim), calls), c) <==>
      c.epoch == claim.epoch && c.token == claim.token && c.fence == db.intents[id].fence + 1
  {
    ClaimWrites(db, claim, id);
    WaitsThroughRun(Step(db, claim), calls, id, db.now + claim.lease * 1_000_000);
    ClaimExecutes(db, claim, id);
  }

  lemma ClaimExecutes(db: Db, claim: Call, id: Id)
    requires ClaimedBy(db, claim) == Some(id)
    ensures id in Step(db, claim).intents && Step(db, claim).intents[id].status.Executing?
  {}

  // ---------------------------------------------------------------------------
  // Retries

  lemma RetryWrites(db: Db, c: Completion)
    requires Commits(db, DoComplete(c)) && c.outcome == Some(Retry)
    ensures var n := Step(db, DoComplete(c));
      && c.retryAfter.Some? && c.intent in n.intents && n.intents[c.intent].status.Retry?
      && n.now == db.now && n.control == db.control && EpochOpen(n, c.epoch)
      && n.intents[c.intent].epoch == c.epoch && Authorised(n.intents[c.intent])
      && Waits(n.intents[c.intent], db.now + c.retryAfter.value * 1_000_000)
  {}

  lemma NotCompletedWhileWaiting(db: Db, c: Call, id: Id)
    requires id in db.intents && db.intents[id].status.Retry?
    ensures !Completes(db, c, id)
  {}

  lemma {:induction false} RetryIsNotCompleted(db: Db, calls: seq<Call>, id: Id)
    requires id in db.intents && db.intents[id].status.Retry? && ClaimsOf(db, calls, id) == 0
    ensures !CompletedIn(db, calls, id)
    decreases |calls|
  {
    if calls != [] {
      NotCompletedWhileWaiting(db, calls[0], id);
      StepKeepsRow(db, calls[0], id);
      RetryIsNotCompleted(Step(db, calls[0]), calls[1..], id);
    }
  }

  // An early claim is the first one, and nothing completes the intent before it.
  lemma {:induction false} RetryNotClaimedEarly(db: Db, calls: seq<Call>, id: Id, until: Micros)
    requires id in db.intents && db.intents[id].status.Retry? && Waits(db.intents[id], until)
    requires Run(db, calls).now < until
    ensures ClaimsOf(db, calls, id) == 0
    decreases |calls|
  {
    if calls != [] {
      RunTime(db, calls);
      WaitingIsNotClaimed(db, calls[0], id, until);
      NotCompletedWhileWaiting(db, calls[0], id);
      StepKeepsRow(db, calls[0], id);
      RetryNotClaimedEarly(Step(db, calls[0]), calls[1..], id, until);
    }
  }

  // A retry waits for exactly the seconds it was given: no claim in any
  // continuation returns the intent earlier, and a claim that finds it free does
  // from then on.
  lemma RetryWaits(db: Db, c: Completion, calls: seq<Call>, next: Call)
    requires Commits(db, DoComplete(c)) && c.outcome == Some(Retry)
    ensures c.retryAfter.Some?
    ensures var n := Step(db, DoComplete(c));
      var later, end := Run(n, calls), db.now + c.retryAfter.value * 1_000_000;
      && (later.now < end ==> ClaimsOf(n, calls, c.intent) == 0 && ClaimedBy(later, next) != Some(c.intent))
      && (later.now >= end && ClaimsOf(n, calls, c.intent) == 0 && OnlyFree(later, next, c.intent, c.epoch) ==>
            ClaimedBy(later, next) == Some(c.intent))
  {
    RetryWrites(db, c);
    var n, id := Step(db, DoComplete(c)), c.intent;
    var later, end := Run(n, calls), db.now + c.retryAfter.value * 1_000_000;
    if later.now < end { RetryNotClaimedEarly(n, calls, id, end); }
    if ClaimsOf(n, calls, id) == 0 {
      RetryIsNotCompleted(n, calls, id);
      WaitsThroughRun(n, calls, id, end);
      if later.now < end {
        WaitingIsNotClaimed(later, next, id, end);
      } else if OnlyFree(later, next, id, c.epoch) {
        OnlyFreeIsClaimed(later, next, id, end);
      }
    }
  }

  // ---------------------------------------------------------------------------
  // Outbox rows in a dispatcher's hands

  // The dispatcher gives the row back, or marks it.
  predicate LetsGo(c: Call, b: Id, owner: Id) {
    || (c.DoMarkPublished? && c.marked.row == b && c.marked.owner == owner)
    || (c.DoBackOff? && c.failed.row == b && c.failed.owner == owner)
  }

  predicate Takes(db: Db, c: Call, b: Id) {
    c.DoClaimOutbox? && b in c.rows && b in db.outbox && OutboxDue(db.outbox[b], db.now)
  }

  predicate Leased(row: Outbox, owner: Id, until: Micros) {
    row.status.Publishable? && row.nextAttempt <= until && row.owner == Some(owner) && row.expires == Some(until)
  }

  lemma LeasedIsNotTaken(db: Db, c: Call, b: Id, owner: Id, until: Micros)
    requires b in db.outbox && Leased(db.outbox[b], owner, until)
    ensures Takes(db, c, b) ==> db.now >= until
    ensures db.now >= until ==> OutboxDue(db.outbox[b], db.now)
  {}

  lemma RequestKeepsLease(db: Db, r: Request, b: Id, owner: Id, until: Micros)
    requires RequestTx(db, r).Ok? && b in db.outbox && Leased(db.outbox[b], owner, until)
    ensures var n := RequestTx(db, r).value.0; b in n.outbox && n.outbox[b] == db.outbox[b]
  {}

  lemma {:induction false} RequestAllKeepsLease(db: Db, u: Upload, plans: seq<Plan>, b: Id, owner: Id, until: Micros)
    requires RequestAll(db, u, plans).Ok? && b in db.outbox && Leased(db.outbox[b], owner, until)
    ensures var n := RequestAll(db, u, plans).value; b in n.outbox && n.outbox[b] == db.outbox[b]
    decreases |plans|
  {
    if plans != [] {
      RequestKeepsLease(db, PromoteRequest(u, plans[0]), b, owner, until);
      RequestAllKeepsLease(RequestTx(db, PromoteRequest(u, plans[0])).value.0, u, plans[1..], b, owner, until);
    }
  }

  lemma {:induction false} InsertKeepsOutbox(db: Db, project: Id, plans: seq<Plan>, b: Id)
    requires InsertUpload(db, project, plans).Ok? && b in db.outbox
    ensures var n := InsertUpload(db, project, plans).value; b in n.outbox && n.outbox[b] == db.outbox[b]
    decreases |plans|
  {
    if plans != [] {
      var p := plans[0];
      InsertKeepsOutbox(db.(
        sources := db.sources[p.source := Source(project, 1, None)],
        outbox := db.outbox[p.authorizationId :=
          Outbox(p.source, project, 1, StoragePreparing, None, None, None, db.now)]), project, plans[1..], b);
    }
  }

  lemma ClientKeepsLease(db: Db, c: Call, b: Id, owner: Id, until: Micros)
    requires b in db.outbox && Leased(db.outbox[b], owner, until)
    requires c.DoRequest? || c.DoUpload? || c.DoDeleteFile?
    ensures b in Step(db, c).outbox && Step(db, c).outbox[b] == db.outbox[b]
  {
    match c {
      case DoRequest(r) => if RequestTx(db, r).Ok? { RequestKeepsLease(db, r, b, owner, until); }
      case DoUpload(u, plans) =>
        if UploadTx(db, u, plans).Ok? {
          InsertKeepsOutbox(db, u.project, plans, b);
          RequestAllKeepsLease(InsertUpload(db, u.project, plans).value, u, plans, b, owner, until);
        }
      case DoDeleteFile(u, r) =>
        if DeleteFileTx(db, u, r).Ok? {
          RequestKeepsLease(
            db.(sources := db.sources[r.source := db.sources[r.source].(deletedBy := Some(u))]),
            r.(kind := DeleteBlob, actor := u, authorizationId := r.source), b, owner, until);
        }
    }
  }

  lemma StepKeepsLease(db: Db, c: Call, b: Id, owner: Id, until: Micros)
    requires b in db.outbox && Leased(db.outbox[b], owner, until) && !LetsGo(c, b, owner) && !Takes(db, c, b)
    ensures b in Step(db, c).outbox && Step(db, c).outbox[b] == db.outbox[b]
  {
    if c.DoRequest? || c.DoUpload? || c.DoDeleteFile? {
      ClientKeepsLease(db, c, b, owner, until);
    } else if c.DoComplete? {
      CompletionKeepsLease(db, c.completion, b, owner, until);
    } else {
      DispatchKeepsLease(db, c, b, owner, until);
    }
  }

  lemma CompletionKeepsLease(db: Db, c: Completion, b: Id, owner: Id, until: Micros)
    requires b in db.outbox && Leased(db.outbox[b], owner, until)
    ensures b in Step(db, DoComplete(c)).outbox && Step(db, DoComplete(c)).outbox[b] == db.outbox[b]
  {}

  lemma DispatchKeepsLease(db: Db, c: Call, b: Id, owner: Id, until: Micros)
    requires b in db.outbox && Leased(db.outbox[b], owner, until) && !LetsGo(c, b, owner) && !Takes(db, c, b)
    requires !c.DoRequest? && !c.DoUpload? && !c.DoDeleteFile? && !c.DoComplete?
    ensures b in Step(db, c).outbox && Step(db, c).outbox[b] == db.outbox[b]
  {}

  // Some call of the run takes the row.
  predicate TakenIn(db: Db, calls: seq<Call>, b: Id)
    decreases |calls|
  {
    calls != [] && (Takes(db, calls[0], b) || TakenIn(Step(db, calls[0]), calls[1..], b))
  }

  // A row a dispatcher claimed is its own for sixty seconds, unless it lets go of it,
  // and due again from then on.
  lemma {:induction false} OutboxLeaseIsExclusive(db: Db, owner: Id, rows: set<Id>, b: Id, calls: seq<Call>)
    requires Takes(db, DoClaimOutbox(owner, rows), b)
    requires forall c | c in calls :: !LetsGo(c, b, owner)
    ensures var n := Step(db, DoClaimOutbox(owner, rows));
      var later := Run(n, calls);
      && (later.now < db.now + 60_000_000 ==> !TakenIn(n, calls, b))
      && (!TakenIn(n, calls, b) ==>
            b in later.outbox && later.outbox[b].owner == Some(owner)
            && (OutboxDue(later.outbox[b], later.now) <==> later.now >= db.now + 60_000_000))
  {
    LeaseThroughRun(Step(db, DoClaimOutbox(owner, rows)), calls, b, owner, db.now + 60_000_000);
  }

  lemma {:induction false} LeaseThroughRun(db: Db, calls: seq<Call>, b: Id, owner: Id, until: Micros)
    requires b in db.outbox && Leased(db.outbox[b], owner, until)
    requires forall c | c in calls :: !LetsGo(c, b, owner)
    ensures var later := Run(db, calls);
      && later.now >= db.now
      && (later.now < until ==> !TakenIn(db, calls, b))
      && (!TakenIn(db, calls, b) ==> b in later.outbox && Leased(later.outbox[b], owner, until))
    decreases |calls|
  {
    if calls != [] {
      var c, n := calls[0], Step(db, calls[0]);
      StepTime(db, c);
      LeasedIsNotTaken(db, c, b, owner, until);
      if Takes(db, c, b) {
        RunTime(n, calls[1..]);
      } else {
        StepKeepsLease(db, c, b, owner, until);
        LeaseThroughRun(n, calls[1..], b, owner, until);
      }
    }
  }
}
