/** The broker protocol over whole runs: what holds in every database that any
    sequence of calls, in any interleaving, can reach. */
module StorageRuns {
  import opened Options
  import opened StorageBroker
  import opened StorageSafety

  // ---------------------------------------------------------------------------
  // One step only ever moves rows forward

  // The object states a state may still reach.
  predicate Follows(a: ObjectState, b: ObjectState) {
    a == b || a.Staging? || (a.Available? && !b.Staging?) || (a.DeletePending? && b.Deleted?)
  }

  // An intent row keeps its identity, its fence never shrinks, EXECUTING is only
  // entered under a larger fence, and a terminal row is never written again.
  ghost predicate RowAdvances(i: Intent, row: Intent) {
    SameIdentity(i, row) && i.fence <= row.fence
    && (i.fence == row.fence && !i.status.Executing? ==> !row.status.Executing?)
    && (Terminal(i.status) ==> row == i)
  }

  ghost predicate Advances(db: Db, db': Db) {
    && db.objects.Keys <= db'.objects.Keys
    && (forall o | o in db.objects :: SameCoordinates(db'.objects[o], db.objects[o])
          && Follows(db.objects[o].state, db'.objects[o].state))
    && db.intents.Keys <= db'.intents.Keys
    && (forall i | i in db.intents :: RowAdvances(db.intents[i], db'.intents[i]))
  }

  lemma AdvancesTransitive(a: Db, b: Db, c: Db)
    requires Advances(a, b) && Advances(b, c)
    ensures Advances(a, c)
  {
    forall i | i in a.intents ensures RowAdvances(a.intents[i], c.intents[i]) {
      assert RowAdvances(a.intents[i], b.intents[i]) && RowAdvances(b.intents[i], c.intents[i]);
    }
    forall o | o in a.objects
      ensures SameCoordinates(c.objects[o], a.objects[o]) && Follows(a.objects[o].state, c.objects[o].state)
    {
      assert Follows(a.objects[o].state, b.objects[o].state) && Follows(b.objects[o].state, c.objects[o].state);
    }
  }

  lemma WithObjectAdvances(db: Db, r: Request)
    requires WithObject(db, r).Ok?
    ensures Advances(db, WithObject(db, r).value) && r.objectId in WithObject(db, r).value.objects
  {}

  lemma InsertAdvances(db: Db, r: Request)
    requires r.objectId in db.objects && r.intent !in db.intents && InsertIntent(db, r).Ok?
    ensures Advances(db, InsertIntent(db, r).value)
  {}

  lemma RequestAdvances(db: Db, r: Request)
    requires RequestTx(db, r).Ok?
    ensures Advances(db, RequestTx(db, r).value.0)
  {
    WithObjectAdvances(db, r);
    var db1, db2 := WithObject(db, r).value, RequestTx(db, r).value.0;
    if db2 != db1 {
      InsertAdvances(db1, r);
      AdvancesTransitive(db, db1, db2);
    }
  }

  lemma {:induction false} RequestAllAdvances(db: Db, u: Upload, plans: seq<Plan>)
    requires RequestAll(db, u, plans).Ok?
    ensures Advances(db, RequestAll(db, u, plans).value)
    decreases |plans|
  {
    if plans != [] {
      var r := PromoteRequest(u, plans[0]);
      var db1 := RequestTx(db, r).value.0;
      RequestAdvances(db, r);
      RequestAllAdvances(db1, u, plans[1..]);
      AdvancesTransitive(db, db1, RequestAll(db, u, plans).value);
    }
  }

  lemma {:induction false} InsertUploadKeepsRows(db: Db, project: Id, plans: seq<Plan>)
    requires InsertUpload(db, project, plans).Ok?
    ensures InsertUpload(db, project, plans).value.objects == db.objects
    ensures InsertUpload(db, project, plans).value.intents == db.intents
    decreases |plans|
  {
    if plans != [] {
      var p := plans[0];
      InsertUploadKeepsRows(db.(
        sources := db.sources[p.source := Source(project, 1, None)],
        outbox := db.outbox[p.authorizationId :=
          Outbox(p.source, project, 1, StoragePreparing, None, None, None, db.now)]), project, plans[1..]);
    }
  }

  lemma SuccessEffectsAdvance(db: Db, id: Id)
    requires id in db.intents && db.intents[id].objectId in db.objects && SuccessEffects(db, id).Ok?
    ensures Advances(db, SuccessEffects(db, id).value) && SuccessEffects(db, id).value.intents == db.intents
  {}

  lemma WriteIntentAdvances(db: Db, id: Id, row: Intent)
    requires id in db.intents && WriteIntent(db, id, row).Ok? && RowAdvances(db.intents[id], row)
    ensures Advances(db, WriteIntent(db, id, row).value)
  {}

  lemma CompleteAdvances(db: Db, c: Completion)
    requires CompleteTx(db, c).Ok?
    ensures Advances(db, CompleteTx(db, c).value)
  {
    if c.outcome.value.Succeeded? {
      SuccessEffectsAdvance(db, c.intent);
      var db1 := SuccessEffects(db, c.intent).value;
      WriteIntentAdvances(db1, c.intent, Finished(db.intents[c.intent], c, db.now));
      AdvancesTransitive(db, db1, CompleteTx(db, c).value);
    } else {
      WriteIntentAdvances(db, c.intent, Finished(db.intents[c.intent], c, db.now));
    }
  }

  lemma UploadAdvances(db: Db, u: Upload, plans: seq<Plan>)
    requires UploadTx(db, u, plans).Ok?
    ensures Advances(db, UploadTx(db, u, plans).value)
  {
    InsertUploadKeepsRows(db, u.project, plans);
    RequestAllAdvances(InsertUpload(db, u.project, plans).value, u, plans);
  }

  lemma DeleteFileAdvances(db: Db, user: Id, r: Request)
    requires DeleteFileTx(db, user, r).Ok?
    ensures Advances(db, DeleteFileTx(db, user, r).value)
  {
    var db1 := db.(sources := db.sources[r.source := db.sources[r.source].(deletedBy := Some(user))]);
    RequestAdvances(db1, r.(kind := DeleteBlob, actor := user, authorizationId := r.source));
  }

  lemma ClaimAdvances(db: Db, instance: string, lease: nat, epoch: Id, locked: set<Id>, token: Id)
    requires ClaimTx(db, instance, lease, epoch, locked, token).Ok?
    ensures Advances(db, ClaimTx(db, instance, lease, epoch, locked, token).value.0)
  {
    var picked := ClaimTx(db, instance, lease, epoch, locked, token).value.1;
    if picked.Some? {
      WriteIntentAdvances(db, picked.value, Claimed(db.intents[picked.value], token, db.now + lease * SECOND));
    }
  }

  lemma StepAdvances(db: Db, c: Call)
    ensures Advances(db, Step(db, c))
  {
    if c.DoRequest? || c.DoUpload? || c.DoDeleteFile? {
      ClientStepAdvances(db, c);
    } else if c.DoClaim? || c.DoComplete? {
      WorkerStepAdvances(db, c);
    } else {
      OtherStepsKeepIntents(db, c);
    }
  }

  lemma OtherStepsKeepIntents(db: Db, c: Call)
    requires !c.DoRequest? && !c.DoUpload? && !c.DoDeleteFile? && !c.DoClaim? && !c.DoComplete?
    ensures Step(db, c).objects == db.objects && Step(db, c).intents == db.intents
  {}

  lemma WorkerStepAdvances(db: Db, c: Call)
    requires c.DoClaim? || c.DoComplete?
    ensures Advances(db, Step(db, c))
  {
    match c {
      case DoClaim(n, l, e, locked, t) =>
        if ClaimTx(db, n, l, e, locked, t).Ok? { ClaimAdvances(db, n, l, e, locked, t); }
      case DoComplete(k) => if CompleteTx(db, k).Ok? { CompleteAdvances(db, k); }
    }
  }

  lemma ClientStepAdvances(db: Db, c: Call)
    requires c.DoRequest? || c.DoUpload? || c.DoDeleteFile?
    ensures Advances(db, Step(db, c))
  {
    match c {
      case DoRequest(r) => if RequestTx(db, r).Ok? { RequestAdvances(db, r); }
      case DoUpload(u, plans) => if UploadTx(db, u, plans).Ok? { UploadAdvances(db, u, plans); }
      case DoDeleteFile(u, r) => if DeleteFileTx(db, u, r).Ok? { DeleteFileAdvances(db, u, r); }
    }
  }

  lemma {:induction false} RunAdvances(db: Db, calls: seq<Call>)
    ensures Advances(db, Run(db, calls))
    decreases |calls|
  {
    if calls != [] {
      StepAdvances(db, calls[0]);
      RunAdvances(Step(db, calls[0]), calls[1..]);
      AdvancesTransitive(db, Step(db, calls[0]), Run(db, calls));
    }
  }

  lemma {:induction false} RunAppend(db: Db, before: seq<Call>, after: seq<Call>)
    ensures Run(db, before + after) == Run(Run(db, before), after)
    decreases |before|
  {
    if before == [] {
      assert before + after == after;
    } else {
      assert (before + after)[1..] == before[1..] + after;
      RunAppend(Step(db, before[0]), before[1..], after);
    }
  }

  // ---------------------------------------------------------------------------
  // The invariant in every reachable database

  lemma {:induction false} RunKeepsInv(db: Db, calls: seq<Call>)
    requires Inv(db)
    ensures Inv(Run(db, calls))
    decreases |calls|
  {
    if calls != [] {
      StepKeepsInv(db, calls[0]);
      RunKeepsInv(Step(db, calls[0]), calls[1..]);
    }
  }

  function PromotesOf(db: Db, o: Id): set<Id> {
    set i | i in db.intents && db.intents[i].kind.Promote? && db.intents[i].objectId == o
  }

  function DeletionsOf(db: Db, o: Id): set<Id> {
    set i | i in db.intents && db.intents[i].objectId == o
            && (db.intents[i].kind.DeleteBlob? || db.intents[i].kind.AbortPromotion?)
  }

  lemma AtMostOne(s: set<Id>)
    requires forall a, b | a in s && b in s :: a == b
    ensures |s| <= 1
  {
    if s != {} {
      var a :| a in s;
      assert s == {a};
    }
  }

  // In every reachable database an object has exactly one PROMOTE intent and at
  // most one deletion intent, and the two decide its state.
  lemma ObjectStateIsDetermined(control: Option<Control>, calls: seq<Call>, o: Id)
    requires o in Run(Empty(control), calls).objects
    ensures var db := Run(Empty(control), calls);
      var promotes, deletions, state := PromotesOf(db, o), DeletionsOf(db, o), db.objects[o].state;
      && |promotes| == 1 && |deletions| <= 1
      && forall p | p in promotes ::
        var promoted := db.intents[p].status.Succeeded?;
        && (state.Staging? <==> deletions == {} && !promoted)
        && (state.Available? <==> deletions == {} && promoted)
        && (state.DeletePending? <==> exists d :: d in deletions && !db.intents[d].status.Succeeded?)
        && (state.Deleted? <==> exists d :: d in deletions && db.intents[d].status.Succeeded?)
        && (forall d | d in deletions :: db.intents[d].kind.DeleteBlob? <==> promoted)
  {
    RunKeepsInv(Empty(control), calls);
    var db := Run(Empty(control), calls);
    assert ObjectOk(db, o);
    var promotes, deletions := PromotesOf(db, o), DeletionsOf(db, o);
    assert forall i :: i in promotes <==> IsPromote(db, i, o);
    assert forall i :: i in deletions <==> IsDeletion(db, i, o);
    AtMostOne(promotes);
    AtMostOne(deletions);
    var p: Id :| IsPromote(db, p, o);
    assert promotes == {p};
    if HasDeletion(db, o) {
      var d: Id :| IsDeletion(db, d, o);
      assert deletions == {d};
    } else {
      assert deletions == {};
    }
  }

  // State never moves backward, and once an ABORT_PROMOTION intent exists the
  // object is never available again, whatever is called afterwards.
  lemma StateNeverMovesBackward(control: Option<Control>, before: seq<Call>, after: seq<Call>, o: Id)
    requires o in Run(Empty(control), before).objects
    ensures var db, later := Run(Empty(control), before), Run(Empty(control), before + after);
      && o in later.objects && SameCoordinates(later.objects[o], db.objects[o])
      && Follows(db.objects[o].state, later.objects[o].state)
      && forall d | d in DeletionsOf(db, o) && db.intents[d].kind.AbortPromotion? ::
           && d in DeletionsOf(later, o)
           && (later.objects[o].state.DeletePending? || later.objects[o].state.Deleted?)
           && forall p | p in PromotesOf(later, o) :: !later.intents[p].status.Succeeded?
  {
    var db, later := Run(Empty(control), before), Run(Empty(control), before + after);
    RunAppend(Empty(control), before, after);
    RunAdvances(db, after);
    RunKeepsInv(Empty(control), before + after);
    forall d | d in DeletionsOf(db, o) && db.intents[d].kind.AbortPromotion?
      ensures d in DeletionsOf(later, o)
      ensures later.objects[o].state.DeletePending? || later.objects[o].state.Deleted?
      ensures forall p | p in PromotesOf(later, o) :: !later.intents[p].status.Succeeded?
    {
      assert RowAdvances(db.intents[d], later.intents[d]);
      AbortedStaysAborted(later, o, d);
    }
  }

  lemma AbortedStaysAborted(db: Db, o: Id, d: Id)
    requires Inv(db) && o in db.objects && d in DeletionsOf(db, o) && db.intents[d].kind.AbortPromotion?
    ensures db.objects[o].state.DeletePending? || db.objects[o].state.Deleted?
    ensures forall p | p in PromotesOf(db, o) :: !db.intents[p].status.Succeeded?
  {
    assert ObjectOk(db, o);
    assert IsDeletion(db, d, o);
    forall p | p in PromotesOf(db, o) ensures !db.intents[p].status.Succeeded? {
      assert IsPromote(db, p, o);
    }
  }

  // ---------------------------------------------------------------------------
  // Row shapes, the terminal trigger and the fence

  ghost predicate RowsShaped(db: Db) {
    forall i | i in db.intents :: Shape(db.intents[i]) && db.intents[i].fence == db.intents[i].attempts
  }

  lemma RequestKeepsShapes(db: Db, r: Request)
    requires RowsShaped(db) && RequestTx(db, r).Ok?
    ensures RowsShaped(RequestTx(db, r).value.0)
  {
    var db1, db2 := WithObject(db, r).value, RequestTx(db, r).value.0;
    assert db1.intents == db.intents;
    assert db2.intents == db.intents || (r.intent !in db.intents
      && db2.intents == db.intents[r.intent := NewIntent(db1, r)] && Shape(NewIntent(db1, r)));
  }

  lemma {:induction false} RequestAllKeepsShapes(db: Db, u: Upload, plans: seq<Plan>)
    requires RowsShaped(db) && RequestAll(db, u, plans).Ok?
    ensures RowsShaped(RequestAll(db, u, plans).value)
    decreases |plans|
  {
    if plans != [] {
      RequestKeepsShapes(db, PromoteRequest(u, plans[0]));
      RequestAllKeepsShapes(RequestTx(db, PromoteRequest(u, plans[0])).value.0, u, plans[1..]);
    }
  }

  lemma StepKeepsShapes(db: Db, c: Call)
    requires RowsShaped(db)
    ensures RowsShaped(Step(db, c))
  {
    match c {
      case DoRequest(r) => if RequestTx(db, r).Ok? { RequestKeepsShapes(db, r); }
      case DoUpload(u, plans) =>
        if UploadTx(db, u, plans).Ok? {
          InsertUploadKeepsRows(db, u.project, plans);
          RequestAllKeepsShapes(InsertUpload(db, u.project, plans).value, u, plans);
        }
      case DoDeleteFile(u, r) =>
        if DeleteFileTx(db, u, r).Ok? {
          RequestKeepsShapes(
            db.(sources := db.sources[r.source := db.sources[r.source].(deletedBy := Some(u))]),
            r.(kind := DeleteBlob, actor := u, authorizationId := r.source));
        }
      case DoComplete(k) => if CompleteTx(db, k).Ok? { CompleteKeepsShapes(db, k); }
      case _ =>
    }
  }

  lemma CompleteKeepsShapes(db: Db, c: Completion)
    requires RowsShaped(db) && CompleteTx(db, c).Ok?
    ensures RowsShaped(CompleteTx(db, c).value)
  {
    var row := Finished(db.intents[c.intent], c, db.now);
    assert CompleteTx(db, c).value.intents == db.intents[c.intent := row];
  }

  lemma {:induction false} RunKeepsShapes(db: Db, calls: seq<Call>)
    requires RowsShaped(db)
    ensures RowsShaped(Run(db, calls))
    decreases |calls|
  {
    if calls != [] {
      StepKeepsShapes(db, calls[0]);
      RunKeepsShapes(Step(db, calls[0]), calls[1..]);
    }
  }

  // In a reachable database no claim or completion is stopped by the terminal
  // trigger or the CHECK, and a completion whose fence is held is only refused
  // for a malformed outcome or for promoting an object that is being deleted.
  lemma RoutinesNeverTripTheSchema(control: Option<Control>, calls: seq<Call>)
    ensures var db := Run(Empty(control), calls);
      && RowsShaped(db)
      && (forall n, l, e, k, t :: ClaimTx(db, n, l, e, k, t).Err? ==>
            var x := ClaimTx(db, n, l, e, k, t).error; x.ClaimInvalid? || x.EpochMismatch?)
      && (forall c :: CompleteTx(db, c).Ok? <==>
            && c.outcome.Some? && !c.outcome.value.Pending? && !c.outcome.value.Executing?
            && EpochOpen(db, c.epoch) && FenceHeld(db, c) && WellFormed(c)
            && !(c.outcome.value.Succeeded? && db.intents[c.intent].kind.Promote?
                 && DeletionsOf(db, db.intents[c.intent].objectId) != {}))
  {
    var db := Run(Empty(control), calls);
    RunKeepsShapes(Empty(control), calls);
    RunKeepsInv(Empty(control), calls);
    forall n, l, e, k, t | ClaimTx(db, n, l, e, k, t).Err?
      ensures var x := ClaimTx(db, n, l, e, k, t).error; x.ClaimInvalid? || x.EpochMismatch?
    {
      ClaimNeverTrips(db, n, l, e, k, t);
    }
    forall c
      ensures CompleteTx(db, c).Ok? <==>
        (&& c.outcome.Some? && !c.outcome.value.Pending? && !c.outcome.value.Executing?
         && EpochOpen(db, c.epoch) && FenceHeld(db, c) && WellFormed(c)
         && !(c.outcome.value.Succeeded? && db.intents[c.intent].kind.Promote?
              && DeletionsOf(db, db.intents[c.intent].objectId) != {}))
    {
      CompleteDecision(db, c);
    }
  }

  lemma ClaimNeverTrips(db: Db, n: string, l: nat, e: Id, k: set<Id>, t: Id)
    requires RowsShaped(db) && ClaimTx(db, n, l, e, k, t).Err?
    ensures var x := ClaimTx(db, n, l, e, k, t).error; x.ClaimInvalid? || x.EpochMismatch?
  {}

  lemma CompleteDecision(db: Db, c: Completion)
    requires Inv(db) && RowsShaped(db)
    ensures CompleteTx(db, c).Ok? <==>
      (&& c.outcome.Some? && !c.outcome.value.Pending? && !c.outcome.value.Executing?
       && EpochOpen(db, c.epoch) && FenceHeld(db, c) && WellFormed(c)
       && !(c.outcome.value.Succeeded? && db.intents[c.intent].kind.Promote?
            && DeletionsOf(db, db.intents[c.intent].objectId) != {}))
  {
    if c.outcome.Some? && FenceHeld(db, c) && WellFormed(c) {
      var id := c.intent;
      var o := db.intents[id].objectId;
      assert IntentOk(db, id);
      assert ObjectOk(db, o);
      assert forall d: Id :: d in DeletionsOf(db, o) <==> IsDeletion(db, d, o);
      if db.intents[id].kind.Promote? {
        assert IsPromote(db, id, o);
        var b := WaitingRow(db, id);
        if HasDeletion(db, o) {
          var d: Id :| IsDeletion(db, d, o);
          assert d in DeletionsOf(db, o);
        } else {
          assert DeletionsOf(db, o) == {};
        }
      } else if !db.intents[id].kind.DeleteQuarantine? {
        assert IsDeletion(db, id, o);
      }
      assert Shape(db.intents[id]);
    }
  }

  // The intent a step claims, if it claims one.
  function ClaimedBy(db: Db, c: Call): Option<Id> {
    if c.DoClaim? then
      (match ClaimTx(db, c.instance, c.lease, c.epoch, c.locked, c.token)
       case Ok((_, picked)) => picked
       case Err(_) => None)
    else None
  }

  function ClaimsOf(db: Db, calls: seq<Call>, id: Id): nat
    decreases |calls|
  {
    if calls == [] then 0
    else (if ClaimedBy(db, calls[0]) == Some(id) then 1 else 0) + ClaimsOf(Step(db, calls[0]), calls[1..], id)
  }

  function FenceOf(db: Db, id: Id): nat {
    if id in db.intents then db.intents[id].fence else 0
  }

  lemma StepFence(db: Db, c: Call, id: Id)
    ensures FenceOf(Step(db, c), id) == FenceOf(db, id) + if ClaimedBy(db, c) == Some(id) then 1 else 0
  {
    match c {
      case DoRequest(r) => if RequestTx(db, r).Ok? { RequestFence(db, r, id); }
      case DoUpload(u, plans) =>
        if UploadTx(db, u, plans).Ok? {
          InsertUploadKeepsRows(db, u.project, plans);
          RequestAllFence(InsertUpload(db, u.project, plans).value, u, plans, id);
        }
      case DoDeleteFile(u, r) =>
        if DeleteFileTx(db, u, r).Ok? {
          RequestFence(
            db.(sources := db.sources[r.source := db.sources[r.source].(deletedBy := Some(u))]),
            r.(kind := DeleteBlob, actor := u, authorizationId := r.source), id);
        }
      case DoComplete(k) =>
        if CompleteTx(db, k).Ok? { CompleteFence(db, k, id); }
      case DoClaim(_, _, _, _, _) => ClaimFence(db, c, id);
      case _ =>
    }
  }

  lemma CompleteFence(db: Db, k: Completion, id: Id)
    requires CompleteTx(db, k).Ok?
    ensures FenceOf(CompleteTx(db, k).value, id) == FenceOf(db, id)
  {
    assert CompleteTx(db, k).value.intents == db.intents[k.intent := Finished(db.intents[k.intent], k, db.now)];
  }

  lemma ClaimFence(db: Db, c: Call, id: Id)
    requires c.DoClaim?
    ensures FenceOf(Step(db, c), id) == FenceOf(db, id) + if ClaimedBy(db, c) == Some(id) then 1 else 0
  {}

  lemma RequestFence(db: Db, r: Request, id: Id)
    requires RequestTx(db, r).Ok?
    ensures FenceOf(RequestTx(db, r).value.0, id) == FenceOf(db, id)
  {
    var db1, db2 := WithObject(db, r).value, RequestTx(db, r).value.0;
    assert db2.intents == db.intents
      || (r.intent !in db.intents && db2.intents == db.intents[r.intent := NewIntent(db1, r)]);
  }

  lemma {:induction false} RequestAllFence(db: Db, u: Upload, plans: seq<Plan>, id: Id)
    requires RequestAll(db, u, plans).Ok?
    ensures FenceOf(RequestAll(db, u, plans).value, id) == FenceOf(db, id)
    decreases |plans|
  {
    if plans != [] {
      RequestFence(db, PromoteRequest(u, plans[0]), id);
      RequestAllFence(RequestTx(db, PromoteRequest(u, plans[0])).value.0, u, plans[1..], id);
    }
  }

  lemma {:induction false} FenceGrowsWithClaims(db: Db, calls: seq<Call>, id: Id)
    ensures FenceOf(Run(db, calls), id) == FenceOf(db, id) + ClaimsOf(db, calls, id)
    decreases |calls|
  {
    if calls != [] {
      StepFence(db, calls[0], id);
      FenceGrowsWithClaims(Step(db, calls[0]), calls[1..], id);
    }
  }

  // The fence and the attempt counter of an intent both count its claims.
  lemma FenceCountsClaims(control: Option<Control>, calls: seq<Call>, id: Id)
    requires id in Run(Empty(control), calls).intents
    ensures var row := Run(Empty(control), calls).intents[id];
      row.fence == row.attempts == ClaimsOf(Empty(control), calls, id)
  {
    RunKeepsShapes(Empty(control), calls);
    FenceGrowsWithClaims(Empty(control), calls, id);
  }

  // ---------------------------------------------------------------------------
  // One commit per fence

  predicate Commits(db: Db, c: Call) {
    c.DoComplete? && CompleteTx(db, c.completion).Ok?
  }

  // Once a completion commits under a fence, or the fence has been passed by a
  // later claim, every completion under that fence or an older one is refused
  // and changes nothing, however the run goes on.
  lemma SpentFenceIsDead(db: Db, id: Id, fence: nat, calls: seq<Call>, c: Completion)
    requires id in db.intents
    requires db.intents[id].fence > fence || (db.intents[id].fence == fence && !db.intents[id].status.Executing?)
    requires c.intent == id && c.fence <= fence
    ensures CompleteTx(Run(db, calls), c).Err? && Step(Run(db, calls), DoComplete(c)) == Run(db, calls)
  {
    RunAdvances(db, calls);
    assert RowAdvances(db.intents[id], Run(db, calls).intents[id]);
  }

  lemma AtMostOneCommitPerFence(db: Db, first: Completion, calls: seq<Call>, second: Completion)
    requires Commits(db, DoComplete(first))
    requires second.intent == first.intent && second.fence <= first.fence
    ensures !Commits(Run(Step(db, DoComplete(first)), calls), DoComplete(second))
  {
    var db1 := Step(db, DoComplete(first));
    assert db1.intents == db.intents[first.intent := Finished(db.intents[first.intent], first, db.now)];
    SpentFenceIsDead(db1, first.intent, first.fence, calls, second);
  }

  // A holder whose lease was taken over by a later claim can change nothing.
  lemma SupersededHolderChangesNothing(db: Db, claim: Call, calls: seq<Call>, late: Completion)
    requires late.intent in db.intents && late.fence <= db.intents[late.intent].fence
    requires ClaimedBy(db, claim) == Some(late.intent)
    ensures var later := Run(Step(db, claim), calls); Step(later, DoComplete(late)) == later
  {
    StepFence(db, claim, late.intent);
    StepAdvances(db, claim);
    SpentFenceIsDead(Step(db, claim), late.intent, late.fence, calls, late);
  }

  // A success is final: the row stays as it was written, so its effects on the
  // object and the outbox cannot be applied again.
  lemma SuccessHappensOnce(db: Db, first: Completion, calls: seq<Call>, second: Completion)
    requires Commits(db, DoComplete(first)) && first.outcome.value.Succeeded?
    requires second.intent == first.intent
    ensures var later := Run(Step(db, DoComplete(first)), calls);
      && first.intent in later.intents
      && later.intents[first.intent] == Finished(db.intents[first.intent], first, db.now)
      && !Commits(later, DoComplete(second))
  {
    var db1 := Step(db, DoComplete(first));
    var row := Finished(db.intents[first.intent], first, db.now);
    assert db1.intents == db.intents[first.intent := row];
    RunAdvances(db1, calls);
    SucceededStays(Run(db1, calls), first.intent, row, second);
  }

  lemma SucceededStays(later: Db, id: Id, row: Intent, second: Completion)
    requires id in later.intents && RowAdvances(row, later.intents[id]) && row.status.Succeeded? && second.intent == id
    ensures later.intents[id] == row && !Commits(later, DoComplete(second))
  {}

  // ---------------------------------------------------------------------------
  // The outbox and the parse queue

  // A broker upload's outbox row is storage_pending exactly while the PROMOTE
  // intent of its file's object has not succeeded; a row that waits for no object
  // yet is storage_preparing.
  lemma OutboxFollowsPromotion(control: Option<Control>, calls: seq<Call>, b: Id, o: Id, p: Id)
    requires var db := Run(Empty(control), calls);
      b in db.outbox && o in db.objects && db.objects[o].source == db.outbox[b].file && p in PromotesOf(db, o)
    ensures var db := Run(Empty(control), calls);
      && (db.outbox[b].status.StoragePending? <==> !db.intents[p].status.Succeeded?)
      && (db.outbox[b].status.StoragePending? ==> db.outbox[b].intent == Some(p))
      && (db.outbox[b].status.Publishable? || db.outbox[b].status.Published? <==> db.intents[p].status.Succeeded?)
  {
    var db := Run(Empty(control), calls);
    RunKeepsInv(Empty(control), calls);
    assert IsPromote(db, p, o);
    assert OutboxOk(db, b) && ObjectOk(db, o);
    if db.outbox[b].intent.Some? {
      var q := db.outbox[b].intent.value;
      assert IsPromote(db, q, db.intents[q].objectId);
      assert db.intents[q].objectId == o;
    }
    if !db.intents[p].status.Succeeded? {
      var w := WaitingRow(db, p);
      assert OutboxOk(db, w);
    }
  }

  // No parse job is ever enqueued for a file whose object was not promoted.
  lemma OnlyPromotedFilesAreParsed(control: Option<Control>, calls: seq<Call>, j: Job, o: Id)
    requires j in Run(Empty(control), calls).jobs
    ensures var db := Run(Empty(control), calls);
      && (exists x :: x in db.objects && db.objects[x].source == j.file && db.objects[x].generation == j.generation)
      && (o in db.objects && db.objects[o].source == j.file ==>
            !db.objects[o].state.Staging? && forall p | p in PromotesOf(db, o) :: db.intents[p].status.Succeeded?)
  {
    var db := Run(Empty(control), calls);
    RunKeepsInv(Empty(control), calls);
    assert Promoted(db, j.file, j.generation);
    var x, q :| IsPromote(db, q, x) && x in db.objects && Done(db, q)
      && db.objects[x].source == j.file && db.objects[x].generation == j.generation;
    if o in db.objects && db.objects[o].source == j.file {
      assert o == x;
      assert ObjectOk(db, o);
      forall p | p in PromotesOf(db, o) ensures db.intents[p].status.Succeeded? {
        assert IsPromote(db, p, o);
      }
    }
  }

  // The one step that makes an outbox row publishable is the completion that
  // makes its file's object AVAILABLE.
  lemma PublishableOnlyOnPromotion(control: Option<Control>, calls: seq<Call>, c: Call, b: Id)
    requires var db := Run(Empty(control), calls);
      b in Step(db, c).outbox && Step(db, c).outbox[b].status.Publishable?
      && (b in db.outbox ==> !db.outbox[b].status.Publishable?)
    ensures var db := Run(Empty(control), calls);
      && Commits(db, c) && c.completion.outcome.value.Succeeded? && b in db.outbox
      && db.outbox[b].intent == Some(c.completion.intent)
      && db.intents[c.completion.intent].kind.Promote?
      && var o := db.intents[c.completion.intent].objectId;
         && o in db.objects && db.objects[o].source == db.outbox[b].file
         && db.objects[o].state.Staging? && Step(db, c).objects[o].state.Available?
  {
    var db := Run(Empty(control), calls);
    RunKeepsInv(Empty(control), calls);
    if c.DoComplete? { CompletionPublishes(db, c.completion, b); } else { OnlyCompletionsPublish(db, c, b); }
  }

  lemma OnlyCompletionsPublish(db: Db, c: Call, b: Id)
    requires Inv(db) && !c.DoComplete?
    ensures b in Step(db, c).outbox && Step(db, c).outbox[b].status.Publishable? ==>
      b in db.outbox && db.outbox[b].status.Publishable?
  {
    match c {
      case DoRequest(r) => if RequestTx(db, r).Ok? { RequestPublishesNothing(db, r, b); }
      case DoUpload(u, plans) =>
        if UploadTx(db, u, plans).Ok? {
          UploadPublishesNothing(db, u.project, plans, b);
          RequestAllPublishesNothing(InsertUpload(db, u.project, plans).value, u, plans, b);
        }
      case DoDeleteFile(u, r) =>
        if DeleteFileTx(db, u, r).Ok? {
          RequestPublishesNothing(
            db.(sources := db.sources[r.source := db.sources[r.source].(deletedBy := Some(u))]),
            r.(kind := DeleteBlob, actor := u, authorizationId := r.source), b);
        }
      case _ => DispatchPublishesNothing(db, c, b);
    }
  }

  lemma DispatchPublishesNothing(db: Db, c: Call, b: Id)
    requires Inv(db)
    requires !c.DoRequest? && !c.DoUpload? && !c.DoDeleteFile? && !c.DoComplete?
    ensures CanPublish(Step(db, c), b) ==> CanPublish(db, b)
  {
    if c.DoBackOff? && EventHeld(db, c.failed) { assert OutboxOk(db, c.failed.row); }
  }

  predicate CanPublish(db: Db, b: Id) {
    b in db.outbox && db.outbox[b].status.Publishable?
  }

  lemma RequestPublishesNothing(db: Db, r: Request, b: Id)
    requires RequestTx(db, r).Ok?
    ensures CanPublish(RequestTx(db, r).value.0, b) ==> CanPublish(db, b)
  {}

  lemma {:induction false} RequestAllPublishesNothing(db: Db, u: Upload, plans: seq<Plan>, b: Id)
    requires RequestAll(db, u, plans).Ok?
    ensures CanPublish(RequestAll(db, u, plans).value, b) ==> CanPublish(db, b)
    decreases |plans|
  {
    if plans != [] {
      RequestPublishesNothing(db, PromoteRequest(u, plans[0]), b);
      RequestAllPublishesNothing(RequestTx(db, PromoteRequest(u, plans[0])).value.0, u, plans[1..], b);
    }
  }

  lemma {:induction false} UploadPublishesNothing(db: Db, project: Id, plans: seq<Plan>, b: Id)
    requires InsertUpload(db, project, plans).Ok?
    ensures CanPublish(InsertUpload(db, project, plans).value, b) ==> CanPublish(db, b)
    decreases |plans|
  {
    if plans != [] {
      var p := plans[0];
      UploadPublishesNothing(db.(
        sources := db.sources[p.source := Source(project, 1, None)],
        outbox := db.outbox[p.authorizationId :=
          Outbox(p.source, project, 1, StoragePreparing, None, None, None, db.now)]), project, plans[1..], b);
    }
  }

  lemma CompletionPublishes(db: Db, k: Completion, b: Id)
    requires Inv(db) && CanPublish(Step(db, DoComplete(k)), b) && !CanPublish(db, b)
    ensures Commits(db, DoComplete(k)) && k.outcome.value.Succeeded? && b in db.outbox
    ensures db.outbox[b].intent == Some(k.intent) && db.intents[k.intent].kind.Promote?
    ensures var o := db.intents[k.intent].objectId;
      && o in db.objects && db.objects[o].source == db.outbox[b].file
      && db.objects[o].state.Staging? && Step(db, DoComplete(k)).objects[o].state.Available?
  {
    assert CompleteTx(db, k).Ok?;
    assert b in OutboxWaitingFor(db, k.intent);
  }

  // ---------------------------------------------------------------------------
  // The work queue

  lemma NotAfterTransitive(db: Db, a: Id, b: Id, c: Id)
    requires a in db.intents && b in db.intents && c in db.intents
    requires NotAfter(db, a, b) && NotAfter(db, b, c)
    ensures NotAfter(db, a, c)
  {}

  lemma {:induction false} OldestExists(db: Db, s: set<Id>)
    requires s != {} && s <= db.intents.Keys
    ensures exists a :: Oldest(db, s, a)
  {
    var x :| x in s;
    if s == {x} {
      assert Oldest(db, s, x);
    } else {
      OldestExists(db, s - {x});
      var a :| Oldest(db, s - {x}, a);
      if NotAfter(db, a, x) {
        assert Oldest(db, s, a);
      } else {
        forall b | b in s ensures NotAfter(db, x, b) {
          if b != x { NotAfterTransitive(db, x, a, b); }
        }
        assert Oldest(db, s, x);
      }
    }
  }

  ghost predicate Oldest(db: Db, s: set<Id>, a: Id)
    requires s <= db.intents.Keys
  {
    a in s && forall b | b in s :: NotAfter(db, a, b)
  }

  // A claim returns no work only when nothing is due and unlocked.
  lemma ClaimFindsDueWork(db: Db, epoch: Id, locked: set<Id>)
    ensures Pick(db, epoch, locked).None? <==> forall i :: !Claimable(db, epoch, locked, i)
    ensures Pick(db, epoch, locked).Some? ==> IsPick(db, epoch, locked, Pick(db, epoch, locked).value)
  {
    var s := set i | i in db.intents && Claimable(db, epoch, locked, i);
    if s != {} {
      OldestExists(db, s);
      var a :| Oldest(db, s, a);
      assert Claimable(db, epoch, locked, a);
      assert IsPick(db, epoch, locked, a);
    } else {
      forall i ensures !Claimable(db, epoch, locked, i) {
        assert i !in s;
      }
    }
  }
}
