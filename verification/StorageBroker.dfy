/** The storage broker: six stored procedures over the tables storage_objects,
    storage_operation_intents, file_upload_outbox and source_files. Every call is
    one transaction, so a call is a function from database to database; the class
    at the end executes the same calls statement by statement. */
module StorageBroker {
  import opened Options

  // UUIDs, keys and digests are compared for equality only; an intent id is also
  // the tie-breaker of ORDER BY created_at, id.
  type Id = nat
  type Micros = nat

  const SECOND: Micros := 1_000_000
  const CONTRACT := "storage-broker.v1"

  datatype Kind = Promote | DeleteQuarantine | DeleteBlob | AbortPromotion
  datatype Authorization = UploadCommit | SourceFileTombstone | MoveAbort
  datatype ObjectState = Staging | Available | DeletePending | Deleted
  datatype Status = Pending | Executing | Retry | Succeeded | Rejected
  datatype OutboxStatus = StoragePreparing | StoragePending | Publishable | Published
  datatype MoveStatus = MoveActive | MoveUncertain | MoveRejected

  datatype Control = Control(epoch: Id, contract: string)
  datatype Source = Source(project: Id, generation: nat, deletedBy: Option<Id>)
  datatype Move = Move(file: Id, project: Id, user: Id, status: MoveStatus)
  datatype Outbox = Outbox(
    file: Id, project: Id, generation: nat, status: OutboxStatus, intent: Option<Id>,
    owner: Option<Id>, expires: Option<Micros>, nextAttempt: Micros)
  datatype Object = Object(
    project: Id, source: Id, generation: nat, key: Id, sha: Id, size: nat, state: ObjectState)
  datatype Intent = Intent(
    idempotencyKey: Id, kind: Kind, project: Id, objectId: Id, generation: nat, key: Id,
    quarantine: Option<Id>, sha: Id, size: nat, authorization: Authorization,
    authorizationId: Id, epoch: Id, status: Status, fence: nat, token: Option<Id>,
    expires: Option<Micros>, nextAttempt: Option<Micros>, completedAt: Option<Micros>,
    attempts: nat, result: Option<Id>, error: Option<Id>, createdAt: Micros)

  // An outbox row as a dispatcher remembers it after claiming it, and the parse
  // job it enqueues.
  datatype Event = Event(row: Id, file: Id, generation: nat, owner: Id)
  datatype Job = Job(file: Id, generation: nat)

  datatype Db = Db(
    now: Micros, control: Option<Control>, projects: map<Id, Id>, sources: map<Id, Source>,
    moves: map<Id, Move>, outbox: map<Id, Outbox>, objects: map<Id, Object>,
    intents: map<Id, Intent>, events: set<Event>, jobs: set<Job>)

  datatype Error =
    | EpochMismatch | ProjectForbidden | GenerationMismatch | AuthorizationInvalid
    | OutboxStateInvalid | ObjectStateInvalid | ObjectMismatch | IdempotencyMismatch
    | ClaimInvalid | CompletionInvalid | FenceLost | ObjectNotAvailable | NotFound
    | RequestRejected | DuplicateKey | ForeignKeyViolated | ShapeViolated | TerminalImmutable

  datatype Reply = Reply(intent: Id, status: Status, fence: nat, result: Option<Id>)

  datatype Request = Request(
    kind: Kind, actor: Id, intent: Id, project: Id, source: Id, objectId: Id, generation: nat,
    key: Id, quarantineKey: Option<Id>, authorizationKind: Authorization, sha: Id, size: nat,
    authorizationId: Id, epoch: Id, idempotencyKey: Id)
  {
    // Only two of the four routines take these as parameters.
    function Quarantine(): Option<Id> { if kind.DeleteBlob? then None else quarantineKey }

    function Authorization(): Authorization {
      match kind
      case Promote => UploadCommit
      case DeleteQuarantine => authorizationKind
      case DeleteBlob => SourceFileTombstone
      case AbortPromotion => MoveAbort
    }
  }

  datatype Completion = Completion(
    intent: Id, token: Id, fence: nat, epoch: Id, outcome: Option<Status>, result: Option<Id>,
    error: Option<Id>, retryAfter: Option<nat>)

  // ---------------------------------------------------------------------------
  // Row constraints of the schema

  predicate Authorised(i: Intent) {
    match i.kind
    case Promote => i.quarantine.Some? && i.authorization.UploadCommit?
    case DeleteQuarantine =>
      i.quarantine.Some? && (i.authorization.UploadCommit? || i.authorization.MoveAbort?)
    case DeleteBlob => i.quarantine.None? && i.authorization.SourceFileTombstone?
    case AbortPromotion => i.quarantine.Some? && i.authorization.MoveAbort?
  }

  // CHECK chk_storage_operation_intents_shape
  predicate Shape(i: Intent) {
    && Authorised(i)
    && match i.status
       case Pending =>
         i.token.None? && i.expires.None? && i.completedAt.None? && i.result.None?
         && i.nextAttempt.None? && i.error.None? && i.fence == 0
       case Executing =>
         i.token.Some? && i.expires.Some? && i.completedAt.None? && i.result.None?
         && i.nextAttempt.None? && i.error.None? && i.fence > 0 && i.attempts > 0
       case Retry =>
         i.token.None? && i.expires.None? && i.completedAt.None? && i.result.None?
         && i.nextAttempt.Some? && i.error.Some? && i.attempts > 0
       case Succeeded =>
         i.token.None? && i.expires.None? && i.completedAt.Some? && i.result.Some?
         && i.nextAttempt.None? && i.error.None? && i.fence > 0 && i.attempts > 0
       case Rejected =>
         i.token.None? && i.expires.None? && i.completedAt.Some? && i.result.Some?
         && i.nextAttempt.None? && i.fence > 0 && i.attempts > 0
  }

  predicate Terminal(s: Status) { s.Succeeded? || s.Rejected? }

  // UPDATE of one intent row, under the terminal trigger and the CHECK.
  function WriteIntent(db: Db, id: Id, row: Intent): Result<Db, Error>
    requires id in db.intents
  {
    if Terminal(db.intents[id].status) then Err(TerminalImmutable)
    else if !Shape(row) then Err(ShapeViolated)
    else Ok(db.(intents := db.intents[id := row]))
  }

  predicate EpochOpen(db: Db, epoch: Id) {
    db.control.Some? && db.control.value.epoch == epoch && db.control.value.contract == CONTRACT
  }

  // ---------------------------------------------------------------------------
  // sp_storage_request_*

  predicate Coordinates(o: Object, r: Request) {
    o.project == r.project && o.source == r.source && o.generation == r.generation
    && o.key == r.key && o.sha == r.sha && o.size == r.size
  }

  // The object row the request works on: PROMOTE may create it, the others may not.
  function WithObject(db: Db, r: Request): Result<Db, Error> {
    if !r.kind.Promote? then
      if r.objectId in db.objects && Coordinates(db.objects[r.objectId], r) then Ok(db) else Err(ObjectMismatch)
    else if r.objectId in db.objects then
      var o := db.objects[r.objectId];
      if Coordinates(o, r) && (o.state.Staging? || o.state.Available?) then Ok(db)
      else Err(IdempotencyMismatch)
    else if exists x | x in db.objects ::
        db.objects[x].key == r.key
        || (db.objects[x].source == r.source && db.objects[x].generation == r.generation)
      then Err(DuplicateKey)
    else
      var o := Object(r.project, r.source, r.generation, r.key, r.sha, r.size, Staging);
      Ok(db.(objects := db.objects[r.objectId := o]))
  }

  predicate OutboxNamed(db: Db, r: Request) {
    r.authorizationId in db.outbox
    && var b := db.outbox[r.authorizationId];
       b.file == r.source && b.project == r.project && b.generation == r.generation
  }

  predicate MoveNamed(db: Db, r: Request) {
    r.authorizationId in db.moves
    && var m := db.moves[r.authorizationId];
       m.file == r.source && m.project == r.project && m.user == r.actor && !m.status.MoveRejected?
  }

  predicate RequestAuthorised(db: Db, r: Request)
    requires r.source in db.sources
  {
    match r.kind
    case Promote =>
      OutboxNamed(db, r)
      && var s := db.outbox[r.authorizationId].status; s.StoragePreparing? || s.StoragePending?
    case DeleteQuarantine =>
      (r.authorizationKind.UploadCommit? && OutboxNamed(db, r))
      || (r.authorizationKind.MoveAbort? && MoveNamed(db, r))
    case DeleteBlob =>
      db.sources[r.source].deletedBy == Some(r.actor) && r.authorizationId == r.source
    case AbortPromotion => MoveNamed(db, r)
  }

  predicate SameOperation(i: Intent, r: Request) {
    i.idempotencyKey == r.idempotencyKey && i.kind == r.kind && i.project == r.project
    && i.objectId == r.objectId && i.generation == r.generation && i.key == r.key
    && i.quarantine == r.Quarantine() && i.sha == r.sha && i.size == r.size
    && i.authorization == r.Authorization() && i.authorizationId == r.authorizationId
    && i.epoch == r.epoch
  }

  function NewIntent(db: Db, r: Request): Intent {
    Intent(r.idempotencyKey, r.kind, r.project, r.objectId, r.generation, r.key, r.Quarantine(),
           r.sha, r.size, r.Authorization(), r.authorizationId, r.epoch, Pending, 0, None, None,
           None, None, 0, None, None, db.now)
  }

  // The state change that comes with a deletion intent.
  function BeforeInsert(db: Db, r: Request): Result<Db, Error>
    requires r.objectId in db.objects
  {
    var from := if r.kind.DeleteBlob? then Available else Staging;
    if r.kind.Promote? || r.kind.DeleteQuarantine? then Ok(db)
    else if db.objects[r.objectId].state != from then Err(ObjectStateInvalid)
    else Ok(db.(objects := db.objects[r.objectId := db.objects[r.objectId].(state := DeletePending)]))
  }

  function AfterInsert(db: Db, r: Request): Result<Db, Error> {
    if !r.kind.Promote? then Ok(db)
    else if OutboxNamed(db, r) && db.outbox[r.authorizationId].status.StoragePreparing?
      && db.outbox[r.authorizationId].intent.None? then
      Ok(db.(outbox := db.outbox[r.authorizationId :=
        db.outbox[r.authorizationId].(status := StoragePending, intent := Some(r.intent))]))
    else Err(OutboxStateInvalid)
  }

  function InsertIntent(db: Db, r: Request): Result<Db, Error>
    requires r.objectId in db.objects
  {
    match BeforeInsert(db, r)
    case Err(e) => Err(e)
    case Ok(db1) =>
      var row := NewIntent(db, r);
      if !Shape(row) then Err(ShapeViolated)
      else AfterInsert(db1.(intents := db1.intents[r.intent := row]), r)
  }

  function RequestTx(db: Db, r: Request): Result<(Db, Reply), Error> {
    if !EpochOpen(db, r.epoch) then Err(EpochMismatch)
    else if r.project !in db.projects || db.projects[r.project] != r.actor then Err(ProjectForbidden)
    else if r.source !in db.sources || db.sources[r.source].project != r.project
      || db.sources[r.source].generation != r.generation then Err(GenerationMismatch)
    else
      match WithObject(db, r)
      case Err(e) => Err(e)
      case Ok(db1) =>
        if !RequestAuthorised(db1, r) then Err(AuthorizationInvalid)
        else if exists i | i in db1.intents ::
            i == r.intent || db1.intents[i].idempotencyKey == r.idempotencyKey then
          if r.intent in db1.intents && SameOperation(db1.intents[r.intent], r) then
            var i := db1.intents[r.intent];
            Ok((db1, Reply(r.intent, i.status, i.fence, i.result)))
          else Err(IdempotencyMismatch)
        else
          match InsertIntent(db1, r)
          case Err(e) => Err(e)
          case Ok(db2) => Ok((db2, Reply(r.intent, Pending, 0, None)))
  }

  // ---------------------------------------------------------------------------
  // sp_storage_claim_v1

  predicate Due(i: Intent, epoch: Id, now: Micros) {
    i.epoch == epoch
    && (i.status.Pending?
        || (i.status.Retry? && i.nextAttempt.Some? && i.nextAttempt.value <= now)
        || (i.status.Executing? && i.expires.Some? && i.expires.value <= now))
  }

  // FOR UPDATE SKIP LOCKED: rows other sessions hold are passed over.
  predicate Claimable(db: Db, epoch: Id, locked: set<Id>, id: Id) {
    id in db.intents && id !in locked && Due(db.intents[id], epoch, db.now)
  }

  predicate NotAfter(db: Db, a: Id, b: Id)
    requires a in db.intents && b in db.intents
  {
    db.intents[a].createdAt < db.intents[b].createdAt
    || (db.intents[a].createdAt == db.intents[b].createdAt && a <= b)
  }

  predicate IsPick(db: Db, epoch: Id, locked: set<Id>, id: Id) {
    Claimable(db, epoch, locked, id)
    && forall b | b in db.intents && Claimable(db, epoch, locked, b) :: NotAfter(db, id, b)
  }

  function Pick(db: Db, epoch: Id, locked: set<Id>): Option<Id> {
    if exists id | id in db.intents :: IsPick(db, epoch, locked, id)
    then var id :| id in db.intents && IsPick(db, epoch, locked, id); Some(id)
    else None
  }

  function Claimed(i: Intent, token: Id, expires: Micros): Intent {
    i.(status := Executing, fence := i.fence + 1, token := Some(token), expires := Some(expires),
       nextAttempt := None, attempts := i.attempts + 1, result := None, error := None,
       completedAt := None)
  }

  function ClaimTx(db: Db, instance: string, lease: nat, epoch: Id, locked: set<Id>, token: Id)
    : Result<(Db, Option<Id>), Error>
  {
    if instance == "" || lease < 5 || lease > 300 then Err(ClaimInvalid)
    else if !EpochOpen(db, epoch) then Err(EpochMismatch)
    else
      match Pick(db, epoch, locked)
      case None => Ok((db, None))
      case Some(id) =>
        match WriteIntent(db, id, Claimed(db.intents[id], token, db.now + lease * SECOND))
        case Err(e) => Err(e)
        case Ok(db1) => Ok((db1, Some(id)))
  }

  // ---------------------------------------------------------------------------
  // sp_storage_complete_v1

  predicate FenceHeld(db: Db, c: Completion) {
    c.intent in db.intents
    && var i := db.intents[c.intent];
       i.epoch == c.epoch && i.status.Executing? && i.token == Some(c.token) && i.fence == c.fence
  }

  function OutboxWaitingFor(db: Db, id: Id): set<Id>
    requires id in db.intents && db.intents[id].objectId in db.objects
  {
    var i := db.intents[id];
    var o := db.objects[i.objectId];
    set b | b in db.outbox && db.outbox[b].file == o.source && db.outbox[b].project == i.project
            && db.outbox[b].generation == i.generation && db.outbox[b].intent == Some(id)
            && db.outbox[b].status.StoragePending?
  }

  function Released(b: Outbox, now: Micros): Outbox {
    b.(status := Publishable, intent := None, owner := None, expires := None, nextAttempt := now)
  }

  // What a success does to the object and its outbox row.
  function SuccessEffects(db: Db, id: Id): Result<Db, Error>
    requires id in db.intents && db.intents[id].objectId in db.objects
  {
    var i := db.intents[id];
    var o := db.objects[i.objectId];
    match i.kind
    case Promote =>
      var waiting := OutboxWaitingFor(db, id);
      if !o.state.Staging? then Err(ObjectStateInvalid)
      else if |waiting| != 1 then Err(OutboxStateInvalid)
      else Ok(db.(
        objects := db.objects[i.objectId := o.(state := Available)],
        outbox := map b | b in db.outbox ::
          if b in waiting then Released(db.outbox[b], db.now) else db.outbox[b]))
    case DeleteQuarantine => Ok(db)
    case _ =>
      if !o.state.DeletePending? then Err(ObjectStateInvalid)
      else Ok(db.(objects := db.objects[i.objectId := o.(state := Deleted)]))
  }

  function Finished(i: Intent, c: Completion, now: Micros): Intent
    requires c.outcome.Some?
  {
    var bare := i.(token := None, expires := None, status := c.outcome.value);
    if c.outcome.value.Retry? then
      var delay := if c.retryAfter.Some? then c.retryAfter.value else 0;
      bare.(nextAttempt := Some(now + delay * SECOND), completedAt := None, result := None, error := c.error)
    else if c.outcome.value.Succeeded? then
      bare.(nextAttempt := None, completedAt := Some(now), result := c.result, error := None)
    else bare.(nextAttempt := None, completedAt := Some(now), result := c.result, error := c.error)
  }

  predicate WellFormed(c: Completion)
    requires c.outcome.Some?
  {
    match c.outcome.value
    case Succeeded => c.result.Some? && c.error.None?
    case Retry =>
      c.error.Some? && c.result.None? && c.retryAfter.Some? && 1 <= c.retryAfter.value <= 86400
    case _ => c.result.Some? && c.retryAfter.None?
  }

  function CompleteTx(db: Db, c: Completion): Result<Db, Error> {
    if c.outcome.None? || c.outcome.value.Pending? || c.outcome.value.Executing? then Err(CompletionInvalid)
    else if !EpochOpen(db, c.epoch) then Err(EpochMismatch)
    else if !FenceHeld(db, c) || db.intents[c.intent].objectId !in db.objects then Err(FenceLost)
    else if !WellFormed(c) then Err(CompletionInvalid)
    else
      match if c.outcome.value.Succeeded? then SuccessEffects(db, c.intent) else Ok(db)
      case Err(e) => Err(e)
      case Ok(db1) => WriteIntent(db1, c.intent, Finished(db.intents[c.intent], c, db.now))
  }

  // ---------------------------------------------------------------------------
  // The protocol's clients

  // What one upload shares, and the fresh identities it draws for each file.
  datatype Upload = Upload(user: Id, project: Id, epoch: Id)
  datatype Plan = Plan(
    source: Id, authorizationId: Id, objectId: Id, intent: Id, key: Id, quarantine: Id, sha: Id,
    size: nat, idempotencyKey: Id)

  function PromoteRequest(u: Upload, p: Plan): Request {
    Request(Promote, u.user, p.intent, u.project, p.source, p.objectId, 1, p.key, Some(p.quarantine),
            UploadCommit, p.sha, p.size, p.authorizationId, u.epoch, p.idempotencyKey)
  }

  // One upload: every plan's source and outbox rows, then every PROMOTE request.
  function InsertUpload(db: Db, project: Id, plans: seq<Plan>): Result<Db, Error>
    decreases |plans|
  {
    if plans == [] then Ok(db)
    else
      var p := plans[0];
      if p.source in db.sources || p.authorizationId in db.outbox
        || (exists b | b in db.outbox :: db.outbox[b].file == p.source)
      then Err(DuplicateKey)
      else if project !in db.projects then Err(ForeignKeyViolated)
      else InsertUpload(db.(
        sources := db.sources[p.source := Source(project, 1, None)],
        outbox := db.outbox[p.authorizationId :=
          Outbox(p.source, project, 1, StoragePreparing, None, None, None, db.now)]),
        project, plans[1..])
  }

  function RequestAll(db: Db, u: Upload, plans: seq<Plan>): Result<Db, Error>
    decreases |plans|
  {
    if plans == [] then Ok(db)
    else
      match RequestTx(db, PromoteRequest(u, plans[0]))
      case Err(e) => Err(e)
      case Ok((db1, reply)) =>
        if reply.status.Rejected? then Err(RequestRejected) else RequestAll(db1, u, plans[1..])
  }

  function UploadTx(db: Db, u: Upload, plans: seq<Plan>): Result<Db, Error> {
    match InsertUpload(db, u.project, plans)
    case Err(e) => Err(e)
    case Ok(db1) => RequestAll(db1, u, plans)
  }

  // Tombstone the source and ask for its blob to be deleted, in one transaction.
  function DeleteFileTx(db: Db, user: Id, r: Request): Result<Db, Error> {
    if r.source !in db.sources || db.sources[r.source].project != r.project
      || db.sources[r.source].deletedBy.Some? then Err(NotFound)
    else if r.objectId !in db.objects || !Coordinates(db.objects[r.objectId], r)
      || r.generation != db.sources[r.source].generation || !db.objects[r.objectId].state.Available?
      then Err(ObjectNotAvailable)
    else
      var db1 := db.(sources := db.sources[r.source := db.sources[r.source].(deletedBy := Some(user))]);
      match RequestTx(db1, r.(kind := DeleteBlob, actor := user, authorizationId := r.source))
      case Err(e) => Err(e)
      case Ok((db2, reply)) => if reply.status.Rejected? then Err(RequestRejected) else Ok(db2)
  }

  predicate OutboxDue(b: Outbox, now: Micros) {
    b.status.Publishable? && b.nextAttempt <= now
    && (b.owner.None? || (b.expires.Some? && b.expires.value <= now))
  }

  const CLAIM_LEASE: Micros := 60 * SECOND

  // Claim rows for one dispatcher run and remember them as events.
  function ClaimOutbox(db: Db, owner: Id, rows: set<Id>): Db {
    var hits := set b | b in db.outbox && b in rows && OutboxDue(db.outbox[b], db.now);
    db.(outbox := map b | b in db.outbox ::
          if b in hits then db.outbox[b].(owner := Some(owner), expires := Some(db.now + CLAIM_LEASE))
          else db.outbox[b],
        events := db.events + (set b | b in hits :: Event(b, db.outbox[b].file, db.outbox[b].generation, owner)))
  }

  predicate EventHeld(db: Db, e: Event) {
    e in db.events && e.row in db.outbox && db.outbox[e.row].owner == Some(e.owner)
  }

  // ---------------------------------------------------------------------------
  // Runs

  datatype Call =
    | DoRequest(request: Request)
    | DoUpload(upload: Upload, plans: seq<Plan>)
    | DoDeleteFile(user: Id, deletion: Request)
    | DoClaim(instance: string, lease: nat, epoch: Id, locked: set<Id>, token: Id)
    | DoComplete(completion: Completion)
    | DoClaimOutbox(owner: Id, rows: set<Id>)
    | DoEnqueue(event: Event)
    | DoMarkPublished(marked: Event)
    | DoBackOff(failed: Event, nextAttempt: Micros)
    | Environment(elapsed: Micros, moves: map<Id, Move>, projects: map<Id, Id>)

  function Committed(db: Db, r: Result<Db, Error>): Db {
    match r case Ok(db1) => db1 case Err(_) => db
  }

  function Step(db: Db, c: Call): Db {
    match c
    case DoRequest(r) => (match RequestTx(db, r) case Ok((db1, _)) => db1 case Err(_) => db)
    case DoUpload(u, plans) => Committed(db, UploadTx(db, u, plans))
    case DoDeleteFile(u, r) => Committed(db, DeleteFileTx(db, u, r))
    case DoClaim(n, l, e, locked, t) =>
      (match ClaimTx(db, n, l, e, locked, t) case Ok((db1, _)) => db1 case Err(_) => db)
    case DoComplete(k) => Committed(db, CompleteTx(db, k))
    case DoClaimOutbox(owner, rows) => ClaimOutbox(db, owner, rows)
    case DoEnqueue(e) =>
      if e in db.events then db.(jobs := db.jobs + {Job(e.file, e.generation)}) else db
    case DoMarkPublished(e) =>
      if EventHeld(db, e) && Job(e.file, e.generation) in db.jobs
      then db.(outbox := db.outbox[e.row :=
        db.outbox[e.row].(status := Published, owner := None, expires := None)])
      else db
    case DoBackOff(e, t) =>
      if EventHeld(db, e)
      then db.(outbox := db.outbox[e.row :=
        db.outbox[e.row].(owner := None, expires := None, nextAttempt := t)])
      else db
    case Environment(dt, moves, projects) =>
      db.(now := db.now + dt, moves := moves,
          projects := if db.projects.Keys <= projects.Keys then projects else db.projects)
  }

  function Run(db: Db, calls: seq<Call>): Db
    decreases |calls|
  {
    if calls == [] then db else Run(Step(db, calls[0]), calls[1..])
  }

  function Empty(control: Option<Control>): Db {
    Db(0, control, map[], map[], map[], map[], map[], map[], {}, {})
  }
}
