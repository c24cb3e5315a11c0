/** Crash-safe uploads. A writer records an ACTIVE intent, renames the file, and
    deletes the intent in the transaction that inserts the source and outbox rows;
    dispatchers recover the intents of writers that never finished by unlinking
    files. Every database statement and every file operation is one atomic action
    here, and actions of any number of writers, dispatchers, the server and the
    clock interleave freely. */
module MoveRecovery {
  import opened Options

  // A file stands for one planned upload: its file id, its intent id and its two
  // paths, all drawn fresh.
  type File = nat
  type Micros = nat

  const SECOND: Micros := 1_000_000
  const WRITER_LEASE: Micros := 120 * SECOND
  const UNCERTAIN_GRACE: Micros := 300 * SECOND
  const CLAIM_LEASE: Micros := 60 * SECOND

  datatype Owner = Writer(writer: nat) | Dispatcher(task: nat)
  datatype Status = Active | Uncertain | Rejected
  datatype Intent = Intent(
    status: Status, writer: nat, owner: Option<Owner>, expires: Micros, recoverAfter: Micros,
    nextAttempt: Micros, attempts: nat)

  // How far the client got with each of its files, its own view of the upload, and what the server did with the
  // transaction: the two part ways when a commit reply is lost.
  datatype Phase = Working | IntentsDeleted | CommitSent | CommitUnknown | Failing | Over
  datatype Tx = Open | Committed | RolledBack
  datatype Upload = Upload(
    files: set<File>, inserted: set<File>, moved: set<File>, rows: set<File>, phase: Phase, tx: Tx, sent: bool)

  // One claimed intent row in the hands of one dispatcher run. Both paths are
  // inspected first, in either order; seen are those where there was a file.
  datatype Place = Quarantine | Destination
  datatype Progress =
    | Claimed | Renewed | Inspecting(looked: set<Place>, found: set<Place>) | Cleaning(place: Place, seen: set<Place>)
    | MayUnlink(path: Place, seen: set<Place>) | MayDelete | Partial | Ended
  datatype Task = Task(file: File, writer: nat, kind: Status, progress: Progress)

  datatype World = World(
    now: Micros, intents: map<File, Intent>, locks: map<File, nat>, sources: set<File>,
    outbox: set<File>, uploads: map<nat, Upload>, tasks: map<nat, Task>, quarantine: set<File>,
    destination: set<File>, used: set<File>)

  datatype Action =
    // the writer
    | Begin(w: nat, files: set<File>)
    | InsertIntent(w: nat, f: File)
    | RenewWriter(w: nat)
    | Rename(w: nat, f: File)
    | InsertRows(w: nat, f: File)
    | DeleteIntents(w: nat)
    | SendCommit(w: nat)
    | ReplyOk(w: nat)
    | ReplyLost(w: nat)
    | UpsertUncertain(w: nat)
    | Fail(w: nat)
    | CleanUp(w: nat, f: File, place: Place)
    | ForgetIntents(w: nat)
    | GiveUp(w: nat)
    // the server
    | ServerCommit(w: nat)
    | ServerRollback(w: nat)
    // a dispatcher
    | ClaimRow(t: nat, file: File, kind: Status)
    | RenewTask(t: nat)
    | ReadFacts(t: nat)
    | Inspect(t: nat, place: Place)
    | RenewForUnlink(t: nat)
    | Unlink(t: nat)
    | SkipPath(t: nat)
    | RejectUnsafe(t: nat)
    | FencedDelete(t: nat)
    | BackOff(t: nat, delay: Micros)
    | EndTask(t: nat)
    // a user deleting a file, and time
    | UserDelete(file: File)
    | Tick(elapsed: Micros)

  predicate WriterOwns(s: World, w: nat, f: File) {
    f in s.intents && s.intents[f].writer == w && s.intents[f].owner == Some(Writer(w))
  }

  predicate TaskOwns(s: World, t: nat) {
    t in s.tasks && s.tasks[t].file in s.intents && s.intents[s.tasks[t].file].owner == Some(Dispatcher(t))
  }

  // A statement on a row waits while another transaction holds it.
  predicate Unlocked(s: World, f: File) { f !in s.locks }

  predicate AllUnlocked(s: World, w: nat)
    requires w in s.uploads
  {
    forall f | f in s.uploads[w].files :: Unlocked(s, f)
  }

  predicate Claimable(s: World, f: File, kind: Status) {
    f in s.intents && Unlocked(s, f) && !kind.Rejected?
    && var i := s.intents[f];
       i.status == kind && i.nextAttempt <= s.now && i.recoverAfter <= s.now
       && (i.owner.None? || i.expires <= s.now)
  }

  predicate Present(s: World, f: File, place: Place) {
    f in (if place.Quarantine? then s.quarantine else s.destination)
  }

  predicate Enabled(s: World, a: Action) {
    match a
    case Begin(w, files) => w !in s.uploads && files !! s.used
    case InsertIntent(w, f) =>
      w in s.uploads && s.uploads[w].phase.Working? && f in s.uploads[w].files && f !in s.uploads[w].inserted
    case RenewWriter(w) =>
      w in s.uploads && s.uploads[w].phase.Working? && AllUnlocked(s, w)
    case Rename(w, f) =>
      w in s.uploads && s.uploads[w].phase.Working? && f in s.uploads[w].inserted && f !in s.uploads[w].moved
    case InsertRows(w, f) =>
      w in s.uploads && s.uploads[w].phase.Working? && f in s.uploads[w].moved && s.uploads[w].tx.Open?
    case DeleteIntents(w) =>
      w in s.uploads && s.uploads[w].phase.Working? && s.uploads[w].tx.Open?
      && s.uploads[w].rows == s.uploads[w].files && AllUnlocked(s, w)
    case SendCommit(w) => w in s.uploads && s.uploads[w].phase.IntentsDeleted?
    case ReplyOk(w) => w in s.uploads && s.uploads[w].phase.CommitSent? && s.uploads[w].tx.Committed?
    case ReplyLost(w) => w in s.uploads && s.uploads[w].phase.CommitSent?
    case UpsertUncertain(w) =>
      w in s.uploads && s.uploads[w].phase.CommitUnknown?
      && AllUnlocked(s, w)
    case Fail(w) => w in s.uploads && (s.uploads[w].phase.Working? || s.uploads[w].phase.IntentsDeleted?)
    case CleanUp(w, f, place) =>
      w in s.uploads && s.uploads[w].phase.Failing?
      && f in (if place.Quarantine? then s.uploads[w].files else s.uploads[w].moved)
    case ForgetIntents(w) =>
      w in s.uploads && s.uploads[w].phase.Failing? && AllUnlocked(s, w)
    case GiveUp(w) => w in s.uploads
    case ServerCommit(w) => w in s.uploads && s.uploads[w].tx.Open? && s.uploads[w].sent
    case ServerRollback(w) => w in s.uploads && s.uploads[w].tx.Open?
    case ClaimRow(t, f, kind) => t !in s.tasks && Claimable(s, f, kind)
    case RenewTask(t) => t in s.tasks && s.tasks[t].progress.Claimed? && Unlocked(s, s.tasks[t].file)
    case ReadFacts(t) => t in s.tasks && s.tasks[t].progress.Renewed?
    case Inspect(t, place) => t in s.tasks && s.tasks[t].progress.Inspecting? && place !in s.tasks[t].progress.looked
    case RenewForUnlink(t) =>
      t in s.tasks && s.tasks[t].progress.Cleaning? && s.tasks[t].progress.place in s.tasks[t].progress.seen
      && Unlocked(s, s.tasks[t].file)
    case Unlink(t) => t in s.tasks && s.tasks[t].progress.MayUnlink?
    case SkipPath(t) =>
      t in s.tasks
      && (   (s.tasks[t].progress.Cleaning? && s.tasks[t].progress.place !in s.tasks[t].progress.seen)
          || (s.tasks[t].progress.MayUnlink? && !Present(s, s.tasks[t].file, s.tasks[t].progress.path)))
    case RejectUnsafe(t) =>
      t in s.tasks && (s.tasks[t].progress.Cleaning? || s.tasks[t].progress.MayUnlink?)
      && Unlocked(s, s.tasks[t].file)
    case FencedDelete(t) => t in s.tasks && s.tasks[t].progress.MayDelete? && Unlocked(s, s.tasks[t].file)
    case BackOff(t, _) => t in s.tasks && !s.tasks[t].progress.Ended? && Unlocked(s, s.tasks[t].file)
    case EndTask(t) => t in s.tasks
    case UserDelete(f) => f in s.sources
    case Tick(_) => true
  }

  function WithPhase(s: World, w: nat, p: Phase): World
    requires w in s.uploads
  {
    s.(uploads := s.uploads[w := s.uploads[w].(phase := p)])
  }

  function WithProgress(s: World, t: nat, p: Progress): World
    requires t in s.tasks
  {
    s.(tasks := s.tasks[t := s.tasks[t].(progress := p)])
  }

  function OwnedBy(s: World, w: nat): set<File>
    requires w in s.uploads
  {
    set f | f in s.uploads[w].files && WriterOwns(s, w, f)
  }

  function AfterInspection(looked: set<Place>, found: set<Place>): Progress {
    if Quarantine in looked && Destination in looked then Cleaning(Quarantine, found) else Inspecting(looked, found)
  }

  function AfterPath(p: Place, seen: set<Place>): Progress {
    if p.Quarantine? then Cleaning(Destination, seen) else MayDelete
  }

  // renewActiveMoveIntents: all intents inserted so far, or the upload fails.
  function LeasesRenewed(s: World, w: nat): World
    requires w in s.uploads
  {
    var owned := set f | f in OwnedBy(s, w) && s.intents[f].status.Active?;
    var s1 := s.(intents := map f | f in s.intents ::
      if f in owned
      then s.intents[f].(expires := s.now + WRITER_LEASE, recoverAfter := s.now + WRITER_LEASE)
      else s.intents[f]);
    if owned == s.uploads[w].inserted then s1 else WithPhase(s1, w, Failing)
  }

  function Renamed(s: World, w: nat, f: File): World
    requires w in s.uploads
  {
    var u := s.uploads[w];
    if f in s.quarantine then
      s.(uploads := s.uploads[w := u.(moved := u.moved + {f})],
         quarantine := s.quarantine - {f}, destination := s.destination + {f})
    else WithPhase(s, w, Failing)
  }

  // The in-transaction delete holds the rows the writer still owns; it must be all.
  function IntentsHeld(s: World, w: nat): World
    requires w in s.uploads
  {
    var owned := OwnedBy(s, w);
    var s1 := s.(locks := map f | f in s.locks.Keys + owned :: if f in owned then w else s.locks[f]);
    WithPhase(s1, w, if owned == s.uploads[w].files then IntentsDeleted else Failing)
  }

  // preserveUncertainMoveIntents
  function Upserted(s: World, w: nat): World
    requires w in s.uploads
  {
    var u := s.uploads[w];
    var row := Intent(Uncertain, w, None, 0, s.now + UNCERTAIN_GRACE, s.now + UNCERTAIN_GRACE, 0);
    WithPhase(s.(intents := map f | f in s.intents.Keys + u.files ::
      if f in u.files then row else s.intents[f]), w, Over)
  }

  function TxCommitted(s: World, w: nat): World
    requires w in s.uploads
  {
    var u := s.uploads[w];
    s.(uploads := s.uploads[w := u.(tx := Committed)], sources := s.sources + u.files,
       outbox := s.outbox + u.files, intents := s.intents - (set f | f in s.locks && s.locks[f] == w),
       locks := map f | f in s.locks && s.locks[f] != w :: s.locks[f])
  }

  function TxRolledBack(s: World, w: nat): World
    requires w in s.uploads
  {
    s.(uploads := s.uploads[w := s.uploads[w].(tx := RolledBack)],
       locks := map f | f in s.locks && s.locks[f] != w :: s.locks[f])
  }

  function NextWriter(s: World, a: Action): World
    requires Enabled(s, a)
  {
    match a
    case Begin(w, files) =>
      s.(uploads := s.uploads[w := Upload(files, {}, {}, {}, Working, Open, false)],
         used := s.used + files, quarantine := s.quarantine + files)
    case InsertIntent(w, f) =>
      var u := s.uploads[w];
      s.(uploads := s.uploads[w := u.(inserted := u.inserted + {f})],
         intents := s.intents[f :=
           Intent(Active, w, Some(Writer(w)), s.now + WRITER_LEASE, s.now + WRITER_LEASE, s.now, 0)])
    case RenewWriter(w) => LeasesRenewed(s, w)
    case Rename(w, f) => Renamed(s, w, f)
    case InsertRows(w, f) =>
      var u := s.uploads[w];
      s.(uploads := s.uploads[w := u.(rows := u.rows + {f})])
    case DeleteIntents(w) => IntentsHeld(s, w)
    case SendCommit(w) => s.(uploads := s.uploads[w := s.uploads[w].(phase := CommitSent, sent := true)])
    case ReplyOk(w) => WithPhase(s, w, Over)
    case ReplyLost(w) => WithPhase(s, w, CommitUnknown)
    case UpsertUncertain(w) => Upserted(s, w)
    case Fail(w) => WithPhase(s, w, Failing)
    case CleanUp(w, f, place) =>
      if place.Quarantine? then s.(quarantine := s.quarantine - {f}) else s.(destination := s.destination - {f})
    case ForgetIntents(w) =>
      var owned := OwnedBy(s, w);
      WithPhase(s.(intents := s.intents - owned), w, Over)
    case GiveUp(w) => WithPhase(s, w, Over)
    case ServerCommit(w) => TxCommitted(s, w)
    case ServerRollback(w) => TxRolledBack(s, w)
    case _ => s
  }

  function NextTask(s: World, a: Action): World
    requires Enabled(s, a)
  {
    match a
    case ClaimRow(t, f, kind) =>
      s.(intents := s.intents[f := s.intents[f].(owner := Some(Dispatcher(t)), expires := s.now + CLAIM_LEASE)],
         tasks := s.tasks[t := Task(f, s.intents[f].writer, kind, Claimed)])
    case RenewTask(t) => Renewal(s, t, Renewed)
    case ReadFacts(t) =>
      var f := s.tasks[t].file;
      var source, queued := f in s.sources, f in s.outbox;
      WithProgress(s, t,
        if s.tasks[t].kind.Active? then (if source then MayDelete else Inspecting({}, {}))
        else if source && queued then MayDelete
        else if !source && !queued then Inspecting({}, {})
        else Partial)
    case Inspect(t, place) =>
      var p := s.tasks[t].progress;
      var found := if Present(s, s.tasks[t].file, place) then p.found + {place} else p.found;
      WithProgress(s, t, AfterInspection(p.looked + {place}, found))
    case RenewForUnlink(t) => Renewal(s, t, MayUnlink(s.tasks[t].progress.place, s.tasks[t].progress.seen))
    case Unlink(t) =>
      var f := s.tasks[t].file;
      var p := s.tasks[t].progress.path;
      var s1 := if p.Quarantine? then s.(quarantine := s.quarantine - {f})
                else s.(destination := s.destination - {f});
      WithProgress(s1, t, AfterPath(p, s.tasks[t].progress.seen))
    case SkipPath(t) =>
      var p := s.tasks[t].progress;
      WithProgress(s, t, AfterPath(if p.Cleaning? then p.place else p.path, p.seen))
    case RejectUnsafe(t) =>
      var f := s.tasks[t].file;
      var s1 := if TaskOwns(s, t)
        then s.(intents := s.intents[f :=
          s.intents[f].(status := Rejected, attempts := s.intents[f].attempts + 1, owner := None)])
        else s;
      WithProgress(s1, t, Ended)
    case FencedDelete(t) =>
      WithProgress(if TaskOwns(s, t) then s.(intents := s.intents - {s.tasks[t].file}) else s, t, Ended)
    case BackOff(t, delay) =>
      var f := s.tasks[t].file;
      var s1 := if TaskOwns(s, t)
        then s.(intents := s.intents[f :=
          s.intents[f].(attempts := s.intents[f].attempts + 1, owner := None, nextAttempt := s.now + delay)])
        else s;
      WithProgress(s1, t, Ended)
    case EndTask(t) => WithProgress(s, t, Ended)
    case UserDelete(f) =>
      s.(sources := s.sources - {f}, outbox := s.outbox - {f}, destination := s.destination - {f})
    case Tick(dt) => s.(now := s.now + dt)
    case _ => s
  }

  // renewClaimLease: owner-checked, and a lost lease ends the recovery.
  function Renewal(s: World, t: nat, then_: Progress): World
    requires t in s.tasks
  {
    var f := s.tasks[t].file;
    if TaskOwns(s, t) then
      WithProgress(s.(intents := s.intents[f := s.intents[f].(expires := s.now + CLAIM_LEASE)]), t, then_)
    else WithProgress(s, t, Ended)
  }

  predicate ByWriter(a: Action) {
    a.Begin? || a.InsertIntent? || a.RenewWriter? || a.Rename? || a.InsertRows? || a.DeleteIntents?
    || a.SendCommit? || a.ReplyOk? || a.ReplyLost? || a.UpsertUncertain? || a.Fail? || a.CleanUp?
    || a.ForgetIntents? || a.GiveUp? || a.ServerCommit? || a.ServerRollback?
  }

  // An action that is not enabled waits, so it changes nothing.
  function Next(s: World, a: Action): World {
    if !Enabled(s, a) then s else if ByWriter(a) then NextWriter(s, a) else NextTask(s, a)
  }

  function Run(s: World, actions: seq<Action>): World
    decreases |actions|
  {
    if actions == [] then s else Run(Next(s, actions[0]), actions[1..])
  }

  const START := World(0, map[], map[], {}, {}, map[], map[], {}, {}, {})
}
