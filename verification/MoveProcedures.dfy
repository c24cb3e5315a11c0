/** The code of the writer and of the dispatcher, run one statement at a time. What
    the others do before each statement, which statements fail for a reason of their
    own and which paths are found unsafe is given; beyond that a statement fails when
    the database refuses it or a row stays locked. The code's own error paths are all
    here, and so is what follows when nothing goes wrong. */
module MoveProcedures {
  import opened Options
  import opened MoveRecovery
  import opened MoveSafety
  import opened MovePaths
  import opened MoveCalm

  datatype Outcome = Saved | Failed | Unknown

  // What a successful step of the loop adds to the client's view.
  function Progressed(u: Upload, a: Action): Upload {
    match a
    case InsertIntent(_, f) => u.(inserted := u.inserted + {f})
    case Rename(_, f) => u.(moved := u.moved + {f})
    case InsertRows(_, f) => u.(rows := u.rows + {f})
    case DeleteIntents(_) => u.(phase := IntentsDeleted)
    case _ => u
  }

  // Where an action takes a task, and what it tells about the paths.
  ghost predicate Acted(k: Task, n: World, t: nat, a: Action) {
    && t in n.tasks && n.tasks[t] == k.(progress := n.tasks[t].progress)
    && var p, q := k.progress, n.tasks[t].progress;
       match a
       case RenewTask(_) => q.Renewed? || q.Ended?
       case ReadFacts(_) => (q.MayDelete? && k.file in n.sources) || q == Inspecting({}, {}) || q.Partial?
       case Inspect(_, place) =>
         && p.Inspecting?
         && q == AfterInspection(p.looked + {place}, if Present(n, k.file, place) then p.found + {place} else p.found)
       case RenewForUnlink(_) => p.Cleaning? && p.place in p.seen && (q == MayUnlink(p.place, p.seen) || q.Ended?)
       case Unlink(_) => p.MayUnlink? && q == AfterPath(p.path, p.seen) && !Present(n, k.file, p.path)
       case SkipPath(_) =>
         || (p.Cleaning? && p.place !in p.seen && q == AfterPath(p.place, p.seen))
         || (p.MayUnlink? && q == AfterPath(p.path, p.seen) && !Present(n, k.file, p.path))
       case _ => q.Ended?
  }

  lemma TaskActs(s: World, a: Action, t: nat)
    requires t in s.tasks && Enabled(s, a) && TaskAction(a, t)
    ensures Acted(s.tasks[t], Next(s, a), t, a)
  {}

  // The file of a task, on its way from s to n.
  ghost predicate FileOnward(s: World, n: World, k: Task) {
    k.writer in s.uploads && k.writer in n.uploads && Onward(s, n, k.writer, k.file)
  }

  lemma TaskFile(s: World, t: nat)
    requires Good(s) && t in s.tasks
    ensures FileOnward(s, s, s.tasks[t])
    ensures s.tasks[t].file in s.uploads[s.tasks[t].writer].files
  {
    assert TaskOk(s, t) && UploadOk(s, s.tasks[t].writer);
  }

  ghost predicate FileHandled(s: World, n: World, k: Task, place: Place) {
    k.writer in s.uploads && k.writer in n.uploads && Handled(s, n, k.writer, k.file, place)
  }

  // Nothing is left of an upload that was not committed, except a file its writer
  // moved since s; and it moved none that it could no longer rename at s.
  ghost predicate Recovered(s: World, n: World, k: Task) {
    && k.file !in n.intents && k.file !in n.quarantine && k.writer in s.uploads && k.writer in n.uploads
    && (k.file in n.destination ==> k.file in n.sources || MovedSince(s, n, k.writer, k.file))
    && (MovedSince(s, n, k.writer, k.file) ==> CanRename(s, k.writer, k.file))
  }

  lemma CommittedIsRecovered(s: World, m: World, n: World, k: Task)
    requires Good(m) && Good(n) && FileOnward(s, m, k) && FileOnward(m, n, k) && k.file in m.sources && k.file !in n.intents
    ensures Recovered(s, n, k)
  {
    assert UploadOk(m, k.writer) && UploadOk(n, k.writer);
    assert UploadPlaced(m, k.writer) && FilePlaced(m, k.writer, k.file);
    assert UploadPlaced(n, k.writer) && FilePlaced(n, k.writer, k.file);
  }

  // What both inspections leave: a path without a file then is dealt with.
  ghost predicate UnseenIsHandled(s: World, n: World, k: Task) {
    k.progress.Cleaning? && forall place: Place | place !in k.progress.seen :: FileHandled(s, n, k, place)
  }

  ghost predicate Inspected(s: World, n: World, t: nat, k: Task) {
    && t in n.tasks && n.tasks[t] == k.(progress := n.tasks[t].progress)
    && FileOnward(s, n, k) && UnseenIsHandled(s, n, n.tasks[t]) && n.tasks[t].progress.place.Quarantine?
  }

  function OtherPlace(place: Place): Place {
    if place.Quarantine? then Destination else Quarantine
  }

  lemma OneInspected(k: Task, n: World, t: nat, first: Place)
    requires k.progress == Inspecting({}, {}) && Acted(k, n, t, Inspect(t, first))
    ensures n.tasks[t].progress.Inspecting? && n.tasks[t].progress.looked == {first}
  {
    assert {} + {first} == {first};
  }

  lemma BothInspected(s: World, m: World, n: World, t: nat, k: Task, first: Place)
    requires k.progress == Inspecting({}, {}) && FileOnward(s, m, k) && FileOnward(m, n, k) && FileOnward(s, n, k)
    requires Acted(k, m, t, Inspect(t, first))
    requires Acted(m.tasks[t], n, t, Inspect(t, OtherPlace(first)))
    ensures Inspected(s, n, t, k)
  {
    var second := OtherPlace(first);
    var found := if Present(m, k.file, first) then {first} else {};
    assert {} + {first} == {first} && {} + (if Present(m, k.file, first) then {first} else {}) == found;
    assert m.tasks[t].progress == Inspecting({first}, found);
    if first !in found { StaysHandled(s, m, n, k.writer, k.file, first); }
  }

  // A path is dealt with, and the recovery goes on behind it.
  ghost predicate PathDone(s: World, m: World, n: World, t: nat, k: Task) {
    && k.progress.Cleaning? && t in n.tasks && n.tasks[t] == k.(progress := AfterPath(k.progress.place, k.progress.seen))
    && FileOnward(s, n, k) && FileOnward(m, n, k) && FileHandled(s, n, k, k.progress.place)
  }

  lemma SkipIsDone(s: World, m: World, t: nat, k: Task)
    requires Good(m) && t in m.tasks && k == m.tasks[t] && k.progress.Cleaning? && k.progress.place !in k.progress.seen
    requires FileOnward(s, m, k) && UnseenIsHandled(s, m, k)
    ensures Enabled(m, SkipPath(t)) && PathDone(s, m, Next(m, SkipPath(t)), t, k)
  {
    TaskFile(m, t);
  }

  lemma FirstPathDone(s: World, m: World, n: World, t: nat, k: Task)
    requires Inspected(s, m, t, k) && PathDone(s, m, n, t, m.tasks[t])
    ensures FileOnward(s, n, n.tasks[t]) && UnseenIsHandled(s, n, n.tasks[t])
    ensures n.tasks[t].progress.place.Destination? && k.file !in n.quarantine
    ensures n.tasks[t] == k.(progress := n.tasks[t].progress)
  {
    forall place: Place | place !in n.tasks[t].progress.seen ensures FileHandled(s, n, n.tasks[t], place) {
      StaysHandled(s, m, n, k.writer, k.file, place);
    }
  }

  lemma BothPathsDone(s: World, m: World, n: World, t: nat, k: Task)
    requires t in m.tasks && m.tasks[t] == k.(progress := m.tasks[t].progress)
    requires PathDone(s, m, n, t, m.tasks[t]) && m.tasks[t].progress.place.Destination? && k.file !in m.quarantine
    ensures n.tasks[t] == k.(progress := MayDelete) && FileOnward(s, n, k)
    ensures FileHandled(s, n, k, Quarantine) && FileHandled(s, n, k, Destination)
  {}

  lemma CleanedIsRecovered(s: World, m: World, n: World, k: Task)
    requires FileOnward(s, m, k) && FileOnward(m, n, k) && k.file !in n.intents
    requires FileHandled(s, m, k, Quarantine) && FileHandled(s, m, k, Destination)
    ensures Recovered(s, n, k)
  {
    StaysHandled(s, m, n, k.writer, k.file, Quarantine);
    StaysHandled(s, m, n, k.writer, k.file, Destination);
  }

  predicate OffDisk(s: World, f: File) {
    f !in s.quarantine && f !in s.destination
  }

  predicate NothingLeft(s: World, w: nat, f: File) {
    OffDisk(s, f) && !WriterOwns(s, w, f)
  }

  // While the client does nothing itself, a file off disk stays off disk.
  lemma StillOffDisk(s: World, n: World, w: nat, files: seq<File>, k: nat)
    requires SameClient(s, n, w) && k <= |files| && forall f | f in files :: f in s.uploads[w].files
    requires forall f | f in n.uploads[w].files :: Onward(s, n, w, f)
    ensures forall j | 0 <= j < k && OffDisk(s, files[j]) :: OffDisk(n, files[j])
  {
    forall j | 0 <= j < k && OffDisk(s, files[j]) ensures OffDisk(n, files[j]) {
      assert files[j] in files && Onward(s, n, w, files[j]);
    }
  }

  // ---------------------------------------------------------------------------
  // A dispatcher that nobody else interferes with

  // Only the recovery, its row and the paths of its file differ, and while it owns
  // the row nothing of that but the lease.
  ghost predicate Solo(s: World, n: World, t: nat) {
    && t in s.tasks && t in n.tasks && n.tasks[t] == s.tasks[t].(progress := n.tasks[t].progress)
    && n == s.(intents := n.intents, tasks := s.tasks[t := n.tasks[t]], quarantine := n.quarantine, destination := n.destination)
    && var f := s.tasks[t].file;
       && n.intents - {f} == s.intents - {f} && (f in n.intents ==> f in s.intents)
       && (TaskOwns(s, t) && TaskOwns(n, t) ==> n.intents[f] == s.intents[f].(expires := n.intents[f].expires))
       && n.quarantine <= s.quarantine <= n.quarantine + {f} && n.destination <= s.destination <= n.destination + {f}
  }

  lemma SoloOn(s: World, m: World, n: World, t: nat)
    requires Solo(s, m, t) && Solo(m, n, t) && (TaskOwns(n, t) ==> TaskOwns(m, t))
    ensures Solo(s, n, t)
  {}

  lemma ActsSolo(s: World, a: Action, t: nat)
    requires t in s.tasks && Enabled(s, a) && TaskAction(a, t) && !a.ClaimRow?
    ensures Solo(s, Next(s, a), t) && (TaskOwns(Next(s, a), t) ==> TaskOwns(s, t))
  {}

  // Seconds before the next attempt after so many: they double up to 256.
  function RetryDelay(attempts: nat): nat {
    if attempts == 0 then 1 else if attempts > 8 then 256 else 2 * RetryDelay(attempts - 1)
  }

  // The row goes back to be tried again, or is rejected for good.
  ghost predicate BackedOff(s: World, n: World, f: File) {
    && f in s.intents && f in n.intents && var i := s.intents[f];
      n.intents[f] == i.(owner := None, attempts := i.attempts + 1, expires := n.intents[f].expires,
                         nextAttempt := n.now + RetryDelay(i.attempts + 1) * 1_000_000)
  }

  ghost predicate TurnedDown(s: World, n: World, f: File) {
    && f in s.intents && f in n.intents && var i := s.intents[f];
      n.intents[f] == i.(status := Rejected, owner := None, attempts := i.attempts + 1, expires := n.intents[f].expires)
  }

  lemma TurnedDownSolo(s: World, m: World, n: World, t: nat)
    requires Solo(s, m, t) && TaskOwns(s, t) && TaskOwns(m, t)
    ensures BackedOff(m, n, s.tasks[t].file) ==> BackedOff(s, n, s.tasks[t].file)
    ensures TurnedDown(m, n, s.tasks[t].file) ==> TurnedDown(s, n, s.tasks[t].file)
  {}

  // The intent is gone, and both paths of a file that is not registered.
  function Settled(s: World, t: nat): World
    requires t in s.tasks
  {
    var f := s.tasks[t].file;
    s.(intents := s.intents - {f}, tasks := s.tasks[t := s.tasks[t].(progress := Ended)], quarantine := s.quarantine - {f},
       destination := if f in s.sources then s.destination else s.destination - {f})
  }

  lemma SoloRecovery(s: World, n: World, t: nat)
    requires Good(n) && Solo(s, n, t) && Recovered(s, n, s.tasks[t]) && n.tasks[t].progress.Ended?
    ensures n == Settled(s, t)
  {
    var f := s.tasks[t].file;
    assert n.intents == s.intents - {f} && n.quarantine == s.quarantine - {f};
  }

  lemma BackOffWorks(s: World, t: nat, delay: Micros)
    requires Inv(s) && TaskOwns(s, t) && !s.tasks[t].progress.Ended?
    requires delay == RetryDelay(s.intents[s.tasks[t].file].attempts + 1) * 1_000_000
    ensures Enabled(s, BackOff(t, delay)) && BackedOff(s, Next(s, BackOff(t, delay)), s.tasks[t].file)
  {
    OwnedIsUnlocked(s, t);
  }

  lemma RejectWorks(s: World, t: nat)
    requires Inv(s) && TaskOwns(s, t) && (s.tasks[t].progress.Cleaning? || s.tasks[t].progress.MayUnlink?)
    ensures Enabled(s, RejectUnsafe(t)) && TurnedDown(s, Next(s, RejectUnsafe(t)), s.tasks[t].file)
  {
    OwnedIsUnlocked(s, t);
  }

  // A recovery's own statements are possible for the owner, and leave it the owner.
  predicate Ours(p: Progress, a: Action) {
    match a
    case RenewTask(_) => p.Claimed?
    case ReadFacts(_) => p.Renewed?
    case Inspect(_, place) => p.Inspecting? && place !in p.looked
    case RenewForUnlink(_) => p.Cleaning? && p.place in p.seen
    case Unlink(_) => p.MayUnlink?
    case SkipPath(_) => p.Cleaning? && p.place !in p.seen
    case FencedDelete(_) => p.MayDelete?
    case _ => false
  }

  lemma OursWorks(s: World, a: Action, t: nat)
    requires Inv(s) && TaskOwns(s, t) && TaskAction(a, t) && Ours(s.tasks[t].progress, a)
    ensures Enabled(s, a)
    ensures if a.FencedDelete? then s.tasks[t].file !in Next(s, a).intents
            else TaskOwns(Next(s, a), t) && !Next(s, a).tasks[t].progress.Ended?
  {
    OwnedIsUnlocked(s, t);
  }

  ghost predicate Distinct(files: seq<File>) {
    forall i, j | 0 <= i < j < |files| :: files[i] != files[j]
  }

  function FileSet(files: seq<File>): set<File> {
    set f | f in files
  }

  lemma FilesUpTo(files: seq<File>, k: nat)
    requires k < |files|
    ensures FileSet(files[..k + 1]) == FileSet(files[..k]) + {files[k]}
    ensures Distinct(files) ==> files[k] !in FileSet(files[..k])
  {
    assert files[..k + 1] == files[..k] + [files[k]];
  }

  // Once its transaction is decided an upload holds no rows.
  lemma ClosedIsUnlocked(s: World, w: nat)
    requires Inv(s) && w in s.uploads && !s.uploads[w].tx.Open?
    ensures AllUnlocked(s, w)
  {
    forall f | f in s.uploads[w].files ensures Unlocked(s, f) {
      assert f in s.locks ==> LockOk(s, f);
    }
  }

  // One process. Before its statement number i the others do others(i), and the
  // statement itself fails, or finds a path unsafe, as is given for i.
  // After what the others did, the writer's own step works.
  lemma StepWorks(s: World, others: seq<Action>, a: Action, w: nat)
    requires Good(s) && Unhindered(s, w) && ClientAction(a, w)
    requires forall x | x in others :: !ClientAction(x, w) && !Hinders(x, w, s.uploads[w].files)
    ensures var mid := Run(s, others);
      && (IsNext(s.uploads[w], a) ==> Enabled(mid, a) && Unhindered(Next(mid, a), w))
      && (a.DeleteIntents? && s.uploads[w].rows == s.uploads[w].files ==>
            Enabled(mid, a) && w in Next(mid, a).uploads && Next(mid, a).uploads[w] == s.uploads[w].(phase := IntentsDeleted))
  {
    RunStaysUnhindered(s, others, w);
    RunKeepsGood(s, others);
    var mid := Run(s, others);
    if IsNext(s.uploads[w], a) { OwnStepWorks(mid, a, w); }
    if a.DeleteIntents? && s.uploads[w].rows == s.uploads[w].files { DeleteWorks(mid, w); }
  }

  lemma StepOutcome(s: World, a: Action, w: nat)
    requires Enabled(s, a) && (a == RenewWriter(w) || a == DeleteIntents(w)
      || ((a.InsertIntent? || a.Rename? || a.InsertRows?) && a.w == w))
    ensures var n := NextWriter(s, a);
      w in n.uploads && (n.uploads[w] == Progressed(s.uploads[w], a) || n.uploads[w] == s.uploads[w].(phase := Failing))
  {}

  // What the server's verdict leaves of the files.
  lemma SentIsDecided(s: World, others: seq<Action>, w: nat, files: seq<File>)
    requires Good(s) && w in s.uploads && s.uploads[w].phase.CommitSent? && s.uploads[w].files == FileSet(files)
    requires !s.uploads[w].tx.Committed? && forall x | x in others :: !ClientAction(x, w)
    ensures w in Run(s, others).uploads
    ensures s.uploads[w].tx.Open? && ServerCommit(w) in others && ServerRollback(w) !in others ==>
      Run(s, others).uploads[w].tx.Committed?
    ensures Run(s, others).uploads[w].tx.Committed? && (forall a | a in others :: !Deletes(a, FileSet(files))) ==>
      Stored(Run(s, others), files)
  {
    assert UploadOk(s, w);
    OthersLeaveClient(s, others, w);
    if s.uploads[w].tx.Open? { VerdictOf(s, others, w); }
    if Landed(Run(s, others), w) {
      forall f | f in files ensures f in Run(s, others).uploads[w].files { assert f in FileSet(files); }
    }
  }

  // Registered, in place, and nothing left to recover.
  predicate Stored(s: World, files: seq<File>) {
    forall f | f in files :: f in s.sources && f in s.outbox && f in s.destination && f !in s.intents
  }

  class Host {
    var world: World
    var turn: nat
    const others: nat -> seq<Action>
    const fails: nat -> bool
    const unsafe: nat -> bool

    constructor (world: World, others: nat -> seq<Action>, fails: nat -> bool, unsafe: nat -> bool)
      ensures this.world == world && turn == 0
      ensures this.others == others && this.fails == fails && this.unsafe == unsafe
    {
      this.world, this.turn, this.others, this.fails, this.unsafe := world, 0, others, fails, unsafe;
    }

    // The others are not this writer, or not this dispatcher's task.
    ghost predicate OthersThanClient(w: nat) {
      forall i: nat, a | a in others(i) :: !ClientAction(a, w)
    }

    ghost predicate OthersThanTask(t: nat) {
      forall i: nat, a | a in others(i) :: !TaskAction(a, t)
    }

    ghost predicate NoFails(from: nat, to: nat) {
      forall i: nat | from <= i < to :: !fails(i)
    }

    ghost predicate NoUnsafe(from: nat, to: nat) {
      forall i: nat | from <= i < to :: !unsafe(i)
    }

    ghost predicate Alone(from: nat, to: nat) {
      forall i: nat | from <= i < to :: others(i) == []
    }

    // Nobody takes the row of file f, which writer w recorded.
    ghost predicate Undisputed(from: nat, to: nat, f: File, w: nat) {
      forall i: nat | from <= i < to :: forall a | a in others(i) :: !Seizes(a, f, w)
    }

    // Nobody claims one of the files or rolls the transaction back.
    ghost predicate Unimpeded(from: nat, to: nat, w: nat, files: set<File>) {
      forall i: nat | from <= i < to :: forall a | a in others(i) :: !Hinders(a, w, files)
    }

    // The upload stands unhindered and goes on so.
    ghost predicate Free(s: World, from: nat, to: nat, w: nat) {
      Unhindered(s, w) && Unimpeded(from, to, w, s.uploads[w].files) && NoFails(from, to)
    }

    method Do(a: Action)
      requires Good(world) && Enabled(world, a)
      modifies this`world
      ensures Good(world) && world == Next(old(world), a)
    {
      StepKeepsGood(world, a);
      world := Next(world, a);
    }

    // Whatever the others do before the next statement.
    method YieldClient(w: nat)
      requires Good(world) && w in world.uploads && OthersThanClient(w)
      modifies this
      ensures Good(world) && turn == old(turn) + 1 && world == Run(old(world), others(old(turn)))
      ensures SameClient(old(world), world, w)
      ensures forall f | f in world.uploads[w].files :: Onward(old(world), world, w, f)
    {
      var now := others(turn);
      RunKeepsGood(world, now);
      OthersLeaveClient(world, now, w);
      forall f | f in world.uploads[w].files ensures Onward(world, Run(world, now), w, f) { RunOnward(world, now, w, f); }
      world, turn := Run(world, now), turn + 1;
    }

    method YieldTask(t: nat)
      requires Good(world) && t in world.tasks && OthersThanTask(t)
      modifies this
      ensures Good(world) && turn == old(turn) + 1 && world == Run(old(world), others(old(turn)))
      ensures t in world.tasks && world.tasks[t] == old(world).tasks[t]
      ensures FileOnward(old(world), world, world.tasks[t])
    {
      var now := others(turn);
      TaskFile(world, t);
      RunKeepsGood(world, now);
      OthersLeaveTask(world, now, t);
      RunOnward(world, now, world.tasks[t].writer, world.tasks[t].file);
      world, turn := Run(world, now), turn + 1;
    }

    // -------------------------------------------------------------------------
    // The writer

    // One statement of the writer, after whatever the others did meanwhile.
    method Attempt(a: Action, w: nat) returns (ok: bool)
      requires Good(world) && w in world.uploads && OthersThanClient(w)
      modifies this
      ensures Good(world) && turn == old(turn) + 1
      ensures var mid := Run(old(world), others(old(turn)));
        && SameClient(old(world), mid, w) && Good(mid) && (forall f | f in mid.uploads[w].files :: Onward(old(world), mid, w, f))
        && (ok <==> !fails(old(turn)) && Enabled(mid, a)) && world == if ok then Next(mid, a) else mid
    {
      ok := !fails(turn);
      YieldClient(w);
      ok := ok && Enabled(world, a);
      if ok { Do(a); }
    }

    // One step of the upload loop; any failure ends in the catch block.
    method Step(a: Action, w: nat, ghost expected: Upload) returns (ok: bool)
      requires Good(world) && w in world.uploads && world.uploads[w].phase.Working? && OthersThanClient(w)
      requires a == RenewWriter(w) || a == DeleteIntents(w)
        || ((a.InsertIntent? || a.Rename? || a.InsertRows?) && a.w == w)
      requires expected == Progressed(world.uploads[w], a)
      modifies this
      ensures Good(world) && w in world.uploads && world.uploads[w].files == old(world).uploads[w].files
      ensures turn == old(turn) + 1
      ensures ok ==> world.uploads[w] == expected.(tx := world.uploads[w].tx)
      ensures !ok ==> world.uploads[w].phase.Failing? && !world.uploads[w].sent
      ensures Free(old(world), old(turn), turn, w) ==>
        && (IsNext(old(world).uploads[w], a) ==> ok && Unhindered(world, w))
        && (a.DeleteIntents? && old(world).uploads[w].rows == old(world).uploads[w].files ==> ok && world.uploads[w].tx.Open?)
    {
      assert UploadOk(world, w);
      ghost var start, first := world, turn;
      ok := Attempt(a, w);
      if Free(start, first, turn, w) { StepWorks(start, others(first), a, w); }
      if !ok {
        Do(Fail(w));
      } else {
        StepOutcome(Run(start, others(first)), a, w);
        ok := !world.uploads[w].phase.Failing?;
      }
    }

    // Record, move and register one file, checking the leases around each step.
    method MoveOne(w: nat, f: File) returns (ok: bool)
      requires Good(world) && w in world.uploads && world.uploads[w].phase.Working? && OthersThanClient(w)
      modifies this
      ensures Good(world) && w in world.uploads && world.uploads[w].files == old(world).uploads[w].files
      ensures old(turn) <= turn <= old(turn) + 7
      ensures ok ==> turn == old(turn) + 7 && var u := old(world).uploads[w];
        world.uploads[w] == u.(inserted := u.inserted + {f}, moved := u.moved + {f}, rows := u.rows + {f},
                               tx := world.uploads[w].tx)
      ensures !ok ==> world.uploads[w].phase.Failing? && !world.uploads[w].sent
      ensures Free(old(world), old(turn), turn, w) && IsNext(old(world).uploads[w], InsertIntent(w, f)) ==>
        ok && Unhindered(world, w)
    {
      assert UploadOk(world, w);
      ok := MoveFile(w, f);
      if !ok { return; }
      ok := CheckedStep(InsertRows(w, f), w, Progressed(world.uploads[w], InsertRows(w, f)));
      if !ok { return; }
      ok := Step(RenewWriter(w), w, world.uploads[w]);
    }

    // The intent is recorded before the file is moved.
    method MoveFile(w: nat, f: File) returns (ok: bool)
      requires Good(world) && w in world.uploads && world.uploads[w].phase.Working? && OthersThanClient(w)
      modifies this
      ensures Good(world) && w in world.uploads && world.uploads[w].files == old(world).uploads[w].files
      ensures old(turn) <= turn <= old(turn) + 4 && (ok ==> turn == old(turn) + 4)
      ensures ok ==> var u := old(world).uploads[w];
        world.uploads[w] == u.(inserted := u.inserted + {f}, moved := u.moved + {f}, tx := world.uploads[w].tx)
      ensures !ok ==> world.uploads[w].phase.Failing? && !world.uploads[w].sent
      ensures Free(old(world), old(turn), turn, w) && IsNext(old(world).uploads[w], InsertIntent(w, f)) ==>
        ok && Unhindered(world, w)
    {
      assert UploadOk(world, w);
      ok := CheckedStep(InsertIntent(w, f), w, Progressed(world.uploads[w], InsertIntent(w, f)));
      if ok { ok := CheckedStep(Rename(w, f), w, Progressed(world.uploads[w], Rename(w, f))); }
    }

    // The leases are renewed before the step.
    method CheckedStep(a: Action, w: nat, ghost expected: Upload) returns (ok: bool)
      requires Good(world) && w in world.uploads && world.uploads[w].phase.Working? && OthersThanClient(w)
      requires (a.InsertIntent? || a.Rename? || a.InsertRows?) && a.w == w
      requires expected == Progressed(world.uploads[w], a)
      modifies this
      ensures Good(world) && w in world.uploads && world.uploads[w].files == old(world).uploads[w].files
      ensures old(turn) <= turn <= old(turn) + 2 && (ok ==> turn == old(turn) + 2)
      ensures ok ==> world.uploads[w] == expected.(tx := world.uploads[w].tx)
      ensures !ok ==> world.uploads[w].phase.Failing? && !world.uploads[w].sent
      ensures Free(old(world), old(turn), turn, w) && IsNext(old(world).uploads[w], a) ==> ok && Unhindered(world, w)
    {
      ok := Step(RenewWriter(w), w, world.uploads[w]);
      if ok { ok := Step(a, w, Progressed(world.uploads[w], a)); }
    }

    method MoveAll(w: nat, files: seq<File>) returns (ok: bool)
      requires Good(world) && w in world.uploads && world.uploads[w].phase.Working? && OthersThanClient(w)
      requires world.uploads[w].inserted == world.uploads[w].moved == world.uploads[w].rows == {}
      requires world.uploads[w].files == FileSet(files)
      modifies this
      ensures Good(world) && w in world.uploads && world.uploads[w].files == FileSet(files)
      ensures old(turn) <= turn <= old(turn) + 7 * |files| && (ok ==> turn == old(turn) + 7 * |files|)
      ensures ok ==> world.uploads[w].phase.Working? && world.uploads[w].rows == world.uploads[w].files
      ensures !ok ==> world.uploads[w].phase.Failing? && !world.uploads[w].sent
      ensures Free(old(world), old(turn), turn, w) && Distinct(files) ==> ok && Unhindered(world, w)
    {
      ok := true;
      for k := 0 to |files|
        invariant Good(world) && w in world.uploads && world.uploads[w].files == FileSet(files)
        invariant old(turn) <= turn <= old(turn) + 7 * k && (ok ==> turn == old(turn) + 7 * k)
        invariant ok ==> world.uploads[w].phase.Working? && world.uploads[w].rows == FileSet(files[..k])
        invariant ok ==> world.uploads[w].inserted == FileSet(files[..k])
        invariant !ok ==> world.uploads[w].phase.Failing? && !world.uploads[w].sent
        invariant Free(old(world), old(turn), turn, w) && Distinct(files) ==> ok && Unhindered(world, w)
      {
        if ok {
          FilesUpTo(files, k);
          ok := MoveOne(w, files[k]);
        }
      }
      assert files[..|files|] == files;
    }

    // Everything up to the in-transaction delete of the intents.
    method Register(w: nat, files: seq<File>) returns (ok: bool)
      requires Good(world) && w in world.uploads && world.uploads[w].phase.Working? && OthersThanClient(w)
      requires world.uploads[w].inserted == world.uploads[w].moved == world.uploads[w].rows == {}
      requires world.uploads[w].files == FileSet(files)
      modifies this
      ensures Good(world) && w in world.uploads && world.uploads[w].files == FileSet(files)
      ensures old(turn) <= turn <= old(turn) + 7 * |files| + 2
      ensures if ok then world.uploads[w].phase.IntentsDeleted? else world.uploads[w].phase.Failing? && !world.uploads[w].sent
      ensures ok ==> turn == old(turn) + 7 * |files| + 2
      ensures Unhindered(old(world), w) && Distinct(files) && Smooth(old(turn), turn, w, files) ==>
        ok && world.uploads[w].tx.Open?
    {
      ok := MoveAll(w, files);
      if ok { ok := Step(RenewWriter(w), w, world.uploads[w]); }
      if ok { ok := Step(DeleteIntents(w), w, Progressed(world.uploads[w], DeleteIntents(w))); }
    }

    // One path of the failure path: unlinked, and then gone for good.
    method CleanOne(w: nat, f: File, place: Place) returns (ok: bool)
      requires Good(world) && w in world.uploads && world.uploads[w].phase.Failing? && OthersThanClient(w)
      requires f in world.uploads[w].files && (place.Destination? ==> f in world.uploads[w].moved)
      modifies this
      ensures Good(world) && SameClient(old(world), world, w) && turn == old(turn) + 1
      ensures forall g | g in world.uploads[w].files :: Onward(old(world), world, w, g)
      ensures ok ==> !Present(world, f, place)
      ensures ok <==> !fails(old(turn))
    {
      ok := Attempt(CleanUp(w, f, place), w);
      ghost var mid := Run(old(world), others(old(turn)));
      if ok {
        forall g | g in world.uploads[w].files ensures Onward(old(world), world, w, g) {
          StepOnward(mid, CleanUp(w, f, place), w, g);
          OnwardOn(old(world), mid, world, w, g);
        }
      }
    }

    // The path where the upload left the file.
    method CleanFile(w: nat, f: File) returns (ok: bool)
      requires Good(world) && w in world.uploads && world.uploads[w].phase.Failing? && OthersThanClient(w)
      requires f in world.uploads[w].files
      modifies this
      ensures Good(world) && SameClient(old(world), world, w) && turn == old(turn) + 1
      ensures forall g | g in world.uploads[w].files :: Onward(old(world), world, w, g)
      ensures ok ==> OffDisk(world, f)
      ensures ok <==> !fails(old(turn))
    {
      ok := CleanOne(w, f, if f in world.uploads[w].moved then Destination else Quarantine);
      assert UploadPlaced(world, w) && FilePlaced(world, w, f);
    }

    // The catch block: roll back, unlink the files, then forget the intents still
    // owned. If no statement fails, nothing is left on disk, nor an intent of the
    // writer's, whatever the others do.
    method CleanUpAfterFailure(w: nat, files: seq<File>) returns (clean: bool)
      requires Good(world) && w in world.uploads && world.uploads[w].phase.Failing? && !world.uploads[w].sent
      requires OthersThanClient(w) && forall f | f in files :: f in world.uploads[w].files
      modifies this
      ensures Good(world) && w in world.uploads && world.uploads[w].phase.Over? && !world.uploads[w].sent && turn > old(turn)
      ensures world.uploads[w].files == old(world).uploads[w].files
      ensures clean ==> forall f | f in files :: NothingLeft(world, w, f)
      ensures NoFails(old(turn), turn) ==> clean
    {
      var rolledBack := RollBack(w);
      clean := UnlinkAll(w, files);
      if clean { clean := ForgetAll(w, files); }
      if !clean { Do(GiveUp(w)); }
    }

    // cleanupPaths
    method UnlinkAll(w: nat, files: seq<File>) returns (clean: bool)
      requires Good(world) && w in world.uploads && world.uploads[w].phase.Failing?
      requires OthersThanClient(w) && forall f | f in files :: f in world.uploads[w].files
      modifies this
      ensures Good(world) && SameClient(old(world), world, w) && turn >= old(turn)
      ensures clean ==> forall j | 0 <= j < |files| :: OffDisk(world, files[j])
      ensures NoFails(old(turn), turn) ==> clean
    {
      clean := true;
      for k := 0 to |files|
        invariant Good(world) && SameClient(old(world), world, w) && turn >= old(turn)
        invariant clean ==> forall j | 0 <= j < k :: OffDisk(world, files[j])
        invariant NoFails(old(turn), turn) ==> clean
      {
        ghost var mid := world;
        var ok := CleanFile(w, files[k]);
        StillOffDisk(mid, world, w, files, k);
        clean := clean && ok;
      }
    }

    method RollBack(w: nat) returns (ok: bool)
      requires Good(world) && w in world.uploads && OthersThanClient(w)
      modifies this
      ensures Good(world) && w in world.uploads && turn == old(turn) + 1
      ensures world.uploads[w].(tx := Open) == old(world).uploads[w].(tx := Open)
      ensures ok ==> !world.uploads[w].tx.Open?
      ensures !fails(old(turn)) ==> ok
    {
      ok := Attempt(ServerRollback(w), w);
      if !world.uploads[w].tx.Open? { ok := true; }
    }

    method ForgetAll(w: nat, files: seq<File>) returns (ok: bool)
      requires Good(world) && w in world.uploads && world.uploads[w].phase.Failing? && OthersThanClient(w)
      requires forall j | 0 <= j < |files| :: files[j] in world.uploads[w].files && OffDisk(world, files[j])
      modifies this
      ensures Good(world) && w in world.uploads && world.uploads[w].sent == old(world).uploads[w].sent && turn == old(turn) + 1
      ensures world.uploads[w].files == old(world).uploads[w].files
      ensures ok ==> world.uploads[w].phase.Over? && forall f | f in files :: NothingLeft(world, w, f)
      ensures !fails(old(turn)) && !old(world).uploads[w].tx.Open? ==> ok
    {
      ok := Attempt(ForgetIntents(w), w);
      ghost var mid := Run(old(world), others(old(turn)));
      StillOffDisk(old(world), mid, w, files, |files|);
      if !mid.uploads[w].tx.Open? { ClosedIsUnlocked(mid, w); }
    }

    // How an upload that began at the given turn may end: one that answers is
    // committed and its files are stored unless a user deletes them at once; one that
    // fails was hindered before its commit, never will be committed, and leaves
    // nothing behind if that was all that went wrong; one whose reply is lost leaves
    // its files to a recovery after the grace.
    ghost predicate Ends(outcome: Outcome, from: nat, n: World, to: nat, w: nat, files: seq<File>) {
      && w in n.uploads && n.uploads[w].files == FileSet(files) && to > 0
      && var commit := from + 7 * |files| + 2;
         match outcome
         case Saved => n.uploads[w].tx.Committed? && (NoDeletion(to - 1, files) ==> Stored(n, files))
         case Failed =>
           && !n.uploads[w].sent && !n.uploads[w].tx.Committed? && !Smooth(from, commit, w, files)
           && (OneFault(from, to, w, files) ==> forall f | f in files :: NothingLeft(n, w, f))
         case Unknown =>
           && !(Smooth(from, commit, w, files) && CommitsAt(commit, w, files))
           && (!fails(to - 1) && !n.uploads[w].tx.Open? ==> LeftToRecovery(n, w, files))
    }

    // uploadFiles. If nobody hinders it and no statement fails until the server
    // commits and the reply is heard, it answers.
    method UploadFiles(w: nat, files: seq<File>) returns (outcome: Outcome)
      requires Good(world) && w !in world.uploads && (forall f | f in files :: f !in world.used) && Distinct(files)
      requires OthersThanClient(w)
      modifies this
      ensures Good(world) && turn > old(turn) && Ends(outcome, old(turn), world, turn, w, files)
    {
      BeginUpload(w, files);
      var ok := Register(w, files);
      if !ok {
        Abandon(w, files, old(turn));
        return Failed;
      }
      outcome := Commit(w, files, old(turn));
    }

    // The identities of all files are planned before anything is recorded.
    method BeginUpload(w: nat, files: seq<File>)
      requires Good(world) && w !in world.uploads && forall f | f in files :: f !in world.used
      modifies this`world
      ensures Good(world) && Unhindered(world, w)
      ensures var u := world.uploads[w]; u.files == FileSet(files) && u.inserted == u.moved == u.rows == {} && !u.sent
    {
      BeginIsUnhindered(world, w, FileSet(files));
      Do(Begin(w, FileSet(files)));
    }

    // The upload failed since the given turn.
    method Abandon(w: nat, files: seq<File>, ghost from: nat)
      requires Good(world) && w in world.uploads && world.uploads[w].phase.Failing? && !world.uploads[w].sent
      requires OthersThanClient(w) && world.uploads[w].files == FileSet(files)
      requires from <= turn <= from + 7 * |files| + 2 && !Smooth(from, turn, w, files)
      modifies this
      ensures Good(world) && turn > old(turn) && Ends(Failed, from, world, turn, w, files)
    {
      var clean := CleanUpAfterFailure(w, files);
      assert UploadOk(world, w);
      if OneFault(from, turn, w, files) { FaultsApart(from, old(turn), turn, w, files); }
    }

    ghost predicate Smooth(from: nat, to: nat, w: nat, files: seq<File>) {
      NoFails(from, to) && Unimpeded(from, to, w, FileSet(files))
    }

    // The server commits before the reply is due, and the reply is heard.
    ghost predicate CommitsAt(i: nat, w: nat, files: seq<File>) {
      Smooth(i, i + 1, w, files) && ServerCommit(w) in others(i)
    }

    ghost predicate NoDeletion(i: nat, files: seq<File>) {
      forall a | a in others(i) :: !Deletes(a, FileSet(files))
    }

    // Nobody hinders the writer, and at most one of its statements fails.
    ghost predicate OneFault(from: nat, to: nat, w: nat, files: seq<File>) {
      && Unimpeded(from, to, w, FileSet(files))
      && forall i: nat, j: nat | from <= i < j < to :: !(fails(i) && fails(j))
    }

    // With one fault in all, one before a turn means none after it.
    lemma FaultsApart(from: nat, mid: nat, to: nat, w: nat, files: seq<File>)
      requires from <= mid <= to && OneFault(from, to, w, files) && !Smooth(from, mid, w, files)
      ensures NoFails(mid, to)
    {
      var i: nat :| from <= i < mid && fails(i);
      forall j: nat | mid <= j < to ensures !fails(j) { assert !(fails(i) && fails(j)); }
    }

    // A row without owner that may be claimed once the grace is over.
    ghost predicate LeftToRecovery(s: World, w: nat, files: seq<File>) {
      forall f | f in files ::
        f in s.intents && s.intents[f] == Intent(Uncertain, w, None, 0, s.now + 300_000_000, s.now + 300_000_000, 0)
    }

    // The commit of an upload that began at the given turn.
    method Commit(w: nat, files: seq<File>, ghost from: nat) returns (outcome: Outcome)
      requires Good(world) && w in world.uploads && world.uploads[w].phase.IntentsDeleted? && OthersThanClient(w)
      requires world.uploads[w].files == FileSet(files) && turn == from + 7 * |files| + 2
      requires Smooth(from, turn, w, files) ==> world.uploads[w].tx.Open?
      modifies this
      ensures Good(world) && turn > old(turn) && !outcome.Failed? && Ends(outcome, from, world, turn, w, files)
    {
      var heard := AwaitReply(w, files);
      if heard && world.uploads[w].tx.Committed? {
        Do(ReplyOk(w));
        return Saved;
      }
      LoseReply(w, files);
      return Unknown;
    }

    method AwaitReply(w: nat, files: seq<File>) returns (heard: bool)
      requires Good(world) && w in world.uploads && world.uploads[w].phase.IntentsDeleted? && OthersThanClient(w)
      requires world.uploads[w].files == FileSet(files)
      modifies this
      ensures Good(world) && w in world.uploads && world.uploads[w].phase.CommitSent? && turn == old(turn) + 1
      ensures world.uploads[w].files == FileSet(files) && heard == !fails(old(turn))
      ensures old(world).uploads[w].tx.Open? && CommitsAt(old(turn), w, files) ==> world.uploads[w].tx.Committed?
      ensures world.uploads[w].tx.Committed? && NoDeletion(old(turn), files) ==> Stored(world, files)
    {
      Send(w, files);
      heard := !fails(turn);
      SentIsDecided(world, others(turn), w, files);
      YieldClient(w);
    }

    method LoseReply(w: nat, files: seq<File>)
      requires Good(world) && w in world.uploads && world.uploads[w].phase.CommitSent? && OthersThanClient(w)
      requires world.uploads[w].files == FileSet(files)
      modifies this
      ensures Good(world) && w in world.uploads && world.uploads[w].files == FileSet(files) && turn == old(turn) + 1
      ensures !fails(old(turn)) && !world.uploads[w].tx.Open? ==> LeftToRecovery(world, w, files)
    {
      Do(ReplyLost(w));
      Preserve(w, files);
    }

    method Send(w: nat, files: seq<File>)
      requires Good(world) && w in world.uploads && world.uploads[w].phase.IntentsDeleted?
      modifies this`world
      ensures Good(world) && w in world.uploads && world.uploads[w] == old(world).uploads[w].(phase := CommitSent, sent := true)
      ensures !world.uploads[w].tx.Committed?
    {
      assert UploadOk(world, w);
      Do(SendCommit(w));
    }

    // preserveUncertainMoveIntents; a failure is logged only.
    method Preserve(w: nat, files: seq<File>)
      requires Good(world) && w in world.uploads && world.uploads[w].phase.CommitUnknown? && OthersThanClient(w)
      requires world.uploads[w].files == FileSet(files)
      modifies this
      ensures Good(world) && w in world.uploads && world.uploads[w].files == FileSet(files) && turn == old(turn) + 1
      ensures !fails(old(turn)) && !world.uploads[w].tx.Open? ==> LeftToRecovery(world, w, files)
    {
      var preserved := Attempt(UpsertUncertain(w), w);
      ghost var mid := Run(old(world), others(old(turn)));
      if !mid.uploads[w].tx.Open? { ClosedIsUnlocked(mid, w); }
    }

    // -------------------------------------------------------------------------
    // The dispatcher

    // The row cannot be taken from its owner.
    ghost predicate Secure(s: World, from: nat, to: nat, t: nat) {
      TaskOwns(s, t) && Undisputed(from, to, s.tasks[t].file, s.tasks[t].writer)
    }

    // How statements of a recovery went that were to go on (or not) afterwards. If the
    // row cannot be taken and nothing fails, they go on; if the others do nothing,
    // nothing else changes, and an owner that stops has put its row back.
    ghost predicate Fared(from: nat, to: nat, s: World, n: World, t: nat, ok: bool) {
      && from <= to && t in s.tasks && t in n.tasks && n.tasks[t] == s.tasks[t].(progress := n.tasks[t].progress)
      && (Secure(s, from, to, t) ==>
            && (NoFails(from, to) && NoUnsafe(from, to) ==> ok)
            && (ok ==> if n.tasks[t].progress.Ended? then n.tasks[t].file !in n.intents else TaskOwns(n, t)))
      && (Alone(from, to) ==> Solo(s, n, t) && (TaskOwns(n, t) ==> TaskOwns(s, t)))
      && (Alone(from, to) && TaskOwns(s, t) && !ok ==> PutBack(from, to, s, n, s.tasks[t].file))
    }

    // A failed statement backs the row off, unless backing off fails too; an unsafe
    // path rejects it.
    ghost predicate PutBack(from: nat, to: nat, s: World, n: World, f: File) {
      && from < to
      && (!fails(to - 1) ==> BackedOff(s, n, f) || (TurnedDown(s, n, f) && !NoUnsafe(from, to)))
      && (NoFails(from, to) ==> TurnedDown(s, n, f))
    }

    lemma FaredOn(from: nat, mid: nat, to: nat, s: World, m: World, n: World, t: nat, ok: bool)
      requires Fared(from, mid, s, m, t, true) && Fared(mid, to, m, n, t, ok) && !m.tasks[t].progress.Ended?
      ensures Fared(from, to, s, n, t, ok)
    {
      if Secure(s, from, to, t) { assert Secure(m, mid, to, t); }
      if Alone(from, to) {
        SoloOn(s, m, n, t);
        if TaskOwns(s, t) {
          AloneIsSecure(from, mid, s, t);
          TurnedDownSolo(s, m, n, t);
        }
      }
    }

    lemma AloneIsSecure(from: nat, to: nat, s: World, t: nat)
      requires Alone(from, to) && TaskOwns(s, t)
      ensures Secure(s, from, to, t)
    {}

    // The others' turn before a statement.
    lemma TurnFares(i: nat, s: World, t: nat)
      requires Good(s) && t in s.tasks && OthersThanTask(t) && !s.tasks[t].progress.Ended?
      ensures Fared(i, i + 1, s, Run(s, others(i)), t, true)
      ensures t in Run(s, others(i)).tasks && Run(s, others(i)).tasks[t] == s.tasks[t]
      ensures TaskOwns(s, t) && Secure(s, i, i + 1, t) ==> TaskOwns(Run(s, others(i)), t)
    {
      var now := others(i);
      OthersLeaveTask(s, now, t);
      if Secure(s, i, i + 1, t) { RunKeepsOwner(s, now, t); }
      if Alone(i, i + 1) { assert now == [] && Run(s, now) == s; }
    }

    // A statement of the recovery itself.
    lemma OwnFares(i: nat, s: World, a: Action, t: nat)
      requires Good(s) && t in s.tasks && TaskAction(a, t) && Ours(s.tasks[t].progress, a) && Enabled(s, a)
      ensures Fared(i, i, s, Next(s, a), t, true)
    {
      ActsSolo(s, a, t);
      TaskActs(s, a, t);
      if TaskOwns(s, t) { OursWorks(s, a, t); }
    }

    // One statement of a dispatcher's task.
    method AttemptTask(a: Action, t: nat, ghost start: World) returns (ok: bool)
      requires Good(world) && t in world.tasks && TaskAction(a, t) && !a.ClaimRow? && OthersThanTask(t)
      requires FileOnward(start, world, world.tasks[t])
      modifies this
      ensures Good(world) && t in world.tasks && FileOnward(start, world, old(world).tasks[t])
      ensures FileOnward(old(world), world, old(world).tasks[t])
      ensures ok ==> Acted(old(world).tasks[t], world, t, a)
      ensures !ok ==> world.tasks[t] == old(world).tasks[t]
      ensures turn == old(turn) + 1
      ensures var mid := Run(old(world), others(old(turn)));
        (ok <==> !fails(old(turn)) && Enabled(mid, a)) && world == if ok then Next(mid, a) else mid
    {
      ghost var k := world.tasks[t];
      ok := !fails(turn);
      YieldTask(t);
      ok := ok && Enabled(world, a);
      ghost var mid := world;
      if ok {
        TaskFile(world, t);
        TaskActs(world, a, t);
        StepOnward(world, a, k.writer, k.file);
        Do(a);
        OnwardOn(old(world), mid, world, k.writer, k.file);
      }
      OnwardOn(start, old(world), world, k.writer, k.file);
    }

    // One of the recovery's own statements; a failure ends in the catch block.
    method Statement(a: Action, t: nat, ghost start: World) returns (ok: bool)
      requires Good(world) && t in world.tasks && TaskAction(a, t) && OthersThanTask(t)
      requires Ours(world.tasks[t].progress, a) && FileOnward(start, world, world.tasks[t])
      modifies this
      ensures Good(world) && t in world.tasks && FileOnward(start, world, old(world).tasks[t])
      ensures FileOnward(old(world), world, old(world).tasks[t])
      ensures if ok then Acted(old(world).tasks[t], world, t, a) else world.tasks[t].progress.Ended?
      ensures Fared(old(turn), turn, old(world), world, t, ok) && (ok ==> turn == old(turn) + 1)
      ensures ok && world.tasks[t].progress.Ended? && !a.FencedDelete? ==> !Secure(old(world), old(turn), turn, t)
    {
      ghost var first, s := turn, world;
      ok := AttemptTask(a, t, start);
      StatementFares(first, s, a, t);
      if !ok { GiveBack(t, start, first, s); }
    }

    // What the turn and the statement do, or why it fails.
    lemma StatementFares(i: nat, s: World, a: Action, t: nat)
      requires Good(s) && t in s.tasks && TaskAction(a, t) && Ours(s.tasks[t].progress, a) && OthersThanTask(t)
      ensures var mid := Run(s, others(i));
        && (Enabled(mid, a) ==> Fared(i, i + 1, s, Next(mid, a), t, true))
        && (Enabled(mid, a) && Secure(s, i, i + 1, t) && !a.FencedDelete? ==> !Next(mid, a).tasks[t].progress.Ended?)
        && (!Enabled(mid, a) ==> !TaskOwns(mid, t))
    {
      var mid := Run(s, others(i));
      TurnFares(i, s, t);
      RunKeepsGood(s, others(i));
      if Enabled(mid, a) {
        OwnFares(i + 1, mid, a, t);
        FaredOn(i, i + 1, i + 1, s, mid, Next(mid, a), t, true);
        if TaskOwns(mid, t) { OursWorks(mid, a, t); }
      } else if TaskOwns(mid, t) {
        OursWorks(mid, a, t);
      }
    }

    // The catch block after the statement at turn i failed.
    method GiveBack(t: nat, ghost start: World, ghost i: nat, ghost s: World)
      requires Good(world) && t in world.tasks && !world.tasks[t].progress.Ended? && OthersThanTask(t)
      requires FileOnward(start, world, world.tasks[t]) && FileOnward(s, world, world.tasks[t])
      requires Good(s) && t in s.tasks && s.tasks[t] == world.tasks[t] && world == Run(s, others(i)) && turn == i + 1
      requires TaskOwns(world, t) ==> fails(i)
      modifies this
      ensures Good(world) && t in world.tasks && world.tasks[t].progress.Ended?
      ensures FileOnward(start, world, s.tasks[t]) && FileOnward(s, world, s.tasks[t])
      ensures Fared(i, turn, s, world, t, false)
    {
      ghost var m := world;
      BackOffTask(t, start);
      FailureFares(i, s, m, world, t);
      OnwardOn(s, m, world, s.tasks[t].writer, s.tasks[t].file);
    }

    // A failed statement and the back-off after it.
    lemma FailureFares(i: nat, s: World, m: World, n: World, t: nat)
      requires Good(s) && t in s.tasks && !s.tasks[t].progress.Ended? && OthersThanTask(t) && m == Run(s, others(i))
      requires TaskOwns(m, t) ==> fails(i)
      requires BackOffDone(i + 1, m, n, t)
      ensures Fared(i, i + 2, s, n, t, false)
    {
      TurnFares(i, s, t);
      if Secure(s, i, i + 2, t) { assert Secure(s, i, i + 1, t); }
      if Alone(i, i + 2) {
        assert Alone(i, i + 1);
        SoloOn(s, m, n, t);
        if TaskOwns(s, t) { TurnedDownSolo(s, m, n, t); }
      }
    }

    // The back-off at turn i, from m to n.
    ghost predicate BackOffDone(i: nat, m: World, n: World, t: nat) {
      && t in m.tasks && t in n.tasks && n.tasks[t] == m.tasks[t].(progress := Ended)
      && (Alone(i, i + 1) ==> Solo(m, n, t) && (TaskOwns(n, t) ==> TaskOwns(m, t)))
      && (Alone(i, i + 1) && TaskOwns(m, t) && !fails(i) ==> BackedOff(m, n, m.tasks[t].file))
    }

    // The catch block: back the intent off, or leave it to its lease.
    method BackOffTask(t: nat, ghost start: World)
      requires Good(world) && t in world.tasks && !world.tasks[t].progress.Ended? && OthersThanTask(t)
      requires FileOnward(start, world, world.tasks[t])
      modifies this
      ensures Good(world) && turn == old(turn) + 1 && BackOffDone(old(turn), old(world), world, t)
      ensures FileOnward(start, world, old(world).tasks[t]) && FileOnward(old(world), world, old(world).tasks[t])
    {
      ghost var k, m := world.tasks[t], world;
      var attempts := if TaskOwns(world, t) then world.intents[world.tasks[t].file].attempts else 0;
      var delay := RetryDelay(attempts + 1) * SECOND;
      if TaskOwns(m, t) { BackOffWorks(m, t, delay); }
      var ok := AttemptTask(BackOff(t, delay), t, start);
      ghost var mid := Run(m, others(old(turn)));
      if ok { ActsSolo(mid, BackOff(t, delay), t); }
      if !ok { LeaveTask(t, start, m); }
    }

    // The process gives up; the row is left to its lease.
    method LeaveTask(t: nat, ghost start: World, ghost m: World)
      requires Good(world) && t in world.tasks && FileOnward(start, world, world.tasks[t]) && FileOnward(m, world, world.tasks[t])
      modifies this`world
      ensures Good(world) && t in world.tasks && world.tasks[t] == old(world).tasks[t].(progress := Ended)
      ensures Solo(old(world), world, t) && (TaskOwns(world, t) ==> TaskOwns(old(world), t))
      ensures FileOnward(start, world, old(world).tasks[t]) && FileOnward(m, world, old(world).tasks[t])
    {
      ghost var before, k := world, world.tasks[t];
      ActsSolo(world, EndTask(t), t);
      TaskFile(world, t);
      StepOnward(world, EndTask(t), k.writer, k.file);
      Do(EndTask(t));
      OnwardOn(start, before, world, k.writer, k.file);
      OnwardOn(m, before, world, k.writer, k.file);
    }

    // An unsafe path: the intent is rejected for good.
    method Reject(t: nat, ghost start: World)
      requires Good(world) && t in world.tasks && OthersThanTask(t) && FileOnward(start, world, world.tasks[t])
      requires world.tasks[t].progress.Cleaning? || world.tasks[t].progress.MayUnlink?
      modifies this
      ensures Good(world) && t in world.tasks && world.tasks[t].progress.Ended?
      ensures FileOnward(start, world, old(world).tasks[t])
      ensures RejectDone(old(turn), turn, old(world), world, t)
    {
      ghost var m := world;
      var rejected := AttemptReject(t, start);
      if !rejected {
        ghost var mid := world;
        BackOffTask(t, start);
        RejectionFails(old(turn), m, mid, world, t);
      }
    }

    method AttemptReject(t: nat, ghost start: World) returns (rejected: bool)
      requires Good(world) && t in world.tasks && OthersThanTask(t) && FileOnward(start, world, world.tasks[t])
      requires world.tasks[t].progress.Cleaning? || world.tasks[t].progress.MayUnlink?
      modifies this
      ensures Good(world) && t in world.tasks && FileOnward(start, world, old(world).tasks[t]) && turn == old(turn) + 1
      ensures if rejected then RejectDone(old(turn), turn, old(world), world, t)
        else world == Run(old(world), others(old(turn))) && world.tasks[t] == old(world).tasks[t]
             && (TaskOwns(world, t) ==> fails(old(turn)))
    {
      ghost var m := world;
      rejected := AttemptTask(RejectUnsafe(t), t, start);
      ghost var mid := Run(m, others(old(turn)));
      if rejected {
        ActsSolo(mid, RejectUnsafe(t), t);
        if TaskOwns(m, t) { RejectWorks(m, t); }
      } else if TaskOwns(world, t) {
        RejectWorks(world, t);
      }
    }

    lemma RejectionFails(i: nat, m: World, mid: World, n: World, t: nat)
      requires t in m.tasks && t in mid.tasks && mid.tasks[t] == m.tasks[t] && mid == Run(m, others(i))
      requires BackOffDone(i + 1, mid, n, t) && (TaskOwns(mid, t) ==> fails(i))
      ensures RejectDone(i, i + 2, m, n, t)
    {
      if Alone(i, i + 2) { assert Run(m, others(i)) == m; }
    }

    ghost predicate RejectDone(from: nat, to: nat, m: World, n: World, t: nat) {
      && from < to && t in m.tasks && t in n.tasks && n.tasks[t] == m.tasks[t].(progress := Ended)
      && (Alone(from, to) ==> Solo(m, n, t) && (TaskOwns(n, t) ==> TaskOwns(m, t)))
      && (Alone(from, to) && TaskOwns(m, t) ==>
            && (!fails(to - 1) ==> BackedOff(m, n, m.tasks[t].file) || TurnedDown(m, n, m.tasks[t].file))
            && (NoFails(from, to) ==> TurnedDown(m, n, m.tasks[t].file)))
    }

    // Statements that went well but found a path unsafe, and the rejection.
    lemma RejectionFares(from: nat, mid: nat, to: nat, s: World, m: World, n: World, t: nat)
      requires Fared(from, mid, s, m, t, true) && RejectDone(mid, to, m, n, t) && !NoUnsafe(from, mid)
      requires !m.tasks[t].progress.Ended? && n.tasks[t].progress.Ended?
      ensures Fared(from, to, s, n, t, false)
    {
      if Alone(from, to) {
        SoloOn(s, m, n, t);
        if TaskOwns(s, t) {
          AloneIsSecure(from, mid, s, t);
          TurnedDownSolo(s, m, n, t);
        }
      }
    }

    // The lease was lost.
    lemma LostFares(from: nat, to: nat, s: World, n: World, t: nat)
      requires Fared(from, to, s, n, t, true) && !Secure(s, from, to, t)
      ensures Fared(from, to, s, n, t, false)
    {
      if Alone(from, to) && TaskOwns(s, t) { AloneIsSecure(from, to, s, t); }
    }

    // Both paths are inspected at once, in either order.
    method InspectBoth(t: nat, ghost start: World) returns (ok: bool, danger: bool)
      requires Good(world) && t in world.tasks && world.tasks[t].progress == Inspecting({}, {}) && OthersThanTask(t)
      requires FileOnward(start, world, world.tasks[t])
      modifies this
      ensures Good(world) && t in world.tasks
      ensures if ok then Inspected(start, world, t, old(world).tasks[t]) else world.tasks[t].progress.Ended?
      ensures Fared(old(turn), turn, old(world), world, t, ok)
      ensures ok ==> (danger <==> !NoUnsafe(old(turn), turn))
    {
      ghost var k, s, i := world.tasks[t], world, turn;
      var quarantineFirst: bool := *;
      var first := if quarantineFirst then Quarantine else Destination;
      danger := unsafe(turn);
      ok := Statement(Inspect(t, first), t, start);
      if !ok { return; }
      ghost var mid, half := world, turn;
      OneInspected(k, mid, t, first);
      ok, danger := InspectSecond(t, start, first, danger);
      FaredOn(i, half, turn, s, mid, world, t, ok);
      if ok {
        BothInspected(start, mid, world, t, k, first);
        TwoTurns(i);
      }
    }

    lemma TwoTurns(i: nat)
      ensures NoUnsafe(i, i + 2) <==> !unsafe(i) && !unsafe(i + 1)
    {
      if !unsafe(i) && !unsafe(i + 1) {
        forall j: nat | i <= j < i + 2 ensures !unsafe(j) { assert j == i || j == i + 1; }
      }
    }

    method InspectSecond(t: nat, ghost start: World, first: Place, found: bool) returns (ok: bool, danger: bool)
      requires Good(world) && t in world.tasks && OthersThanTask(t) && FileOnward(start, world, world.tasks[t])
      requires world.tasks[t].progress.Inspecting? && world.tasks[t].progress.looked == {first}
      modifies this
      ensures Good(world) && t in world.tasks && FileOnward(start, world, old(world).tasks[t])
      ensures FileOnward(old(world), world, old(world).tasks[t])
      ensures if ok then Acted(old(world).tasks[t], world, t, Inspect(t, OtherPlace(first))) else world.tasks[t].progress.Ended?
      ensures Fared(old(turn), turn, old(world), world, t, ok)
      ensures ok ==> turn == old(turn) + 1 && danger == (found || unsafe(old(turn)))
    {
      danger := found || unsafe(turn);
      ok := Statement(Inspect(t, OtherPlace(first)), t, start);
    }

    // One turn of the loop of cleanupUncommittedMove: recovery ends if the path is
    // unsafe, the lease is lost or a statement fails.
    method CleanPath(t: nat, ghost start: World) returns (more: bool)
      requires Good(world) && t in world.tasks && world.tasks[t].progress.Cleaning? && OthersThanTask(t)
      requires FileOnward(start, world, world.tasks[t]) && UnseenIsHandled(start, world, world.tasks[t])
      modifies this
      ensures Good(world) && t in world.tasks
      ensures if more then PathDone(start, old(world), world, t, old(world).tasks[t]) else world.tasks[t].progress.Ended?
      ensures Fared(old(turn), turn, old(world), world, t, more)
    {
      ghost var k, s, i := world.tasks[t], world, turn;
      if world.tasks[t].progress.place !in world.tasks[t].progress.seen {
        SkipIsDone(start, world, t, k);
        OwnFares(turn, world, SkipPath(t), t);
        Do(SkipPath(t));
        return true;
      }
      more := Statement(RenewForUnlink(t), t, start);
      if !more { return; }
      if world.tasks[t].progress.Ended? {
        LostFares(i, turn, s, world, t);
        return false;
      }
      ghost var mid, half := world, turn;
      more := UnlinkPath(t, start, k);
      FaredOn(i, half, turn, s, mid, world, t, more);
      if more { OnwardOn(s, mid, world, k.writer, k.file); }
    }

    // The path is inspected again under the renewed lease, and unlinked if present.
    method UnlinkPath(t: nat, ghost start: World, ghost k: Task) returns (more: bool)
      requires Good(world) && t in world.tasks && k.progress.Cleaning? && FileOnward(start, world, k) && OthersThanTask(t)
      requires world.tasks[t] == k.(progress := MayUnlink(k.progress.place, k.progress.seen))
      modifies this
      ensures Good(world) && t in world.tasks
      ensures if more then PathDone(start, old(world), world, t, k) else world.tasks[t].progress.Ended?
      ensures Fared(old(turn), turn, old(world), world, t, more)
    {
      ghost var s, i := world, turn;
      var failed, danger := fails(turn), unsafe(turn);
      YieldTask(t);
      ghost var mid, half := world, turn;
      TurnFares(i, s, t);
      OnwardOn(start, s, mid, k.writer, k.file);
      if failed {
        GiveBack(t, start, i, s);
        return false;
      }
      if danger {
        Reject(t, start);
        RejectionFares(i, half, turn, s, mid, world, t);
        return false;
      }
      more := UnlinkFound(t, start, k);
      FaredOn(i, half, turn, s, mid, world, t, more);
      if more { OnwardOn(s, mid, world, k.writer, k.file); }
    }

    method UnlinkFound(t: nat, ghost start: World, ghost k: Task) returns (more: bool)
      requires Good(world) && t in world.tasks && k.progress.Cleaning? && FileOnward(start, world, k) && OthersThanTask(t)
      requires world.tasks[t] == k.(progress := MayUnlink(k.progress.place, k.progress.seen))
      modifies this
      ensures Good(world) && t in world.tasks
      ensures if more then PathDone(start, old(world), world, t, k) else world.tasks[t].progress.Ended?
      ensures Fared(old(turn), turn, old(world), world, t, more)
    {
      if Present(world, world.tasks[t].file, world.tasks[t].progress.path) {
        more := Statement(Unlink(t), t, start);
      } else {
        MissingIsSkipped(turn, start, world, t, k);
        Do(SkipPath(t));
        more := true;
      }
    }

    lemma MissingIsSkipped(i: nat, start: World, s: World, t: nat, k: Task)
      requires Good(s) && t in s.tasks && k.progress.Cleaning? && FileOnward(start, s, k)
      requires s.tasks[t] == k.(progress := MayUnlink(k.progress.place, k.progress.seen))
      requires !Present(s, k.file, k.progress.place)
      ensures Enabled(s, SkipPath(t)) && PathDone(start, s, Next(s, SkipPath(t)), t, k)
      ensures Fared(i, i, s, Next(s, SkipPath(t)), t, true)
    {
      TaskFile(s, t);
      ActsSolo(s, SkipPath(t), t);
    }

    // fencedDelete, and whether the row is gone: another owner's stays.
    method DeleteIntent(t: nat, ghost start: World) returns (deleted: bool)
      requires Good(world) && t in world.tasks && world.tasks[t].progress.MayDelete? && OthersThanTask(t)
      requires FileOnward(start, world, world.tasks[t])
      modifies this
      ensures Good(world) && t in world.tasks && world.tasks[t].progress.Ended?
      ensures deleted ==> var k := old(world).tasks[t];
        k.file !in world.intents && FileOnward(start, world, k) && FileOnward(old(world), world, k)
      ensures Fared(old(turn), turn, old(world), world, t, deleted)
    {
      ghost var s, i := world, turn;
      deleted := Statement(FencedDelete(t), t, start);
      if !deleted { return; }
      deleted := world.tasks[t].file !in world.intents;
      if !deleted { LostFares(i, turn, s, world, t); }
    }

    // cleanupUncommittedMove
    method CleanUpMove(t: nat, ghost start: World) returns (finished: bool)
      requires Good(world) && t in world.tasks && world.tasks[t].progress == Inspecting({}, {}) && OthersThanTask(t)
      requires FileOnward(start, world, world.tasks[t])
      modifies this
      ensures Good(world) && t in world.tasks && world.tasks[t].progress.Ended?
      ensures finished ==> Recovered(start, world, old(world).tasks[t])
      ensures Fared(old(turn), turn, old(world), world, t, finished)
    {
      ghost var s, i, k := world, turn, world.tasks[t];
      var ok, danger := InspectBoth(t, start);
      if !ok { return false; }
      ghost var inspected, half := world, turn;
      if danger {
        Reject(t, start);
        RejectionFares(i, half, turn, s, inspected, world, t);
        return false;
      }
      finished := CleanPaths(t, start, k);
      FaredOn(i, half, turn, s, inspected, world, t, finished);
    }

    method CleanPaths(t: nat, ghost start: World, ghost k: Task) returns (finished: bool)
      requires Good(world) && t in world.tasks && Inspected(start, world, t, k) && OthersThanTask(t)
      modifies this
      ensures Good(world) && t in world.tasks && world.tasks[t].progress.Ended?
      ensures finished ==> Recovered(start, world, k)
      ensures Fared(old(turn), turn, old(world), world, t, finished)
    {
      ghost var s, i := world, turn;
      finished := CleanPath(t, start);
      if !finished { return; }
      ghost var half, j := world, turn;
      FirstPathDone(start, s, half, t, k);
      finished := CleanPath(t, start);
      FaredOn(i, j, turn, s, half, world, t, finished);
      if !finished { return; }
      ghost var cleaned, m := world, turn;
      BothPathsDone(start, half, cleaned, t, k);
      finished := DeleteIntent(t, start);
      FaredOn(i, m, turn, s, cleaned, world, t, finished);
      if finished { CleanedIsRecovered(start, cleaned, world, k); }
    }

    // What the facts say: finish the deletion, or clean up first.
    method Settle(t: nat, ghost start: World) returns (finished: bool)
      requires Good(world) && t in world.tasks && FileOnward(start, world, world.tasks[t]) && OthersThanTask(t)
      requires (world.tasks[t].progress.MayDelete? && world.tasks[t].file in world.sources)
        || world.tasks[t].progress == Inspecting({}, {})
      modifies this
      ensures Good(world) && t in world.tasks && world.tasks[t].progress.Ended?
      ensures finished ==> Recovered(start, world, old(world).tasks[t])
      ensures Fared(old(turn), turn, old(world), world, t, finished)
    {
      ghost var facts, k := world, world.tasks[t];
      if world.tasks[t].progress.Inspecting? {
        finished := CleanUpMove(t, start);
        return;
      }
      finished := DeleteIntent(t, start);
      if finished { CommittedIsRecovered(start, facts, world, k); }
    }

    // One claimed intent of dispatchClaimed, from renewal to its end. If its owner's
    // lease holds and nothing fails, nothing is left to recover, unless at the claim
    // the writer could still rename the file. If nobody else does anything, just the
    // intent and what is on disk of an uncommitted file are gone, or the intent is
    // put back.
    method Recover(t: nat) returns (finished: bool)
      requires Good(world) && t in world.tasks && world.tasks[t].progress.Claimed? && OthersThanTask(t)
      modifies this
      ensures Good(world) && t in world.tasks && world.tasks[t].progress.Ended?
      ensures finished ==> var k := old(world).tasks[t];
        && k.writer in old(world).uploads && k.file !in world.intents && k.file !in world.quarantine
        && (k.file in world.destination ==> k.file in world.sources || CanRename(old(world), k.writer, k.file))
      ensures finished ==> Recovered(old(world), world, old(world).tasks[t])
      ensures Secure(old(world), old(turn), turn, t) && NoFails(old(turn), turn) && NoUnsafe(old(turn), turn) ==> finished
      ensures Alone(old(turn), turn) && finished ==> world == Settled(old(world), t)
      ensures Alone(old(turn), turn) && TaskOwns(old(world), t) && !finished ==>
        PutBack(old(turn), turn, old(world), world, old(world).tasks[t].file)
    {
      ghost var start, i := world, turn;
      TaskFile(world, t);
      finished := Statement(RenewTask(t), t, start);
      if !finished { return; }
      if world.tasks[t].progress.Ended? {
        LostFares(i, turn, start, world, t);
        return false;
      }
      ghost var renewed, j := world, turn;
      finished := ReadAndSettle(t, start);
      FaredOn(i, j, turn, start, renewed, world, t, finished);
      if Alone(i, turn) && finished { SoloRecovery(start, world, t); }
    }

    method ReadAndSettle(t: nat, ghost start: World) returns (finished: bool)
      requires Good(world) && t in world.tasks && world.tasks[t].progress.Renewed? && OthersThanTask(t)
      requires FileOnward(start, world, world.tasks[t])
      modifies this
      ensures Good(world) && t in world.tasks && world.tasks[t].progress.Ended?
      ensures finished ==> Recovered(start, world, old(world).tasks[t])
      ensures Fared(old(turn), turn, old(world), world, t, finished)
    {
      ghost var s, i := world, turn;
      finished := Statement(ReadFacts(t), t, start);
      if !finished { return; }
      assert TaskOk(world, t);
      ghost var read, j := world, turn;
      finished := Settle(t, start);
      FaredOn(i, j, turn, s, read, world, t, finished);
    }
  }

  // ---------------------------------------------------------------------------
  // Left alone, a recovery that owns its row comes to its end and deletes it

  function NextAction(p: Progress, t: nat): Action
    requires !p.Ended? && !p.Partial?
  {
    match p
    case Claimed => RenewTask(t)
    case Renewed => ReadFacts(t)
    case Inspecting(looked, _) => Inspect(t, if Quarantine in looked then Destination else Quarantine)
    case Cleaning(place, seen) => if place in seen then RenewForUnlink(t) else SkipPath(t)
    case MayUnlink(_, _) => Unlink(t)
    case MayDelete => FencedDelete(t)
  }

  function StepsLeft(p: Progress): nat {
    match p
    case Claimed => 9
    case Renewed => 8
    case Inspecting(looked, _) => if Quarantine in looked then 6 else 7
    case Cleaning(place, _) => if place.Quarantine? then 5 else 3
    case MayUnlink(path, _) => if path.Quarantine? then 4 else 2
    case MayDelete => 1
    case _ => 0
  }

  lemma NextIsEnabled(s: World, t: nat)
    requires TaskOwns(s, t) && TaskOk(s, t) && Unlocked(s, s.tasks[t].file) && !s.tasks[t].progress.Ended?
    ensures Enabled(s, NextAction(s.tasks[t].progress, t))
  {}

  lemma UndisturbedStep(s: World, t: nat, a: Action)
    requires TaskOwns(s, t) && !s.tasks[t].progress.Ended? && !s.tasks[t].progress.Partial?
    requires a == NextAction(s.tasks[t].progress, t) && Enabled(s, a) && !NextTask(s, a).tasks[t].progress.Partial?
    ensures t in NextTask(s, a).tasks && NextTask(s, a).tasks[t].file == s.tasks[t].file
    ensures StepsLeft(NextTask(s, a).tasks[t].progress) < StepsLeft(s.tasks[t].progress)
  {}

  lemma UndisturbedRow(s: World, t: nat, a: Action)
    requires TaskOwns(s, t) && !s.tasks[t].progress.Ended? && !s.tasks[t].progress.Partial?
    requires a == NextAction(s.tasks[t].progress, t) && Enabled(s, a) && !NextTask(s, a).tasks[t].progress.Partial?
    ensures if NextTask(s, a).tasks[t].progress.Ended? then s.tasks[t].file !in NextTask(s, a).intents else TaskOwns(NextTask(s, a), t)
  {
    match s.tasks[t].progress {
      case Claimed => RenewalKeepsOwner(s, t, Renewed);
      case Cleaning(place, seen) => if place in seen { RenewalKeepsOwner(s, t, MayUnlink(place, seen)); }
      case _ =>
    }
  }

  lemma RenewalKeepsOwner(s: World, t: nat, p: Progress)
    requires TaskOwns(s, t)
    ensures TaskOwns(Renewal(s, t, p), t) && Renewal(s, t, p).tasks[t].progress == p
  {}

  lemma {:induction false} UndisturbedRecovery(s: World, t: nat) returns (actions: seq<Action>)
    requires Inv(s) && TaskOwns(s, t) && !s.tasks[t].progress.Ended?
    ensures forall a | a in actions :: TaskAction(a, t)
    ensures s.tasks[t].file !in Run(s, actions).intents
    ensures t in Run(s, actions).tasks && Run(s, actions).tasks[t].progress.Ended?
    decreases StepsLeft(s.tasks[t].progress)
  {
    OwnedIsUnlocked(s, t);
    var a := NextAction(s.tasks[t].progress, t);
    NextIsEnabled(s, t);
    var n := Next(s, a);
    StepKeepsInv(s, a);
    assert TaskOk(n, t);
    UndisturbedStep(s, t, a);
    UndisturbedRow(s, t, a);
    var rest := [];
    if !n.tasks[t].progress.Ended? { rest := UndisturbedRecovery(n, t); }
    actions := [a] + rest;
    assert actions[1..] == rest;
  }
}
