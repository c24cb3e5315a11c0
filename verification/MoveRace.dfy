/** The one thing a recovery can miss: a rename between its two inspections. It is
    possible exactly when the writer may still rename the file at the claim. */
module MoveRace {
  import opened Options
  import opened MoveRecovery
  import opened MoveSafety
  import opened MovePaths

  // A file at its destination that is neither registered nor recorded.
  predicate Orphan(s: World, f: File) {
    f in s.destination && f !in s.sources && f !in s.intents
  }

  // ---------------------------------------------------------------------------
  // Without a rename, what a recovery has seen stays true

  // What the owner of a row relies on: a destination it found empty is empty, and
  // the row may go only when nothing but a registered file is there.
  predicate Informed(s: World, k: Task) {
    var empty := k.file !in s.destination;
    match k.progress
    case Inspecting(looked, found) => Destination in looked && Destination !in found ==> empty
    case Cleaning(_, seen) => Destination !in seen ==> empty
    case MayUnlink(path, seen) => Destination in seen || empty
    case MayDelete => empty || k.file in s.sources
    case _ => true
  }

  ghost predicate OwnersInformed(s: World, f: File) {
    forall t | t in s.tasks && s.tasks[t].file == f && TaskOwns(s, t) :: Informed(s, s.tasks[t])
  }

  // The row is no longer the writer's, and so it never will be again.
  ghost predicate Lapsed(s: World, w: nat, f: File) {
    && w in s.uploads && f in s.uploads[w].inserted && f !in s.locks
    && forall x :: !WriterOwns(s, x, f)
  }

  ghost predicate Settled(s: World, w: nat, f: File) {
    Lapsed(s, w, f) && !CanRename(s, w, f) && OwnersInformed(s, f) && !Orphan(s, f)
  }

  // A writer's action keeps the row of such a file; at most it takes it from its owner.
  ghost predicate RowStays(s: World, n: World, f: File) {
    && f !in n.locks
    && (f in s.intents ==> f in n.intents)
    && (f in n.intents ==> n.intents[f].owner.None? || (f in s.intents && n.intents[f].owner == s.intents[f].owner))
  }

  lemma OtherUploadRow(s: World, n: World, x: nat, w: nat, f: File)
    requires OnlyUpload(s, n, x) && OneWriter(n) && x != w && w in s.uploads && f in s.uploads[w].files && f !in s.locks
    ensures RowStays(s, n, f)
  {
    assert f !in n.uploads[x].files ==> Untouched(s, n, f);
  }

  lemma OwnUploadRow(s: World, a: Action, n: World, f: File)
    requires Inv(s) && Enabled(s, a) && RewritesRows(a) && !a.Begin? && Lapsed(s, a.w, f) && n == NextWriter(s, a)
    ensures RowStays(s, n, f)
  {}

  lemma WriterRow(s: World, a: Action, n: World, w: nat, f: File)
    requires Good(s) && Enabled(s, a) && ByWriter(a) && n == Next(s, a) && Lapsed(s, w, f)
    ensures RowStays(s, n, f) && n.tasks == s.tasks
  {
    assert UploadOk(s, w);
    if RewritesRows(a) {
      RowStepFrames(s, a, n);
      if a.w == w { OwnUploadRow(s, a, n, f); } else { OtherUploadRow(s, n, a.w, w, f); }
    } else {
      ViewStepFrames(s, a, n);
      ViewKeepsRows(s, a);
    }
  }

  lemma ViewKeepsRows(s: World, a: Action)
    requires Enabled(s, a) && ByWriter(a) && !RewritesRows(a)
    ensures NextWriter(s, a).intents == s.intents && NextWriter(s, a).locks == s.locks
  {}

  lemma StaysInformed(s: World, n: World, k: Task)
    requires Informed(s, k) && (k.file in n.destination ==> k.file in s.destination)
    requires k.file in n.destination && k.file in s.sources ==> k.file in n.sources
    ensures Informed(n, k)
  {}

  lemma WriterKeepsSettled(s: World, a: Action, n: World, w: nat, f: File)
    requires Good(s) && Enabled(s, a) && ByWriter(a) && n == Next(s, a) && Settled(s, w, f)
    ensures Settled(n, w, f)
  {
    assert UploadOk(s, w);
    StepOnward(s, a, w, f);
    WriterRow(s, a, n, w, f);
    SourcesGrowByCommit(s, a);
    if RewritesRows(a) { RowStepFrames(s, a, n); } else { ViewStepFrames(s, a, n); }
    forall x ensures !WriterOwns(n, x, f) {
      if WriterOwns(n, x, f) { assert IntentOk(s, f) && WriterOwns(s, x, f); }
    }
    forall t | t in n.tasks && n.tasks[t].file == f && TaskOwns(n, t) ensures Informed(n, n.tasks[t]) {
      assert TaskOwns(s, t);
      StaysInformed(s, n, s.tasks[t]);
    }
  }

  // A dispatcher's action, or a user's or the clock's: rows of other tasks' files
  // stay, and its own row goes only by its own fenced delete.
  lemma TaskKeepsRows(s: World, a: Action, n: World, f: File)
    requires Enabled(s, a) && !ByWriter(a) && n == NextTask(s, a)
    ensures n.locks == s.locks && n.uploads == s.uploads && n.intents.Keys <= s.intents.Keys
    ensures f in n.intents && n.intents[f].owner.Some? ==>
      n.intents[f].owner == s.intents[f].owner || (a.ClaimRow? && a.file == f && n.intents[f].owner == Some(Dispatcher(a.t)))
    ensures f in s.intents && f !in n.intents ==> a.FencedDelete? && TaskOwns(s, a.t) && s.tasks[a.t].file == f
  {}

  lemma TaskKeepsPaths(s: World, a: Action, n: World, f: File)
    requires Enabled(s, a) && !ByWriter(a) && n == NextTask(s, a)
    ensures f in n.destination ==> f in s.destination && (f in s.sources ==> f in n.sources)
    ensures f in n.sources ==> f in s.sources
  {}

  lemma OtherTasksStay(s: World, a: Action, n: World)
    requires Enabled(s, a) && !ByWriter(a) && n == NextTask(s, a)
    ensures forall t | t in s.tasks && !(TaskAct(a) && a.t == t) :: t in n.tasks && n.tasks[t] == s.tasks[t]
    ensures forall t | t in n.tasks && t !in s.tasks :: a.ClaimRow? && a.t == t && n.tasks[t].progress.Claimed?
  {}

  predicate TaskAct(a: Action) {
    !ByWriter(a) && !a.UserDelete? && !a.Tick?
  }

  // What the acting task relies on afterwards it has just seen, or saw before.
  lemma ActsInformed(s: World, a: Action, n: World)
    requires Enabled(s, a) && TaskAct(a) && !a.ClaimRow? && n == NextTask(s, a)
    requires Informed(s, s.tasks[a.t]) && s.sources == s.outbox
    ensures a.t in n.tasks && n.tasks[a.t].file == s.tasks[a.t].file && Informed(n, n.tasks[a.t])
  {}

  lemma OwnersStayInformed(s: World, a: Action, n: World, w: nat, f: File, t: nat)
    requires Good(s) && Enabled(s, a) && !ByWriter(a) && n == NextTask(s, a) && Settled(s, w, f)
    requires t in n.tasks && n.tasks[t].file == f && TaskOwns(n, t)
    ensures Informed(n, n.tasks[t])
  {
    TaskKeepsRows(s, a, n, f);
    TaskKeepsPaths(s, a, n, f);
    OtherTasksStay(s, a, n);
    if t in s.tasks {
      if TaskAct(a) && a.t == t {
        ActsKeepOwner(s, a, n);
        ActsInformed(s, a, n);
      } else {
        StaysInformed(s, n, s.tasks[t]);
      }
    }
  }

  lemma ActsKeepOwner(s: World, a: Action, n: World)
    requires Enabled(s, a) && TaskAct(a) && !a.ClaimRow? && n == NextTask(s, a) && TaskOwns(n, a.t)
    ensures TaskOwns(s, a.t) && n.tasks[a.t].file == s.tasks[a.t].file
  {}

  lemma TaskKeepsSettled(s: World, a: Action, n: World, w: nat, f: File)
    requires Good(s) && Enabled(s, a) && !ByWriter(a) && n == Next(s, a) && Settled(s, w, f)
    ensures Settled(n, w, f)
  {
    assert UploadOk(s, w);
    StepOnward(s, a, w, f);
    TaskKeepsRows(s, a, n, f);
    TaskKeepsPaths(s, a, n, f);
    forall x ensures !WriterOwns(n, x, f) {
      if WriterOwns(n, x, f) { assert IntentOk(s, f) && WriterOwns(s, x, f); }
    }
    forall t | t in n.tasks && n.tasks[t].file == f && TaskOwns(n, t) ensures Informed(n, n.tasks[t]) {
      OwnersStayInformed(s, a, n, w, f, t);
    }
    if f in s.intents && f !in n.intents { assert Informed(s, s.tasks[a.t]); }
  }

  lemma {:induction false} RunKeepsSettled(s: World, actions: seq<Action>, w: nat, f: File)
    requires Good(s) && Settled(s, w, f)
    ensures Settled(Run(s, actions), w, f)
    decreases |actions|
  {
    if actions != [] {
      var a, n := actions[0], Next(s, actions[0]);
      if Enabled(s, a) {
        if ByWriter(a) { WriterKeepsSettled(s, a, n, w, f); } else { TaskKeepsSettled(s, a, n, w, f); }
      }
      StepKeepsGood(s, a);
      RunKeepsSettled(n, actions[1..], w, f);
    }
  }

  // A claim is settled as soon as the writer cannot rename any more.
  lemma ClaimIsSettled(s: World, t: nat)
    requires Good(s) && TaskOwns(s, t) && s.tasks[t].progress.Claimed?
    requires s.tasks[t].writer in s.uploads && !CanRename(s, s.tasks[t].writer, s.tasks[t].file)
    ensures Settled(s, s.tasks[t].writer, s.tasks[t].file)
  {
    var f := s.tasks[t].file;
    OwnedIsUnlocked(s, t);
    forall x ensures !WriterOwns(s, x, f) { TaskRow(s, t, x); }
  }

  // ---------------------------------------------------------------------------
  // With one, it can be missed

  // The inspection looks for the destination before the rename and for the
  // quarantine after it, and finds neither.
  function LateRename(t: nat, w: nat, f: File): seq<Action> {
    [RenewTask(t), ReadFacts(t), Inspect(t, Destination), Rename(w, f)]
    + [Inspect(t, Quarantine), SkipPath(t), SkipPath(t), FencedDelete(t)]
  }

  // The recovery is this far, and the rename still ahead or over.
  ghost predicate Racing(s: World, t: nat, k: Task, p: Progress, renamed: bool) {
    && TaskOwns(s, t) && s.tasks[t] == k.(progress := p) && k.file !in s.locks && !k.kind.Rejected?
    && k.writer in s.uploads && s.uploads[k.writer].phase.Working? && k.file in s.uploads[k.writer].inserted
    && k.file !in s.sources && k.file !in s.outbox
    && if renamed then k.file !in s.quarantine && k.file in s.destination
       else k.file in s.quarantine && k.file !in s.destination && k.file !in s.uploads[k.writer].moved
  }

  lemma ReadsNothing(s: World, t: nat, k: Task)
    requires Racing(s, t, k, Claimed, false)
    ensures Racing(Next(s, RenewTask(t)), t, k, Renewed, false)
  {}

  lemma StartsInspecting(s: World, t: nat, k: Task)
    requires Racing(s, t, k, Renewed, false)
    ensures Racing(Next(s, ReadFacts(t)), t, k, Inspecting({}, {}), false)
  {}

  lemma LooksEarly(s: World, t: nat, k: Task)
    requires Racing(s, t, k, Inspecting({}, {}), false)
    ensures Racing(Next(s, Inspect(t, Destination)), t, k, Inspecting({Destination}, {}), false)
  {
    var looked: set<Place> := {} + {Destination};
    assert looked == {Destination} && Quarantine !in looked;
  }

  lemma RenamesLate(s: World, t: nat, k: Task)
    requires Racing(s, t, k, Inspecting({Destination}, {}), false)
    ensures Racing(Next(s, Rename(k.writer, k.file)), t, k, Inspecting({Destination}, {}), true)
  {
    assert Next(s, Rename(k.writer, k.file)) == Renamed(s, k.writer, k.file);
  }

  lemma LooksLate(s: World, t: nat, k: Task)
    requires Racing(s, t, k, Inspecting({Destination}, {}), true)
    ensures Racing(Next(s, Inspect(t, Quarantine)), t, k, Cleaning(Quarantine, {}), true)
  {}

  lemma SkipsBoth(s: World, t: nat, k: Task)
    requires Racing(s, t, k, Cleaning(Quarantine, {}), true)
    ensures Racing(Next(s, SkipPath(t)), t, k, Cleaning(Destination, {}), true)
    ensures Racing(Next(Next(s, SkipPath(t)), SkipPath(t)), t, k, MayDelete, true)
  {}

  lemma Forgets(s: World, t: nat, k: Task)
    requires Racing(s, t, k, MayDelete, true)
    ensures var n := Next(s, FencedDelete(t)); Orphan(n, k.file) && t in n.tasks && n.tasks[t].progress.Ended?
  {}

  lemma {:induction false} RunAppends(s: World, a: seq<Action>, b: seq<Action>)
    ensures Run(s, a + b) == Run(Run(s, a), b)
    decreases |a|
  {
    if a == [] {
      assert a + b == b;
    } else {
      RunAppends(Next(s, a[0]), a[1..], b);
      assert (a + b)[1..] == a[1..] + b;
    }
  }

  lemma RunFour(s: World, a: Action, b: Action, c: Action, d: Action)
    ensures Run(s, [a, b, c, d]) == Next(Next(Next(Next(s, a), b), c), d)
  {
    var actions := [a, b, c, d];
    assert actions[1..] == [b, c, d] && [b, c, d][1..] == [c, d] && [c, d][1..] == [d] && [d][1..] == [];
    assert Run(Next(Next(Next(s, a), b), c), [d]) == Next(Next(Next(Next(s, a), b), c), d);
    assert Run(Next(Next(s, a), b), [c, d]) == Run(Next(Next(Next(s, a), b), c), [d]);
    assert Run(Next(s, a), [b, c, d]) == Run(Next(Next(s, a), b), [c, d]);
  }

  lemma LateRenameIsMissed(s: World, t: nat)
    requires Good(s) && TaskOwns(s, t) && s.tasks[t].progress.Claimed?
    requires s.tasks[t].writer in s.uploads && CanRename(s, s.tasks[t].writer, s.tasks[t].file)
    ensures Missed(Run(s, LateRename(t, s.tasks[t].writer, s.tasks[t].file)), t, s.tasks[t].file)
  {
    var k := s.tasks[t];
    var w, f := k.writer, k.file;
    RaceBegins(s, t);
    ReadsNothing(s, t, k);
    var s2 := Next(Next(s, RenewTask(t)), ReadFacts(t));
    StartsInspecting(Next(s, RenewTask(t)), t, k);
    LooksEarly(s2, t, k);
    var s4 := Next(Next(s2, Inspect(t, Destination)), Rename(w, f));
    RenamesLate(Next(s2, Inspect(t, Destination)), t, k);
    LooksLate(s4, t, k);
    SkipsBoth(Next(s4, Inspect(t, Quarantine)), t, k);
    Forgets(Next(Next(Next(s4, Inspect(t, Quarantine)), SkipPath(t)), SkipPath(t)), t, k);
    RunFour(s, RenewTask(t), ReadFacts(t), Inspect(t, Destination), Rename(w, f));
    RunFour(s4, Inspect(t, Quarantine), SkipPath(t), SkipPath(t), FencedDelete(t));
    RunAppends(s, [RenewTask(t), ReadFacts(t), Inspect(t, Destination), Rename(w, f)],
               [Inspect(t, Quarantine), SkipPath(t), SkipPath(t), FencedDelete(t)]);
  }

  lemma RaceBegins(s: World, t: nat)
    requires Good(s) && TaskOwns(s, t) && s.tasks[t].progress.Claimed?
    requires s.tasks[t].writer in s.uploads && CanRename(s, s.tasks[t].writer, s.tasks[t].file)
    ensures Racing(s, t, s.tasks[t], Claimed, false)
  {
    var w, f := s.tasks[t].writer, s.tasks[t].file;
    OwnedIsUnlocked(s, t);
    assert UploadOk(s, w) && UploadPlaced(s, w) && FilePlaced(s, w, f);
  }

  // ---------------------------------------------------------------------------
  // The exact condition

  // The recovery is over, and the file is left without a row that would bring
  // another.
  predicate Missed(s: World, t: nat, f: File) {
    t in s.tasks && s.tasks[t].progress.Ended? && Orphan(s, f)
  }

  ghost predicate CanBeMissed(s: World, t: nat)
    requires t in s.tasks
  {
    exists actions :: Missed(Run(s, actions), t, s.tasks[t].file)
  }

  // Some run from the claim ends the recovery and leaves the file without an intent
  // exactly when, at the claim, the writer can still rename it.
  lemma CanBeMissedIff(s: World, t: nat)
    requires Good(s) && TaskOwns(s, t) && s.tasks[t].progress.Claimed?
    ensures s.tasks[t].writer in s.uploads
    ensures CanBeMissed(s, t) <==> CanRename(s, s.tasks[t].writer, s.tasks[t].file)
  {
    var w, f := s.tasks[t].writer, s.tasks[t].file;
    assert TaskOk(s, t);
    if CanRename(s, w, f) {
      LateRenameIsMissed(s, t);
    } else {
      ClaimIsSettled(s, t);
      forall actions ensures !Missed(Run(s, actions), t, f) { RunKeepsSettled(s, actions, w, f); }
    }
  }

  // Such a claim is reached: the writer pauses for its lease between recording the
  // intent and the rename.
  lemma PausedWriterCanBeMissed(w: nat, f: File, t: nat)
    ensures var s := Run(START, [Begin(w, {f}), InsertIntent(w, f), Tick(WRITER_LEASE), ClaimRow(t, f, Active)]);
      TaskOwns(s, t) && s.tasks[t].progress.Claimed? && CanBeMissed(s, t)
  {
    var s1 := Next(START, Begin(w, {f}));
    var s2 := Next(s1, InsertIntent(w, f));
    var s3 := Next(s2, Tick(WRITER_LEASE));
    var s := Next(s3, ClaimRow(t, f, Active));
    var actions := [Begin(w, {f}), InsertIntent(w, f), Tick(WRITER_LEASE), ClaimRow(t, f, Active)];
    RunFour(START, Begin(w, {f}), InsertIntent(w, f), Tick(WRITER_LEASE), ClaimRow(t, f, Active));
    ReachableIsGood(actions);
    assert s1.uploads[w] == Upload({f}, {}, {}, {}, Working, Open, false) && f in s1.quarantine;
    assert s2.intents[f].expires == WRITER_LEASE && s2.intents[f].recoverAfter == WRITER_LEASE;
    assert Enabled(s3, ClaimRow(t, f, Active));
    CanBeMissedIff(s, t);
  }
}
