/** What of the others' doing can stop a writer or a dispatcher. A dispatcher loses
    its row only to a claim of the file after its lease, or to the writer's record of
    an uncertain commit; a writer is stopped only by a claim of one of its files or by
    the server rolling its transaction back. */
module MoveCalm {
  import opened Options
  import opened MoveRecovery
  import opened MoveSafety
  import opened MovePaths

  predicate ClientAction(a: Action, w: nat) {
    ByWriter(a) && a.w == w && !a.ServerCommit? && !a.ServerRollback?
  }

  predicate TaskAction(a: Action, t: nat) {
    !ByWriter(a) && !a.UserDelete? && !a.Tick? && a.t == t
  }

  // Everything but the server's verdict on the transaction is the client's own, and
  // a verdict is final.
  ghost predicate SameClient(s: World, n: World, w: nat) {
    && w in s.uploads && w in n.uploads && n.uploads[w] == s.uploads[w].(tx := n.uploads[w].tx)
    && (s.uploads[w].tx.Open? || n.uploads[w].tx == s.uploads[w].tx)
  }

  lemma WriterLeavesOthers(s: World, a: Action, w: nat)
    requires Inv(s) && Enabled(s, a) && ByWriter(a) && a.w != w && w in s.uploads
    ensures w in Next(s, a).uploads && Next(s, a).uploads[w] == s.uploads[w]
  {
    if RewritesRows(a) { RowStepFrames(s, a, Next(s, a)); } else { ViewStepFrames(s, a, Next(s, a)); }
  }

  lemma ServerLeavesClient(s: World, a: Action)
    requires Enabled(s, a) && (a.ServerCommit? || a.ServerRollback?)
    ensures SameClient(s, NextWriter(s, a), a.w)
  {}

  lemma TaskLeavesUploads(s: World, a: Action)
    requires Enabled(s, a) && !ByWriter(a)
    ensures NextTask(s, a).uploads == s.uploads
  {}

  lemma StepLeavesClient(s: World, a: Action, w: nat)
    requires Inv(s) && w in s.uploads && !ClientAction(a, w)
    ensures SameClient(s, Next(s, a), w)
  {
    if Enabled(s, a) {
      if !ByWriter(a) {
        TaskLeavesUploads(s, a);
      } else if a.w != w {
        WriterLeavesOthers(s, a, w);
      } else {
        ServerLeavesClient(s, a);
      }
    }
  }

  lemma {:induction false} OthersLeaveClient(s: World, actions: seq<Action>, w: nat)
    requires Inv(s) && w in s.uploads && forall a | a in actions :: !ClientAction(a, w)
    ensures SameClient(s, Run(s, actions), w)
    decreases |actions|
  {
    if actions != [] {
      StepLeavesClient(s, actions[0], w);
      StepKeepsInv(s, actions[0]);
      OthersLeaveClient(Next(s, actions[0]), actions[1..], w);
    }
  }

  lemma StepLeavesTask(s: World, a: Action, t: nat)
    requires Inv(s) && t in s.tasks && !TaskAction(a, t)
    ensures t in Next(s, a).tasks && Next(s, a).tasks[t] == s.tasks[t]
  {
    if Enabled(s, a) {
      if ByWriter(a) { WriterLeavesTasks(s, a); } else { OtherTasksLeave(s, a, t); }
    }
  }

  lemma WriterLeavesTasks(s: World, a: Action)
    requires Inv(s) && Enabled(s, a) && ByWriter(a)
    ensures Next(s, a).tasks == s.tasks
  {
    if RewritesRows(a) { RowStepFrames(s, a, Next(s, a)); } else { ViewStepFrames(s, a, Next(s, a)); }
  }

  lemma OtherTasksLeave(s: World, a: Action, t: nat)
    requires Enabled(s, a) && !ByWriter(a) && t in s.tasks && !TaskAction(a, t)
    ensures t in NextTask(s, a).tasks && NextTask(s, a).tasks[t] == s.tasks[t]
  {}

  lemma {:induction false} OthersLeaveTask(s: World, actions: seq<Action>, t: nat)
    requires Inv(s) && t in s.tasks && forall a | a in actions :: !TaskAction(a, t)
    ensures t in Run(s, actions).tasks && Run(s, actions).tasks[t] == s.tasks[t]
    decreases |actions|
  {
    if actions != [] {
      StepLeavesTask(s, actions[0], t);
      StepKeepsInv(s, actions[0]);
      OthersLeaveTask(Next(s, actions[0]), actions[1..], t);
    }
  }

  // ---------------------------------------------------------------------------
  // A dispatcher's row

  predicate Seizes(a: Action, f: File, w: nat) {
    (a.ClaimRow? && a.file == f) || a == UpsertUncertain(w)
  }

  lemma TasksKeepOwner(s: World, a: Action, t: nat)
    requires Enabled(s, a) && !ByWriter(a) && TaskOwns(s, t) && !TaskAction(a, t)
    requires !(a.ClaimRow? && a.file == s.tasks[t].file)
    ensures TaskOwns(NextTask(s, a), t) && NextTask(s, a).tasks[t] == s.tasks[t]
  {}

  // A writer leaves other uploads, their files and all tasks alone.
  lemma OtherWriterLeaves(s: World, a: Action, n: World, w: nat)
    requires Inv(s) && Enabled(s, a) && ByWriter(a) && a.w != w && w in s.uploads && n == Next(s, a)
    ensures w in n.uploads && n.uploads[w] == s.uploads[w] && n.tasks == s.tasks
    ensures forall f | f in s.uploads[w].files :: Untouched(s, n, f)
  {
    if RewritesRows(a) { RowStepFrames(s, a, n); } else { ViewStepFrames(s, a, n); }
    forall f | f in s.uploads[w].files ensures Untouched(s, n, f) {
      assert f in n.uploads[w].files;
    }
  }

  lemma OtherWriterKeepsOwner(s: World, a: Action, t: nat)
    requires Inv(s) && Enabled(s, a) && ByWriter(a) && TaskOwns(s, t) && a.w != s.tasks[t].writer
    ensures TaskOwns(Next(s, a), t) && Next(s, a).tasks[t] == s.tasks[t]
  {
    var w := s.tasks[t].writer;
    assert TaskOk(s, t) && UploadOk(s, w);
    OtherWriterLeaves(s, a, Next(s, a), w);
    assert Untouched(s, Next(s, a), s.tasks[t].file);
  }

  lemma OwnWriterKeepsOwner(s: World, a: Action, t: nat)
    requires Inv(s) && Enabled(s, a) && ByWriter(a) && TaskOwns(s, t) && a.w == s.tasks[t].writer && !a.UpsertUncertain?
    ensures TaskOwns(Next(s, a), t) && Next(s, a).tasks[t] == s.tasks[t]
  {
    assert TaskOk(s, t) && UploadOk(s, a.w);
    OwnedIsUnlocked(s, t);
    if RewritesRows(a) { OwnRowStays(s, a, t); } else { OwnViewStays(s, a, t); }
  }

  lemma OwnRowStays(s: World, a: Action, t: nat)
    requires Enabled(s, a) && RewritesRows(a) && ByWriter(a) && TaskOwns(s, t) && !a.UpsertUncertain? && !a.Begin?
    requires s.tasks[t].file in s.uploads[a.w].inserted && s.tasks[t].file !in s.locks
    ensures TaskOwns(NextWriter(s, a), t) && NextWriter(s, a).tasks[t] == s.tasks[t]
  {}

  lemma OwnViewStays(s: World, a: Action, t: nat)
    requires Enabled(s, a) && !RewritesRows(a) && ByWriter(a) && TaskOwns(s, t)
    ensures TaskOwns(NextWriter(s, a), t) && NextWriter(s, a).tasks[t] == s.tasks[t]
  {}

  lemma KeepsOwner(s: World, a: Action, t: nat)
    requires Inv(s) && TaskOwns(s, t) && !TaskAction(a, t) && !Seizes(a, s.tasks[t].file, s.tasks[t].writer)
    ensures TaskOwns(Next(s, a), t) && Next(s, a).tasks[t] == s.tasks[t]
  {
    if Enabled(s, a) {
      if !ByWriter(a) {
        TasksKeepOwner(s, a, t);
      } else if a.w == s.tasks[t].writer {
        OwnWriterKeepsOwner(s, a, t);
      } else {
        OtherWriterKeepsOwner(s, a, t);
      }
    }
  }

  lemma {:induction false} RunKeepsOwner(s: World, actions: seq<Action>, t: nat)
    requires Inv(s) && TaskOwns(s, t)
    requires forall a | a in actions :: !TaskAction(a, t) && !Seizes(a, s.tasks[t].file, s.tasks[t].writer)
    ensures TaskOwns(Run(s, actions), t) && Run(s, actions).tasks[t] == s.tasks[t]
    decreases |actions|
  {
    if actions != [] {
      KeepsOwner(s, actions[0], t);
      StepKeepsInv(s, actions[0]);
      RunKeepsOwner(Next(s, actions[0]), actions[1..], t);
    }
  }

  // ---------------------------------------------------------------------------
  // A writer's upload

  predicate Hinders(a: Action, w: nat, files: set<File>) {
    (a.ClaimRow? && a.file in files) || a == ServerRollback(w)
  }

  ghost predicate NoTasks(s: World, files: set<File>) {
    forall t | t in s.tasks :: s.tasks[t].file !in files
  }

  // The loop runs, nobody has touched its intents and its files are where it left
  // them.
  ghost predicate Unhindered(s: World, w: nat) {
    && w in s.uploads && s.uploads[w].phase.Working? && s.uploads[w].tx.Open? && !s.uploads[w].sent
    && NoTasks(s, s.uploads[w].files)
    && (forall f | f in s.uploads[w].inserted :: WriterOwns(s, w, f) && s.intents[f].status.Active?)
    && (forall f | f in s.uploads[w].files :: f !in s.locks && (f in s.quarantine || f in s.uploads[w].moved))
  }

  lemma TasksLeaveUnhindered(s: World, a: Action, n: World, w: nat)
    requires Enabled(s, a) && !ByWriter(a) && Unhindered(s, w) && !Hinders(a, w, s.uploads[w].files) && n == NextTask(s, a)
    requires s.uploads[w].inserted <= s.uploads[w].files
    ensures Unhindered(n, w) && n.uploads == s.uploads
  {
    TasksLeaveRows(s, a, n, w);
  }

  lemma TasksLeaveRows(s: World, a: Action, n: World, w: nat)
    requires Enabled(s, a) && !ByWriter(a) && Unhindered(s, w) && !Hinders(a, w, s.uploads[w].files) && n == NextTask(s, a)
    ensures n.uploads == s.uploads && n.locks == s.locks && NoTasks(n, s.uploads[w].files)
    ensures forall f | f in s.uploads[w].files ::
      && (f in s.intents ==> f in n.intents && n.intents[f] == s.intents[f]) && (f in s.quarantine ==> f in n.quarantine)
  {}

  lemma OtherWriterUnhindered(s: World, a: Action, n: World, w: nat)
    requires Good(s) && Enabled(s, a) && ByWriter(a) && a.w != w && Unhindered(s, w) && n == Next(s, a)
    ensures Unhindered(n, w) && n.uploads[w] == s.uploads[w]
  {
    assert UploadOk(s, w);
    OtherWriterLeaves(s, a, n, w);
    OtherQuarantine(s, a, w);
    UntouchedStaysUnhindered(s, n, w);
  }

  lemma UntouchedStaysUnhindered(s: World, n: World, w: nat)
    requires Unhindered(s, w) && w in n.uploads && n.uploads[w] == s.uploads[w] && n.tasks == s.tasks
    requires s.uploads[w].inserted <= s.uploads[w].files
    requires forall f | f in s.uploads[w].files :: Untouched(s, n, f) && (f in s.quarantine ==> f in n.quarantine)
    ensures Unhindered(n, w)
  {}

  lemma OtherQuarantine(s: World, a: Action, w: nat)
    requires Good(s) && Enabled(s, a) && ByWriter(a) && a.w != w && w in s.uploads
    ensures forall f | f in s.uploads[w].files && f in s.quarantine :: f in Next(s, a).quarantine
  {
    if a.Rename? || a.CleanUp? { assert UploadOk(s, a.w); }
    if !Removes(a) && !Arrives(a) { StillWriter(s, a, Next(s, a)); }
  }

  lemma StaysUnhindered(s: World, a: Action, w: nat)
    requires Good(s) && Unhindered(s, w) && !ClientAction(a, w) && !Hinders(a, w, s.uploads[w].files)
    ensures Unhindered(Next(s, a), w) && Next(s, a).uploads[w] == s.uploads[w]
  {
    var n := Next(s, a);
    if Enabled(s, a) {
      if !ByWriter(a) {
        assert UploadOk(s, w);
        TasksLeaveUnhindered(s, a, n, w);
      } else if a.w != w {
        OtherWriterUnhindered(s, a, n, w);
      }
    }
  }

  lemma {:induction false} RunStaysUnhindered(s: World, actions: seq<Action>, w: nat)
    requires Good(s) && Unhindered(s, w)
    requires forall a | a in actions :: !ClientAction(a, w) && !Hinders(a, w, s.uploads[w].files)
    ensures Unhindered(Run(s, actions), w) && Run(s, actions).uploads[w] == s.uploads[w]
    decreases |actions|
  {
    if actions != [] {
      StaysUnhindered(s, actions[0], w);
      StepKeepsGood(s, actions[0]);
      RunStaysUnhindered(Next(s, actions[0]), actions[1..], w);
    }
  }

  // The step is the loop's next for its file.
  predicate IsNext(u: Upload, a: Action) {
    match a
    case RenewWriter(_) => true
    case InsertIntent(_, f) => f in u.files - u.inserted
    case Rename(_, f) => f in u.inserted - u.moved
    case InsertRows(_, f) => f in u.moved
    case _ => false
  }

  // The loop's own steps then succeed and leave it unhindered.
  lemma OwnStepWorks(s: World, a: Action, w: nat)
    requires Good(s) && Unhindered(s, w) && ClientAction(a, w) && IsNext(s.uploads[w], a)
    ensures Enabled(s, a) && Unhindered(Next(s, a), w)
  {
    assert UploadOk(s, w);
    if a.RenewWriter? {
      assert (set f | f in OwnedBy(s, w) && s.intents[f].status.Active?) == s.uploads[w].inserted;
    } else if a.Rename? {
      assert Next(s, a) == Renamed(s, w, a.f);
    }
  }

  lemma DeleteWorks(s: World, w: nat)
    requires Good(s) && Unhindered(s, w) && s.uploads[w].rows == s.uploads[w].files
    ensures Enabled(s, DeleteIntents(w))
    ensures Next(s, DeleteIntents(w)).uploads[w] == s.uploads[w].(phase := IntentsDeleted)
  {
    assert UploadOk(s, w);
    assert OwnedBy(s, w) == s.uploads[w].files;
  }

  lemma BeginIsUnhindered(s: World, w: nat, files: set<File>)
    requires Good(s) && Enabled(s, Begin(w, files))
    ensures Unhindered(Next(s, Begin(w, files)), w)
  {
    IntentsAreUsed(s);
    forall t | t in s.tasks ensures s.tasks[t].file !in files {
      assert TaskOk(s, t) && UploadOk(s, s.tasks[t].writer);
    }
  }

  // ---------------------------------------------------------------------------
  // The server's verdict

  // The commit was sent, and nothing has been decided.
  predicate AwaitsVerdict(s: World, w: nat) {
    w in s.uploads && s.uploads[w].sent && s.uploads[w].tx.Open?
  }

  // The files are committed: registered, in place, and without an intent.
  ghost predicate Landed(s: World, w: nat) {
    && w in s.uploads && s.uploads[w].tx.Committed?
    && forall f | f in s.uploads[w].files :: f in s.sources && f in s.outbox && f in s.destination && f !in s.intents
  }

  predicate Deletes(a: Action, files: set<File>) {
    a.UserDelete? && a.file in files
  }

  lemma OthersKeepVerdictOpen(s: World, a: Action, w: nat)
    requires Good(s) && AwaitsVerdict(s, w) && !ClientAction(a, w) && a != ServerCommit(w) && a != ServerRollback(w)
    ensures w in Next(s, a).uploads && Next(s, a).uploads[w] == s.uploads[w]
  {
    if Enabled(s, a) {
      if !ByWriter(a) { TaskUses(s, a, Next(s, a)); } else { OtherWriterLeaves(s, a, Next(s, a), w); }
    }
  }

  lemma CommitLands(s: World, w: nat)
    requires Good(s) && AwaitsVerdict(s, w)
    ensures Landed(Next(s, ServerCommit(w)), w)
    ensures Next(s, ServerCommit(w)).uploads[w] == s.uploads[w].(tx := Committed)
  {
    assert UploadOk(s, w);
    CommitFacts(s, w);
  }

  lemma StaysLanded(s: World, a: Action, w: nat)
    requires Good(s) && Landed(s, w) && s.uploads[w].phase.CommitSent? && !ClientAction(a, w) && !Deletes(a, s.uploads[w].files)
    ensures Landed(Next(s, a), w) && Next(s, a).uploads[w] == s.uploads[w]
  {
    var n := Next(s, a);
    assert UploadOk(s, w);
    if Enabled(s, a) {
      if !ByWriter(a) {
        TasksLeaveLanded(s, a, n, w);
      } else if a.w != w {
        OtherWriterLeaves(s, a, n, w);
        WritersKeepOutbox(s, a, n);
      }
    }
  }

  lemma WritersKeepOutbox(s: World, a: Action, n: World)
    requires Inv(s) && Enabled(s, a) && ByWriter(a) && n == Next(s, a)
    ensures s.outbox <= n.outbox
  {}

  lemma TasksLeaveLanded(s: World, a: Action, n: World, w: nat)
    requires Good(s) && Landed(s, w) && Enabled(s, a) && !ByWriter(a) && !Deletes(a, s.uploads[w].files) && n == NextTask(s, a)
    ensures Landed(n, w) && n.uploads == s.uploads
  {
    if a.Unlink? { assert TaskOk(s, a.t); }
  }

  lemma RollbackDecides(s: World, w: nat)
    requires AwaitsVerdict(s, w)
    ensures Next(s, ServerRollback(w)).uploads[w] == s.uploads[w].(tx := RolledBack)
  {}

  // Once the commit is sent, the server's commit lands unless it rolls back first,
  // and committed files stay as they are unless a user deletes them.
  lemma {:induction false} VerdictOf(s: World, actions: seq<Action>, w: nat)
    requires Good(s) && AwaitsVerdict(s, w) && s.uploads[w].phase.CommitSent?
    requires forall a | a in actions :: !ClientAction(a, w)
    ensures w in Run(s, actions).uploads
    ensures ServerCommit(w) in actions && ServerRollback(w) !in actions ==> Run(s, actions).uploads[w].tx.Committed?
    ensures Run(s, actions).uploads[w].tx.Committed? && (forall a | a in actions :: !Deletes(a, s.uploads[w].files)) ==>
      Landed(Run(s, actions), w)
    decreases |actions|
  {
    if actions != [] {
      var a, n := actions[0], Next(s, actions[0]);
      StepKeepsGood(s, a);
      if a == ServerCommit(w) {
        CommitLands(s, w);
        OthersLeaveClient(n, actions[1..], w);
        if forall a | a in actions :: !Deletes(a, s.uploads[w].files) { RunStaysLanded(n, actions[1..], w); }
      } else if a == ServerRollback(w) {
        RollbackDecides(s, w);
        OthersLeaveClient(n, actions[1..], w);
      } else {
        OthersKeepVerdictOpen(s, a, w);
        VerdictOf(n, actions[1..], w);
      }
    }
  }

  lemma {:induction false} RunStaysLanded(s: World, actions: seq<Action>, w: nat)
    requires Good(s) && Landed(s, w) && s.uploads[w].phase.CommitSent?
    requires forall a | a in actions :: !ClientAction(a, w) && !Deletes(a, s.uploads[w].files)
    ensures Landed(Run(s, actions), w) && Run(s, actions).uploads[w] == s.uploads[w]
    decreases |actions|
  {
    if actions != [] {
      StaysLanded(s, actions[0], w);
      StepKeepsGood(s, actions[0]);
      RunStaysLanded(Next(s, actions[0]), actions[1..], w);
    }
  }
}
