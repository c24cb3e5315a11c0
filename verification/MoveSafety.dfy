/** Nothing committed is ever unlinked by recovery. */
module MoveSafety {
  import opened Options
  import opened MoveRecovery

  // ---------------------------------------------------------------------------
  // The invariant

  ghost predicate UploadOk(s: World, w: nat)
    requires w in s.uploads
  {
    var u := s.uploads[w];
    && u.rows <= u.moved <= u.inserted <= u.files
    && u.files <= s.used
    && (u.phase.IntentsDeleted? || u.sent ==> u.rows == u.files)
    && (u.phase.CommitSent? || u.phase.CommitUnknown? ==> u.sent)
    && (u.sent ==> u.phase.CommitSent? || u.phase.CommitUnknown? || u.phase.Over?)
    && (u.tx.Committed? ==> u.sent)
    // From the in-transaction delete until the outcome, every row is held.
    && (u.tx.Open? && (u.phase.IntentsDeleted? || u.sent) ==>
        forall f | f in u.files :: f in s.locks && s.locks[f] == w)
    // While the upload may still commit, a moved file whose intent the writer
    // still owns is where it was moved to.
    && (u.tx.Open? && (u.phase.Working? || u.phase.IntentsDeleted? || u.sent) ==>
        forall f | f in u.moved :: WriterOwns(s, w, f) ==> f in s.destination)
    && (forall f | f in u.files - u.inserted :: f !in s.intents)
    && (forall f | f in u.files :: f in s.sources ==> u.tx.Committed?)
  }

  ghost predicate IntentOk(s: World, f: File)
    requires f in s.intents
  {
    var i := s.intents[f];
    && i.writer in s.uploads && f in s.uploads[i.writer].files
    && (i.owner.Some? && i.owner.value.Writer? ==> i.owner.value.writer == i.writer && i.status.Active?)
    && (i.status.Active? ==> !s.uploads[i.writer].tx.Committed?)
    && (i.status.Uncertain? ==> !s.uploads[i.writer].tx.Open?)
  }

  ghost predicate LockOk(s: World, f: File)
    requires f in s.locks
  {
    var w := s.locks[f];
    w in s.uploads && f in s.uploads[w].files && s.uploads[w].tx.Open? && WriterOwns(s, w, f)
  }

  // A task exists only for a row its writer no longer owns, so the writer can no
  // longer commit the file.
  ghost predicate TaskOk(s: World, t: nat)
    requires t in s.tasks
  {
    var k := s.tasks[t];
    && k.writer in s.uploads && k.file in s.uploads[k.writer].inserted
    && !WriterOwns(s, k.writer, k.file)
    && (k.kind.Active? || (k.kind.Uncertain? && !s.uploads[k.writer].tx.Open?))
    && (k.progress.Inspecting? || k.progress.Cleaning? || k.progress.MayUnlink? ==> k.file !in s.sources)
    && (k.progress.Inspecting? ==> !(Quarantine in k.progress.looked && Destination in k.progress.looked))
    && !k.progress.Partial?
  }

  ghost predicate Uploads(s: World) {
    forall w {:trigger UploadOk(s, w)} | w in s.uploads :: UploadOk(s, w)
  }

  ghost predicate Intents(s: World) {
    forall f {:trigger IntentOk(s, f)} | f in s.intents :: IntentOk(s, f)
  }

  ghost predicate Locks(s: World) {
    forall f {:trigger LockOk(s, f)} | f in s.locks :: LockOk(s, f)
  }

  ghost predicate Tasks(s: World) {
    forall t {:trigger TaskOk(s, t)} | t in s.tasks :: TaskOk(s, t)
  }

  ghost predicate OneWriter(s: World) {
    forall w, x, f | w in s.uploads && x in s.uploads && f in s.uploads[w].files && f in s.uploads[x].files :: w == x
  }

  // The committed files are exactly those with an outbox row, and they are in place.
  ghost predicate InPlace(s: World) {
    s.sources == s.outbox && s.sources <= s.destination && s.sources <= s.used
  }

  ghost predicate Inv(s: World) {
    Uploads(s) && Intents(s) && Locks(s) && Tasks(s) && OneWriter(s) && InPlace(s)
  }

  lemma IntentsAreUsed(s: World)
    requires Inv(s)
    ensures s.intents.Keys <= s.used && s.locks.Keys <= s.intents.Keys
  {
    forall f | f in s.intents ensures f in s.used {
      assert IntentOk(s, f);
      assert UploadOk(s, s.intents[f].writer);
    }
    forall f | f in s.locks ensures f in s.intents { assert LockOk(s, f); }
  }

  // ---------------------------------------------------------------------------
  // Frames

  ghost predicate Untouched(s: World, n: World, f: File) {
    && (f in n.intents <==> f in s.intents) && (f in s.intents ==> n.intents[f] == s.intents[f])
    && (f in n.locks <==> f in s.locks) && (f in s.locks ==> n.locks[f] == s.locks[f])
    && (f in n.sources <==> f in s.sources) && (f in n.destination <==> f in s.destination)
  }

  // An action of upload w leaves other uploads and other uploads' files alone.
  ghost predicate OnlyUpload(s: World, n: World, w: nat) {
    && w in n.uploads && n.tasks == s.tasks && s.used <= n.used && n.uploads.Keys == s.uploads.Keys + {w}
    && (forall x | x in s.uploads && x != w :: n.uploads[x] == s.uploads[x])
    && (w in s.uploads ==> n.uploads[w].files == s.uploads[w].files)
    && (w in s.uploads ==> s.uploads[w].inserted <= n.uploads[w].inserted)
    && (forall f | f !in n.uploads[w].files :: Untouched(s, n, f))
  }

  lemma OtherUploads(s: World, n: World, w: nat, x: nat)
    requires x in s.uploads && x != w && UploadOk(s, x) && OnlyUpload(s, n, w) && OneWriter(n)
    ensures UploadOk(n, x)
  {
    var u := s.uploads[x];
    forall f | f in u.files ensures Untouched(s, n, f) {
      assert f in n.uploads[x].files;
    }
  }

  lemma OtherRows(s: World, n: World, w: nat, f: File)
    requires Inv(s) && OnlyUpload(s, n, w) && f !in n.uploads[w].files
    ensures f in n.intents ==> IntentOk(n, f)
    ensures f in n.locks ==> LockOk(n, f)
  {
    assert Untouched(s, n, f);
    if f in n.intents { assert IntentOk(s, f); }
    if f in n.locks { assert LockOk(s, f); }
  }

  lemma OtherTasks(s: World, n: World, w: nat, t: nat)
    requires Inv(s) && OnlyUpload(s, n, w) && OneWriter(n) && t in s.tasks && s.tasks[t].writer != w
    ensures TaskOk(n, t)
  {
    assert TaskOk(s, t);
    var k := s.tasks[t];
    assert UploadOk(s, k.writer);
    assert Untouched(s, n, k.file);
  }

  ghost predicate Framed(s: World, n: World, w: nat) {
    OnlyUpload(s, n, w) && OneWriter(n) && InPlace(n) && UploadOk(n, w) && OwnRowsOk(n, w)
  }

  // So only what belongs to upload w is left to check.
  lemma UploadFrame(s: World, n: World, w: nat)
    requires Inv(s) && Framed(s, n, w)
    ensures Inv(n)
  {
    forall x | x in n.uploads ensures UploadOk(n, x) {
      if x != w {
        assert UploadOk(s, x);
        OtherUploads(s, n, w, x);
      }
    }
    forall f | f in n.intents ensures IntentOk(n, f) { if f !in n.uploads[w].files { OtherRows(s, n, w, f); } }
    forall f | f in n.locks ensures LockOk(n, f) { if f !in n.uploads[w].files { OtherRows(s, n, w, f); } }
    forall t | t in n.tasks ensures TaskOk(n, t) { if n.tasks[t].writer != w { OtherTasks(s, n, w, t); } }
  }

  // ---------------------------------------------------------------------------
  // Actions of the writer and the server

  lemma BeginFrames(s: World, w: nat, files: set<File>, n: World)
    requires Inv(s) && Enabled(s, Begin(w, files)) && n == Next(s, Begin(w, files))
    ensures Framed(s, n, w)
  {
    IntentsAreUsed(s);
    forall x | x in s.uploads ensures s.uploads[x].files !! files { assert UploadOk(s, x); }
    forall t | t in n.tasks ensures n.tasks[t].writer != w { assert TaskOk(s, t); }
    assert UploadOk(n, w);
  }

  // What the invariant says about the upload that acts.
  lemma Own(s: World, w: nat)
    requires Inv(s) && w in s.uploads
    ensures UploadOk(s, w)
    ensures forall f | f in s.uploads[w].files :: (f in s.intents ==> IntentOk(s, f)) && (f in s.locks ==> LockOk(s, f))
    ensures forall t | t in s.tasks && s.tasks[t].writer == w :: TaskOk(s, t)
  {}

  // Rows, locks and the outcome stay; the client's view or a path changes.
  ghost predicate Quiet(s: World, n: World, w: nat) {
    && OnlyUpload(s, n, w) && w in s.uploads
    && n.intents == s.intents && n.locks == s.locks && n.sources == s.sources && n.outbox == s.outbox
    && n.used == s.used && n.uploads[w].inserted == s.uploads[w].inserted && n.uploads[w].tx == s.uploads[w].tx
  }

  lemma QuietFrames(s: World, n: World, w: nat)
    requires Inv(s) && Quiet(s, n, w) && UploadOk(n, w) && s.sources <= n.destination
    ensures Framed(s, n, w)
  {
    Own(s, w);
  }

  lemma ClientUploadOk(s: World, a: Action, w: nat)
    requires Inv(s) && Enabled(s, a)
    requires (a.InsertRows? && a.w == w) || a == SendCommit(w) || a == ReplyOk(w) || a == ReplyLost(w) || a == Fail(w) || a == GiveUp(w)
    ensures UploadOk(Next(s, a), w)
  {
    assert UploadOk(s, w);
  }

  lemma ClientFrames(s: World, a: Action, w: nat, n: World)
    requires Inv(s) && Enabled(s, a) && n == Next(s, a)
    requires (a.InsertRows? && a.w == w) || a == SendCommit(w) || a == ReplyOk(w) || a == ReplyLost(w) || a == Fail(w) || a == GiveUp(w)
    ensures Framed(s, n, w)
  {
    ClientUploadOk(s, a, w);
    ClientIsQuiet(s, a, w, n);
    QuietFrames(s, n, w);
  }

  lemma ClientIsQuiet(s: World, a: Action, w: nat, n: World)
    requires Inv(s) && Enabled(s, a) && n == Next(s, a)
    requires (a.InsertRows? && a.w == w) || a == SendCommit(w) || a == ReplyOk(w) || a == ReplyLost(w) || a == Fail(w) || a == GiveUp(w)
    ensures Quiet(s, n, w) && s.sources <= n.destination
  {
    assert n == s.(uploads := s.uploads[w := n.uploads[w]]);
  }

  lemma RenameUploadOk(s: World, w: nat, f: File)
    requires Inv(s) && w in s.uploads && s.uploads[w].phase.Working? && f in s.uploads[w].inserted && f !in s.uploads[w].moved
    ensures UploadOk(Renamed(s, w, f), w)
  {
    var u := s.uploads[w];
    assert UploadOk(s, w);
  }

  lemma RenameFrames(s: World, w: nat, f: File, n: World)
    requires Inv(s) && w in s.uploads && s.uploads[w].phase.Working? && f in s.uploads[w].inserted && f !in s.uploads[w].moved && n == Renamed(s, w, f)
    ensures Framed(s, n, w)
  {
    RenameUploadOk(s, w, f);
    RenameIsQuiet(s, w, f, n);
    QuietFrames(s, n, w);
  }

  lemma RenameIsQuiet(s: World, w: nat, f: File, n: World)
    requires Inv(s) && w in s.uploads && f in s.uploads[w].inserted && n == Renamed(s, w, f)
    ensures Quiet(s, n, w) && s.sources <= n.destination
  {
    assert UploadOk(s, w);
    assert f in s.uploads[w].files && n.uploads == s.uploads[w := n.uploads[w]];
    assert n.intents == s.intents && n.locks == s.locks && n.sources == s.sources;
    assert n.destination == s.destination || n.destination == s.destination + {f};
  }

  lemma CleanUpFrames(s: World, w: nat, f: File, place: Place, n: World)
    requires Inv(s) && Enabled(s, CleanUp(w, f, place)) && n == Next(s, CleanUp(w, f, place))
    ensures Framed(s, n, w)
  {
    assert UploadOk(s, w);
    assert UploadOk(n, w);
    QuietFrames(s, n, w);
  }

  // The rows and tasks of upload w after an action that rewrites its rows.
  ghost predicate OwnRowsOk(n: World, w: nat)
    requires w in n.uploads
  {
    && (forall f | f in n.uploads[w].files :: (f in n.intents ==> IntentOk(n, f)) && (f in n.locks ==> LockOk(n, f)))
    && (forall t | t in n.tasks && n.tasks[t].writer == w :: TaskOk(n, t))
  }

  lemma InsertIntentRows(s: World, w: nat, f: File)
    requires Inv(s) && Enabled(s, InsertIntent(w, f))
    ensures OwnRowsOk(Next(s, InsertIntent(w, f)), w)
  {
    Own(s, w);
  }

  lemma InsertIntentUploadOk(s: World, w: nat, f: File)
    requires Inv(s) && Enabled(s, InsertIntent(w, f))
    ensures UploadOk(Next(s, InsertIntent(w, f)), w)
  {
    assert UploadOk(s, w);
  }

  lemma InsertIntentFrames(s: World, w: nat, f: File, n: World)
    requires Inv(s) && Enabled(s, InsertIntent(w, f)) && n == Next(s, InsertIntent(w, f))
    ensures Framed(s, n, w)
  {
    InsertIntentRows(s, w, f);
    InsertIntentUploadOk(s, w, f);
  }

  lemma RenewWriterRows(s: World, w: nat)
    requires Inv(s) && w in s.uploads && s.uploads[w].phase.Working? && AllUnlocked(s, w)
    ensures OwnRowsOk(LeasesRenewed(s, w), w)
  {
    Own(s, w);
    assert forall x, f :: WriterOwns(LeasesRenewed(s, w), x, f) <==> WriterOwns(s, x, f);
  }

  lemma RenewWriterUploadOk(s: World, w: nat)
    requires Inv(s) && w in s.uploads && s.uploads[w].phase.Working? && AllUnlocked(s, w)
    ensures UploadOk(LeasesRenewed(s, w), w)
  {
    assert UploadOk(s, w);
  }

  lemma RenewWriterFrames(s: World, w: nat, n: World)
    requires Inv(s) && w in s.uploads && s.uploads[w].phase.Working? && AllUnlocked(s, w) && n == LeasesRenewed(s, w)
    ensures Framed(s, n, w)
  {
    RenewWriterRows(s, w);
    RenewWriterUploadOk(s, w);
    RenewWriterOnly(s, w, n);
  }

  lemma RenewWriterOnly(s: World, w: nat, n: World)
    requires Inv(s) && w in s.uploads && n == LeasesRenewed(s, w)
    ensures OnlyUpload(s, n, w) && OneWriter(n) && InPlace(n)
  {
    assert n.locks == s.locks && n.sources == s.sources && n.destination == s.destination && n.intents.Keys == s.intents.Keys;
    assert forall f | f in s.intents && f !in s.uploads[w].files :: n.intents[f] == s.intents[f];
  }

  lemma DeleteIntentsRows(s: World, w: nat)
    requires Inv(s) && w in s.uploads && s.uploads[w].phase.Working? && s.uploads[w].tx.Open? && s.uploads[w].rows == s.uploads[w].files && AllUnlocked(s, w)
    ensures OwnRowsOk(IntentsHeld(s, w), w)
  {
    Own(s, w);
  }

  lemma DeleteIntentsUploadOk(s: World, w: nat)
    requires Inv(s) && w in s.uploads && s.uploads[w].phase.Working? && s.uploads[w].tx.Open? && s.uploads[w].rows == s.uploads[w].files && AllUnlocked(s, w)
    ensures UploadOk(IntentsHeld(s, w), w)
  {
    assert UploadOk(s, w);
  }

  lemma DeleteIntentsFrames(s: World, w: nat, n: World)
    requires Inv(s) && w in s.uploads && s.uploads[w].phase.Working? && s.uploads[w].tx.Open? && s.uploads[w].rows == s.uploads[w].files && AllUnlocked(s, w) && n == IntentsHeld(s, w)
    ensures Framed(s, n, w)
  {
    DeleteIntentsRows(s, w);
    DeleteIntentsUploadOk(s, w);
  }

  // The upsert gets past the row locks only when the transaction is over.
  lemma UpsertAfterOutcome(s: World, w: nat)
    requires Inv(s) && w in s.uploads && s.uploads[w].phase.CommitUnknown? && AllUnlocked(s, w)
    ensures s.uploads[w].files != {} ==> !s.uploads[w].tx.Open?
  {
    var u := s.uploads[w];
    assert UploadOk(s, w);
  }

  lemma UpsertRows(s: World, w: nat)
    requires Inv(s) && w in s.uploads && s.uploads[w].phase.CommitUnknown? && AllUnlocked(s, w)
    ensures OwnRowsOk(Upserted(s, w), w)
  {
    Own(s, w);
    UpsertAfterOutcome(s, w);
    forall t | t in s.tasks && s.tasks[t].writer == w
      ensures s.tasks[t].file in s.uploads[w].files
    {
      assert TaskOk(s, t);
    }
  }

  lemma UpsertFrames(s: World, w: nat, n: World)
    requires Inv(s) && w in s.uploads && s.uploads[w].phase.CommitUnknown? && AllUnlocked(s, w) && n == Upserted(s, w)
    ensures Framed(s, n, w)
  {
    UpsertRows(s, w);
    UpsertAfterOutcome(s, w);
    assert UploadOk(s, w);
    assert UploadOk(n, w);
  }

  lemma ForgetRows(s: World, w: nat)
    requires Inv(s) && Enabled(s, ForgetIntents(w))
    ensures OwnRowsOk(Next(s, ForgetIntents(w)), w)
  {
    Own(s, w);
  }

  lemma ForgetFrames(s: World, w: nat, n: World)
    requires Inv(s) && Enabled(s, ForgetIntents(w)) && n == Next(s, ForgetIntents(w))
    ensures Framed(s, n, w)
  {
    ForgetRows(s, w);
    assert UploadOk(s, w);
    assert UploadOk(n, w);
  }

  // The commit takes effect with every intent row still owned by its writer, so
  // every file is in place and no task has ever claimed any of these rows.
  lemma CommitFacts(s: World, w: nat)
    requires Inv(s) && w in s.uploads && s.uploads[w].tx.Open? && (s.uploads[w].sent || s.uploads[w].phase.IntentsDeleted?)
    ensures forall f | f in s.uploads[w].files ::
      f in s.destination && f in s.used && f in s.locks && s.locks[f] == w && WriterOwns(s, w, f)
    ensures forall f | f in s.locks && s.locks[f] == w :: f in s.uploads[w].files
    ensures forall t | t in s.tasks :: s.tasks[t].writer != w
  {
    var u := s.uploads[w];
    Own(s, w);
    forall f | f in s.locks && s.locks[f] == w ensures f in u.files { assert LockOk(s, f); }
    forall t | t in s.tasks ensures s.tasks[t].writer != w {
      assert s.tasks[t].writer == w ==> !WriterOwns(s, w, s.tasks[t].file);
    }
  }

  lemma ServerCommitFrames(s: World, w: nat, n: World)
    requires Inv(s) && w in s.uploads && s.uploads[w].tx.Open? && s.uploads[w].sent && n == TxCommitted(s, w)
    ensures Framed(s, n, w)
  {
    CommitFacts(s, w);
    assert UploadOk(s, w);
    assert UploadOk(n, w);
  }

  lemma ServerRollbackUploadOk(s: World, w: nat)
    requires Inv(s) && w in s.uploads && s.uploads[w].tx.Open?
    ensures UploadOk(TxRolledBack(s, w), w)
  {
    assert UploadOk(s, w);
  }

  lemma ServerRollbackFrames(s: World, w: nat, n: World)
    requires Inv(s) && w in s.uploads && s.uploads[w].tx.Open? && n == TxRolledBack(s, w)
    ensures Framed(s, n, w)
  {
    Own(s, w);
    forall f | f in s.locks && s.locks[f] == w ensures f in s.uploads[w].files { assert LockOk(s, f); }
    ServerRollbackUploadOk(s, w);
  }

  // ---------------------------------------------------------------------------
  // Actions of a dispatcher, a user and the clock

  // A dispatcher's action on task t touches its own row and its own two paths.
  ghost predicate OnlyRow(s: World, n: World, t: nat) {
    && t in n.tasks && n.uploads == s.uploads && n.locks == s.locks && n.used == s.used
    && n.sources == s.sources && n.outbox == s.outbox && n.tasks.Keys == s.tasks.Keys + {t}
    && (forall k | k in s.tasks && k != t :: n.tasks[k] == s.tasks[k])
    && var g := n.tasks[t].file;
       && (n.intents == s.intents || g !in s.locks)
       && n.intents.Keys <= s.intents.Keys
       && (forall f | f in s.intents && f != g :: f in n.intents && n.intents[f] == s.intents[f])
       && (g in n.intents && n.intents[g] != s.intents[g] ==> DispatcherWrite(s.intents[g], n.intents[g]))
       && (n.destination == s.destination || (n.destination == s.destination - {g} && g !in s.sources))
       && (forall x :: !WriterOwns(n, x, g))
  }

  ghost predicate DispatcherWrite(i: Intent, row: Intent) {
    row.writer == i.writer && (row.status == i.status || row.status.Rejected?)
    && (row.owner.Some? ==> row.owner.value.Dispatcher?)
  }

  lemma RowFrame(s: World, n: World, t: nat)
    requires Inv(s) && OnlyRow(s, n, t) && TaskOk(n, t)
    ensures Inv(n)
  {
    assert forall x, f :: WriterOwns(n, x, f) ==> WriterOwns(s, x, f);
    forall w | w in n.uploads ensures UploadOk(n, w) { assert UploadOk(s, w); }
    forall f | f in n.intents ensures IntentOk(n, f) { assert IntentOk(s, f); }
    forall f | f in n.locks ensures LockOk(n, f) { assert LockOk(s, f); }
    forall k | k in n.tasks ensures TaskOk(n, k) { if k != t { assert TaskOk(s, k); } }
  }

  // A task's row is never its writer's any more.
  lemma TaskRow(s: World, t: nat, x: nat)
    requires Inv(s) && t in s.tasks
    ensures TaskOk(s, t) && !WriterOwns(s, x, s.tasks[t].file)
  {
    var k := s.tasks[t];
    assert TaskOk(s, t) && UploadOk(s, k.writer);
    if k.file in s.intents { assert IntentOk(s, k.file); }
  }

  // A row that a task owns is locked by nobody.
  lemma OwnedIsUnlocked(s: World, t: nat)
    requires Inv(s) && TaskOwns(s, t)
    ensures Unlocked(s, s.tasks[t].file) && TaskOk(s, t)
  {
    assert s.tasks[t].file in s.locks ==> LockOk(s, s.tasks[t].file);
    assert TaskOk(s, t);
  }

  lemma ClaimRowKeepsInv(s: World, t: nat, g: File, kind: Status, n: World)
    requires Inv(s) && Enabled(s, ClaimRow(t, g, kind)) && n == Next(s, ClaimRow(t, g, kind))
    ensures Inv(n)
  {
    assert IntentOk(s, g);
    assert UploadOk(s, s.intents[g].writer);
    RowFrame(s, n, t);
  }

  // What every action on a claimed row has in common.
  lemma TaskStepFrame(s: World, t: nat, n: World)
    requires Inv(s) && t in s.tasks && t in n.tasks && n.tasks[t].file == s.tasks[t].file
    requires n.intents.Keys <= s.intents.Keys
    requires forall f | f in n.intents && n.intents[f] != s.intents[f] :: DispatcherWrite(s.intents[f], n.intents[f])
    ensures TaskOk(s, t) && forall x :: !WriterOwns(n, x, s.tasks[t].file)
  {
    forall x ensures !WriterOwns(n, x, s.tasks[t].file) { TaskRow(s, t, x); }
    TaskRow(s, t, 0);
  }

  lemma RenewalKeepsInv(s: World, t: nat, p: Progress, n: World)
    requires Inv(s) && t in s.tasks && Unlocked(s, s.tasks[t].file) && n == Renewal(s, t, p)
    requires p.Renewed? || (p.MayUnlink? && s.tasks[t].progress.Cleaning?)
    ensures Inv(n)
  {
    TaskStepFrame(s, t, n);
    RenewalIsOnlyRow(s, t, p, n);
    RowFrame(s, n, t);
  }

  lemma RenewalIsOnlyRow(s: World, t: nat, p: Progress, n: World)
    requires t in s.tasks && Unlocked(s, s.tasks[t].file) && n == Renewal(s, t, p)
    requires forall x :: !WriterOwns(n, x, s.tasks[t].file)
    ensures OnlyRow(s, n, t)
  {
    if TaskOwns(s, t) {
      assert n.tasks == s.tasks[t := s.tasks[t].(progress := p)];
    } else {
      assert n == WithProgress(s, t, Ended);
    }
  }

  lemma ProgressKeepsInv(s: World, t: nat, p: Progress, n: World)
    requires Inv(s) && t in s.tasks && n == WithProgress(s, t, p) && !p.Partial?
    requires p.Inspecting? || p.Cleaning? || p.MayUnlink? ==> s.tasks[t].file !in s.sources
    requires p.Inspecting? ==> !(Quarantine in p.looked && Destination in p.looked)
    ensures Inv(n)
  {
    TaskStepFrame(s, t, n);
    RowFrame(s, n, t);
  }

  lemma ReadFactsKeepsInv(s: World, t: nat, n: World)
    requires Inv(s) && Enabled(s, ReadFacts(t)) && n == Next(s, ReadFacts(t))
    ensures Inv(n)
  {
    assert TaskOk(s, t);
    ProgressKeepsInv(s, t, n.tasks[t].progress, n);
  }

  lemma InspectKeepsInv(s: World, t: nat, place: Place, n: World)
    requires Inv(s) && Enabled(s, Inspect(t, place)) && n == Next(s, Inspect(t, place))
    ensures Inv(n)
  {
    assert TaskOk(s, t);
    ProgressKeepsInv(s, t, n.tasks[t].progress, n);
  }

  lemma SkipKeepsInv(s: World, t: nat, n: World)
    requires Inv(s) && Enabled(s, SkipPath(t)) && n == Next(s, SkipPath(t))
    ensures Inv(n)
  {
    assert TaskOk(s, t);
    ProgressKeepsInv(s, t, n.tasks[t].progress, n);
  }

  lemma UnlinkKeepsInv(s: World, t: nat, n: World)
    requires Inv(s) && Enabled(s, Unlink(t)) && n == Next(s, Unlink(t))
    ensures Inv(n)
  {
    TaskStepFrame(s, t, n);
    RowFrame(s, n, t);
  }

  // An update or a delete that is fenced by the owner, and the end of a recovery.
  lemma FencedKeepsInv(s: World, t: nat, n: World)
    requires Inv(s) && t in s.tasks && Unlocked(s, s.tasks[t].file)
    requires n == WithProgress(s.(intents := n.intents), t, Ended) && n.intents.Keys <= s.intents.Keys
    requires forall f | f in s.intents && f != s.tasks[t].file :: f in n.intents && n.intents[f] == s.intents[f]
    requires var g := s.tasks[t].file; g in n.intents && n.intents[g] != s.intents[g] ==> DispatcherWrite(s.intents[g], n.intents[g])
    ensures Inv(n)
  {
    TaskStepFrame(s, t, n);
    RowFrame(s, n, t);
  }

  lemma UserDeleteKeepsInv(s: World, g: File, n: World)
    requires Inv(s) && Enabled(s, UserDelete(g)) && n == Next(s, UserDelete(g))
    ensures Inv(n)
  {
    forall w | w in n.uploads ensures UploadOk(n, w) { assert UploadOk(s, w); }
    forall f | f in n.intents ensures IntentOk(n, f) { assert IntentOk(s, f); }
    forall f | f in n.locks ensures LockOk(n, f) { assert LockOk(s, f); }
    forall k | k in n.tasks ensures TaskOk(n, k) { assert TaskOk(s, k); }
  }

  lemma TickKeepsInv(s: World, elapsed: Micros, n: World)
    requires Inv(s) && n == Next(s, Tick(elapsed))
    ensures Inv(n)
  {
    forall w | w in n.uploads ensures UploadOk(n, w) { assert UploadOk(s, w); }
    forall f | f in n.intents ensures IntentOk(n, f) { assert IntentOk(s, f); }
    forall f | f in n.locks ensures LockOk(n, f) { assert LockOk(s, f); }
    forall k | k in n.tasks ensures TaskOk(n, k) { assert TaskOk(s, k); }
  }

  predicate RewritesRows(a: Action) {
    a.Begin? || a.InsertIntent? || a.RenewWriter? || a.DeleteIntents? || a.UpsertUncertain? || a.ForgetIntents?
    || a.ServerCommit? || a.ServerRollback?
  }

  lemma RowStepFrames(s: World, a: Action, n: World)
    requires Inv(s) && Enabled(s, a) && RewritesRows(a) && n == Next(s, a)
    ensures Framed(s, n, a.w)
  {
    match a {
      case Begin(w, files) => BeginFrames(s, w, files, n);
      case InsertIntent(w, f) => InsertIntentFrames(s, w, f, n);
      case RenewWriter(w) => RenewWriterFrames(s, w, n);
      case DeleteIntents(w) => DeleteIntentsFrames(s, w, n);
      case UpsertUncertain(w) => UpsertFrames(s, w, n);
      case ForgetIntents(w) => ForgetFrames(s, w, n);
      case ServerCommit(w) => ServerCommitFrames(s, w, n);
      case ServerRollback(w) => ServerRollbackFrames(s, w, n);
    }
  }

  lemma ViewStepFrames(s: World, a: Action, n: World)
    requires Inv(s) && Enabled(s, a) && ByWriter(a) && !RewritesRows(a) && n == Next(s, a)
    ensures Framed(s, n, a.w)
  {
    if a.Rename? {
      RenameFrames(s, a.w, a.f, n);
    } else if a.CleanUp? {
      CleanUpFrames(s, a.w, a.f, a.place, n);
    } else {
      ClientFrames(s, a, a.w, n);
    }
  }

  lemma WriterStepKeepsInv(s: World, a: Action, n: World)
    requires Inv(s) && Enabled(s, a) && ByWriter(a) && n == Next(s, a)
    ensures Inv(n)
  {
    if RewritesRows(a) { RowStepFrames(s, a, n); } else { ViewStepFrames(s, a, n); }
    UploadFrame(s, n, a.w);
  }

  lemma TaskStepKeepsInv(s: World, a: Action, n: World)
    requires Inv(s) && Enabled(s, a) && !ByWriter(a) && n == Next(s, a)
    ensures Inv(n)
  {
    match a {
      case ClaimRow(t, f, kind) => ClaimRowKeepsInv(s, t, f, kind, n);
      case RenewTask(t) => RenewalKeepsInv(s, t, Renewed, n);
      case RenewForUnlink(t) => RenewalKeepsInv(s, t, MayUnlink(s.tasks[t].progress.place, s.tasks[t].progress.seen), n);
      case ReadFacts(t) => ReadFactsKeepsInv(s, t, n);
      case Inspect(t, place) => InspectKeepsInv(s, t, place, n);
      case SkipPath(t) => SkipKeepsInv(s, t, n);
      case EndTask(t) => ProgressKeepsInv(s, t, Ended, n);
      case Unlink(t) => UnlinkKeepsInv(s, t, n);
      case RejectUnsafe(t) => FencedKeepsInv(s, t, n);
      case FencedDelete(t) => FencedKeepsInv(s, t, n);
      case BackOff(t, _) => FencedKeepsInv(s, t, n);
      case UserDelete(f) => UserDeleteKeepsInv(s, f, n);
      case Tick(dt) => TickKeepsInv(s, dt, n);
    }
  }

  lemma StepKeepsInv(s: World, a: Action)
    requires Inv(s)
    ensures Inv(Next(s, a))
  {
    if Enabled(s, a) {
      if ByWriter(a) { WriterStepKeepsInv(s, a, Next(s, a)); } else { TaskStepKeepsInv(s, a, Next(s, a)); }
    }
  }

  // ---------------------------------------------------------------------------
  // Whole runs

  lemma {:induction false} RunKeepsInv(s: World, actions: seq<Action>)
    requires Inv(s)
    ensures Inv(Run(s, actions))
    decreases |actions|
  {
    if actions != [] {
      StepKeepsInv(s, actions[0]);
      RunKeepsInv(Next(s, actions[0]), actions[1..]);
    }
  }

  // In every world any interleaving reaches, each committed source file has its
  // outbox row and its file at the destination; and no action of a dispatcher
  // takes a committed file's destination away.
  lemma NothingCommittedIsUnlinked(actions: seq<Action>, a: Action)
    ensures var s := Run(START, actions);
      && s.sources == s.outbox && s.sources <= s.destination
      && (Enabled(s, a) && a.Unlink? ==> s.tasks[a.t].file !in s.sources)
      && (!a.UserDelete? ==> s.sources <= Next(s, a).sources && s.sources <= Next(s, a).destination)
  {
    var s := Run(START, actions);
    RunKeepsInv(START, actions);
    if Enabled(s, a) && a.Unlink? { assert TaskOk(s, a.t); }
    StepKeepsInv(s, a);
    if !a.UserDelete? { SourcesOnlyGrow(s, a); }
  }

  lemma SourcesOnlyGrow(s: World, a: Action)
    requires !a.UserDelete?
    ensures s.sources <= Next(s, a).sources
  {
    if Enabled(s, a) {
      if ByWriter(a) { SourcesGrowByCommit(s, a); } else { TasksKeepSources(s, a); }
    }
  }

  lemma SourcesGrowByCommit(s: World, a: Action)
    requires Enabled(s, a) && ByWriter(a)
    ensures s.sources <= NextWriter(s, a).sources
  {}

  lemma TasksKeepSources(s: World, a: Action)
    requires Enabled(s, a) && !ByWriter(a) && !a.UserDelete?
    ensures s.sources == NextTask(s, a).sources
  {}

  // While a writer's in-transaction delete holds an intent row, no dispatcher has
  // a task on that file and none can claim one.
  lemma DeleteExcludesClaims(actions: seq<Action>, f: File, t: nat, kind: Status)
    requires f in Run(START, actions).locks
    ensures var s := Run(START, actions);
      && WriterOwns(s, s.locks[f], f)
      && (t in s.tasks ==> s.tasks[t].file != f)
      && !Enabled(s, ClaimRow(t, f, kind))
  {
    var s := Run(START, actions);
    RunKeepsInv(START, actions);
    assert LockOk(s, f);
    if t in s.tasks { TaskRow(s, t, s.locks[f]); }
  }

  // An UNCERTAIN row is there only once the outcome is final, an ACTIVE row never
  // beside a committed file, and so a dispatcher never reads partial facts.
  lemma RowsTellTheOutcome(actions: seq<Action>, f: File, t: nat)
    ensures var s := Run(START, actions);
      && (f in s.intents ==> s.intents[f].writer in s.uploads && f in s.uploads[s.intents[f].writer].files)
      && (f in s.intents && s.intents[f].status.Uncertain? ==> !s.uploads[s.intents[f].writer].tx.Open?)
      && (f in s.intents && s.intents[f].status.Active? ==> f !in s.sources)
      && (t in s.tasks ==> !s.tasks[t].progress.Partial?)
  {
    var s := Run(START, actions);
    RunKeepsInv(START, actions);
    if f in s.intents {
      assert IntentOk(s, f);
      assert UploadOk(s, s.intents[f].writer);
    }
    if t in s.tasks { assert TaskOk(s, t); }
  }
}
