/** Where the files of an upload are: nothing but its own rename ever brings a file
    to a path, so what a recovery finds missing stays missing unless it is renamed. */
module MovePaths {
  import opened Options
  import opened MoveRecovery
  import opened MoveSafety

  ghost predicate UploadPlaced(s: World, w: nat)
    requires w in s.uploads
  {
    forall f | f in s.uploads[w].files :: FilePlaced(s, w, f)
  }

  // A moved file has left quarantine, only moved files are at their destination, and
  // of a committed upload only the files that are still registered.
  ghost predicate FilePlaced(s: World, w: nat, f: File)
    requires w in s.uploads
  {
    && (f in s.uploads[w].moved ==> f !in s.quarantine)
    && (f in s.destination ==> f in s.uploads[w].moved)
    && (s.uploads[w].tx.Committed? && f in s.destination ==> f in s.sources)
  }

  ghost predicate Placed(s: World) {
    (forall w {:trigger UploadPlaced(s, w)} | w in s.uploads :: UploadPlaced(s, w)) && s.destination <= s.used
  }

  ghost predicate Good(s: World) {
    Inv(s) && Placed(s)
  }

  // The file's own rename happened on the way from s to n.
  predicate MovedSince(s: World, n: World, w: nat, f: File)
    requires w in s.uploads && w in n.uploads
  {
    f !in s.uploads[w].moved && f in n.uploads[w].moved
  }

  // The writer may still rename the file: its loop is running, the file has not been
  // moved and is still in quarantine.
  predicate CanRename(s: World, w: nat, f: File)
    requires w in s.uploads
  {
    s.uploads[w].phase.Working? && f !in s.uploads[w].moved && f in s.quarantine
  }

  // What any run does to the paths of a file of upload w. A rename that has become
  // impossible stays so.
  ghost predicate Onward(s: World, n: World, w: nat, f: File) {
    && w in s.uploads && w in n.uploads && f in s.uploads[w].files && f in n.uploads[w].files
    && (f in n.quarantine ==> f in s.quarantine)
    && (f in s.uploads[w].moved ==> f in n.uploads[w].moved)
    && (f in n.destination ==> f in s.destination || MovedSince(s, n, w, f))
    && (s.uploads[w].tx.Committed? ==> n.uploads[w].tx.Committed?)
    && (!CanRename(s, w, f) ==> !CanRename(n, w, f) && !MovedSince(s, n, w, f))
  }

  lemma OnwardOn(s: World, m: World, n: World, w: nat, f: File)
    requires Onward(s, m, w, f) && Onward(m, n, w, f)
    ensures Onward(s, n, w, f)
  {}

  lemma RenameOnward(s: World, x: nat, g: File, n: World, w: nat, f: File)
    requires Good(s) && Enabled(s, Rename(x, g)) && n == Renamed(s, x, g) && w in s.uploads && f in s.uploads[w].files
    ensures Onward(s, n, w, f) && FilePlaced(n, w, f)
  {
    assert UploadOk(s, x) && UploadPlaced(s, w) && FilePlaced(s, w, f);
    assert f == g ==> w == x;
  }

  lemma CommitOnward(s: World, x: nat, n: World, w: nat, f: File)
    requires Good(s) && Enabled(s, ServerCommit(x)) && n == TxCommitted(s, x) && w in s.uploads && f in s.uploads[w].files
    ensures Onward(s, n, w, f) && FilePlaced(n, w, f)
  {
    assert UploadPlaced(s, w) && FilePlaced(s, w, f);
  }

  lemma BeginOnward(s: World, x: nat, files: set<File>, n: World, w: nat, f: File)
    requires Good(s) && Enabled(s, Begin(x, files)) && n == Next(s, Begin(x, files)) && w in s.uploads && f in s.uploads[w].files
    ensures Onward(s, n, w, f) && FilePlaced(n, w, f)
  {
    assert UploadOk(s, w) && UploadPlaced(s, w) && FilePlaced(s, w, f);
  }

  predicate Removes(a: Action) {
    a.CleanUp? || a.Unlink? || a.UserDelete?
  }

  lemma RemovalOnward(s: World, a: Action, n: World, w: nat, f: File)
    requires Good(s) && Enabled(s, a) && Removes(a) && n == Next(s, a) && w in s.uploads && f in s.uploads[w].files
    ensures Onward(s, n, w, f) && FilePlaced(n, w, f)
  {
    assert UploadPlaced(s, w) && FilePlaced(s, w, f);
  }

  predicate Arrives(a: Action) {
    a.Begin? || a.Rename? || a.ServerCommit?
  }

  // Every other action leaves both paths alone.
  lemma StillWriter(s: World, a: Action, n: World)
    requires Enabled(s, a) && ByWriter(a) && !Arrives(a) && !Removes(a) && n == Next(s, a)
    ensures n.quarantine == s.quarantine && n.destination == s.destination && n.sources == s.sources && n.used == s.used
    ensures n.uploads.Keys == s.uploads.Keys
    ensures forall w | w in s.uploads :: SameFiles(s.uploads[w], n.uploads[w])
  {
    StillPaths(s, a);
    StillUploads(s, a);
  }

  predicate SameFiles(u: Upload, v: Upload) {
    && v.files == u.files && v.moved == u.moved && (v.tx == u.tx || (u.tx.Open? && v.tx.RolledBack?))
    && (v.phase.Working? ==> u.phase.Working?)
  }

  lemma StillPaths(s: World, a: Action)
    requires Enabled(s, a) && ByWriter(a) && !Arrives(a) && !Removes(a)
    ensures var n := NextWriter(s, a);
      n.quarantine == s.quarantine && n.destination == s.destination && n.sources == s.sources && n.used == s.used
  {}

  lemma StillUploads(s: World, a: Action)
    requires Enabled(s, a) && ByWriter(a) && !Arrives(a) && !Removes(a)
    ensures var n := NextWriter(s, a);
      n.uploads.Keys == s.uploads.Keys && forall w | w in s.uploads :: SameFiles(s.uploads[w], n.uploads[w])
  {
    if RewritesRows(a) { StillUploadsOfRows(s, a); } else { StillUploadsOfViews(s, a); }
  }

  lemma StillUploadsOfRows(s: World, a: Action)
    requires Enabled(s, a) && ByWriter(a) && !Arrives(a) && !Removes(a) && RewritesRows(a)
    ensures var n := NextWriter(s, a);
      n.uploads.Keys == s.uploads.Keys && forall w | w in s.uploads :: SameFiles(s.uploads[w], n.uploads[w])
  {}

  lemma StillUploadsOfViews(s: World, a: Action)
    requires Enabled(s, a) && ByWriter(a) && !Arrives(a) && !Removes(a) && !RewritesRows(a)
    ensures var n := NextWriter(s, a);
      n.uploads.Keys == s.uploads.Keys && forall w | w in s.uploads :: SameFiles(s.uploads[w], n.uploads[w])
  {}

  lemma StillTask(s: World, a: Action, n: World)
    requires Enabled(s, a) && !ByWriter(a) && !Removes(a) && n == Next(s, a)
    ensures n.quarantine == s.quarantine && n.destination == s.destination && n.sources == s.sources && n.used == s.used
    ensures n.uploads == s.uploads
  {}

  lemma StillOnward(s: World, a: Action, n: World, w: nat, f: File)
    requires Good(s) && Enabled(s, a) && !Arrives(a) && !Removes(a) && n == Next(s, a)
    requires w in s.uploads && f in s.uploads[w].files
    ensures Onward(s, n, w, f) && FilePlaced(n, w, f)
  {
    assert UploadPlaced(s, w) && FilePlaced(s, w, f);
    if ByWriter(a) { StillWriter(s, a, n); } else { StillTask(s, a, n); }
  }

  lemma StepOnward(s: World, a: Action, w: nat, f: File)
    requires Good(s) && w in s.uploads && f in s.uploads[w].files
    ensures Onward(s, Next(s, a), w, f) && FilePlaced(Next(s, a), w, f)
  {
    var n := Next(s, a);
    if !Enabled(s, a) {
      assert UploadPlaced(s, w);
    } else if Removes(a) {
      RemovalOnward(s, a, n, w, f);
    } else if a.Rename? {
      RenameOnward(s, a.w, a.f, n, w, f);
    } else if a.ServerCommit? {
      CommitOnward(s, a.w, n, w, f);
    } else if a.Begin? {
      BeginOnward(s, a.w, a.files, n, w, f);
    } else {
      StillOnward(s, a, n, w, f);
    }
  }

  lemma WriterStepUses(s: World, a: Action, n: World)
    requires Good(s) && Enabled(s, a) && ByWriter(a) && n == Next(s, a)
    ensures forall w | w in n.uploads && w !in s.uploads :: a.Begin? && a.w == w
    ensures forall w | w in n.uploads && w in s.uploads :: n.uploads[w].files == s.uploads[w].files
    ensures s.used <= n.used
  {
    if RewritesRows(a) { RowStepFrames(s, a, n); } else { ViewStepFrames(s, a, n); }
    if !a.Begin? { assert a.w in s.uploads; }
  }

  lemma DestinationsAreUsed(s: World, a: Action, n: World)
    requires Good(s) && Enabled(s, a) && n == Next(s, a) && s.used <= n.used
    ensures n.destination <= n.used
  {
    if a.Rename? {
      assert UploadOk(s, a.w) && n == Renamed(s, a.w, a.f);
    } else if ByWriter(a) && !Arrives(a) && !Removes(a) {
      StillWriter(s, a, n);
    } else if !ByWriter(a) && !Removes(a) {
      StillTask(s, a, n);
    }
  }

  lemma StepUses(s: World, a: Action, n: World)
    requires Good(s) && n == Next(s, a)
    ensures n.destination <= n.used
    ensures forall w | w in n.uploads && w !in s.uploads :: a.Begin? && a.w == w
    ensures forall w | w in n.uploads && w in s.uploads :: n.uploads[w].files == s.uploads[w].files
  {
    if Enabled(s, a) {
      if ByWriter(a) { WriterStepUses(s, a, n); } else { TaskUses(s, a, n); }
      DestinationsAreUsed(s, a, n);
    }
  }

  lemma TaskUses(s: World, a: Action, n: World)
    requires Enabled(s, a) && !ByWriter(a) && n == Next(s, a)
    ensures n.uploads == s.uploads && n.used == s.used
  {}

  lemma StepKeepsGood(s: World, a: Action)
    requires Good(s)
    ensures Good(Next(s, a))
  {
    var n := Next(s, a);
    StepKeepsInv(s, a);
    StepUses(s, a, n);
    forall w | w in n.uploads ensures UploadPlaced(n, w) {
      forall f | f in n.uploads[w].files ensures FilePlaced(n, w, f) {
        if w in s.uploads { StepOnward(s, a, w, f); }
      }
    }
  }

  lemma {:induction false} RunKeepsGood(s: World, actions: seq<Action>)
    requires Good(s)
    ensures Good(Run(s, actions))
    decreases |actions|
  {
    if actions != [] {
      StepKeepsGood(s, actions[0]);
      RunKeepsGood(Next(s, actions[0]), actions[1..]);
    }
  }

  // So in every world any interleaving reaches.
  lemma ReachableIsGood(actions: seq<Action>)
    ensures Good(Run(START, actions))
  {
    RunKeepsGood(START, actions);
  }

  lemma {:induction false} RunOnward(s: World, actions: seq<Action>, w: nat, f: File)
    requires Good(s) && w in s.uploads && f in s.uploads[w].files
    ensures Onward(s, Run(s, actions), w, f)
    decreases |actions|
  {
    if actions != [] {
      var n := Next(s, actions[0]);
      StepOnward(s, actions[0], w, f);
      StepKeepsGood(s, actions[0]);
      RunOnward(n, actions[1..], w, f);
      OnwardOn(s, n, Run(n, actions[1..]), w, f);
    }
  }

  // ---------------------------------------------------------------------------
  // A path that was dealt with since s

  ghost predicate Handled(s: World, n: World, w: nat, f: File, place: Place)
    requires w in s.uploads && w in n.uploads
  {
    match place
    case Quarantine => f !in n.quarantine
    case Destination => f in n.destination ==> MovedSince(s, n, w, f)
  }

  lemma StaysHandled(s: World, m: World, n: World, w: nat, f: File, place: Place)
    requires Onward(s, m, w, f) && Onward(m, n, w, f) && Handled(s, m, w, f, place)
    ensures Handled(s, n, w, f, place)
  {}
}
