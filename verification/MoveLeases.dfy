/** How long an intent is out of reach of other dispatchers: a writer's lease, a
    dispatcher's lease, the grace of an uncertain commit and the delay of a back-off,
    each over any run, and to the microsecond. */
module MoveLeases {
  import opened Options
  import opened MoveRecovery
  import opened MoveSafety
  import opened MovePaths
  import opened MoveCalm

  // The row cannot be claimed before the given time, which is as far ahead as a lease
  // of its owner, or a grace, may be.
  predicate Guarded(i: Intent, now: Micros, until: Micros) {
    || (i.status.Rejected? && until <= now + 300_000_000)
    || (&& ((i.owner.Some? && i.expires >= until) || i.recoverAfter >= until || i.nextAttempt >= until)
        && match i.owner
           case None => until <= now + 300_000_000
           case Some(Writer(_)) => until <= now + 120_000_000
           case Some(Dispatcher(_)) => until <= now + 60_000_000)
  }

  predicate RowGuarded(s: World, f: File, until: Micros) {
    if f in s.intents then Guarded(s.intents[f], s.now, until) else until <= s.now + 300_000_000
  }

  // Its owner gives it back.
  predicate GivesBack(s: World, a: Action, f: File) {
    a.BackOff? && TaskOwns(s, a.t) && s.tasks[a.t].file == f
  }

  predicate Reachable(s: World, f: File) {
    exists kind :: Claimable(s, f, kind)
  }

  // Nothing but a back-off frees a guarded row before its time: renewals and an
  // uncertain commit only guard it longer, and a deleted row stays away.
  lemma WritersKeepGuard(s: World, a: Action, w: nat, f: File, until: Micros)
    requires Inv(s) && Enabled(s, a) && ByWriter(a) && w in s.uploads && f in s.uploads[w].inserted && RowGuarded(s, f, until)
    ensures RowGuarded(Next(s, a), f, until) && Next(s, a).now == s.now
    ensures w in Next(s, a).uploads && f in Next(s, a).uploads[w].inserted
  {
    assert UploadOk(s, w);
    WritersKeepTime(s, a);
    if a.w != w {
      OtherWriterLeaves(s, a, Next(s, a), w);
      assert Untouched(s, Next(s, a), f);
    } else {
      OwnWriterKeepsGuard(s, a, f, until);
    }
  }

  lemma WritersKeepTime(s: World, a: Action)
    requires Enabled(s, a) && ByWriter(a)
    ensures NextWriter(s, a).now == s.now
  {}

  lemma OwnWriterKeepsGuard(s: World, a: Action, f: File, until: Micros)
    requires Enabled(s, a) && ByWriter(a) && RowGuarded(s, f, until)
    requires a.w in s.uploads && f in s.uploads[a.w].inserted
    ensures RowGuarded(NextWriter(s, a), f, until) && f in NextWriter(s, a).uploads[a.w].inserted
  {}

  lemma TasksKeepGuard(s: World, a: Action, f: File, until: Micros)
    requires Enabled(s, a) && !ByWriter(a) && RowGuarded(s, f, until) && s.now < until && !GivesBack(s, a, f)
    ensures RowGuarded(NextTask(s, a), f, until) && NextTask(s, a).now >= s.now && NextTask(s, a).uploads == s.uploads
  {}

  // Some step of the run gives the row back.
  ghost predicate GivenBack(s: World, actions: seq<Action>, f: File)
    decreases |actions|
  {
    actions != [] && (GivesBack(s, actions[0], f) || GivenBack(Next(s, actions[0]), actions[1..], f))
  }

  lemma GuardedIsOutOfReach(s: World, f: File, until: Micros)
    requires RowGuarded(s, f, until) && s.now < until
    ensures !Reachable(s, f)
  {}

  lemma StepKeepsGuard(s: World, a: Action, w: nat, f: File, until: Micros)
    requires Inv(s) && w in s.uploads && f in s.uploads[w].inserted && RowGuarded(s, f, until)
    requires s.now < until && !GivesBack(s, a, f)
    ensures RowGuarded(Next(s, a), f, until) && Next(s, a).now >= s.now
    ensures w in Next(s, a).uploads && f in Next(s, a).uploads[w].inserted
  {
    if Enabled(s, a) {
      if ByWriter(a) { WritersKeepGuard(s, a, w, f, until); } else { TasksKeepGuard(s, a, f, until); }
    }
  }

  lemma TimePasses(s: World, a: Action)
    ensures Next(s, a).now >= s.now
  {
    if Enabled(s, a) && ByWriter(a) { WritersKeepTime(s, a); }
  }

  lemma {:induction false} RunTime(s: World, actions: seq<Action>)
    ensures Run(s, actions).now >= s.now
    decreases |actions|
  {
    if actions != [] {
      TimePasses(s, actions[0]);
      RunTime(Next(s, actions[0]), actions[1..]);
    }
  }

  // Until its time nobody can claim a guarded row that is not given back, in any
  // continuation.
  lemma {:induction false} GuardHolds(s: World, actions: seq<Action>, w: nat, f: File, until: Micros)
    requires Inv(s) && w in s.uploads && f in s.uploads[w].inserted && RowGuarded(s, f, until)
    requires !GivenBack(s, actions, f) && Run(s, actions).now < until
    ensures !Reachable(Run(s, actions), f)
    decreases |actions|
  {
    if actions == [] {
      GuardedIsOutOfReach(s, f, until);
    } else {
      RunTime(s, actions);
      StepKeepsInv(s, actions[0]);
      StepKeepsGuard(s, actions[0], w, f, until);
      GuardHolds(Next(s, actions[0]), actions[1..], w, f, until);
    }
  }

  lemma HoldsUntil(n: World, actions: seq<Action>, f: File, until: Micros)
    requires Inv(n) && f in n.intents && Guarded(n.intents[f], n.now, until) && !GivenBack(n, actions, f)
    ensures Run(n, actions).now < until ==> !Reachable(Run(n, actions), f)
  {
    var w := n.intents[f].writer;
    assert IntentOk(n, f) && UploadOk(n, w);
    if Run(n, actions).now < until { GuardHolds(n, actions, w, f, until); }
  }

  // With nobody acting it is claimed exactly from its time on.
  ghost predicate FreeFrom(s: World, f: File, until: Micros) {
    f in s.intents && forall now: Micros :: Reachable(s.(now := now), f) <==> now >= until
  }

  lemma FreeFromIs(s: World, f: File, until: Micros)
    requires f in s.intents && f !in s.locks && !s.intents[f].status.Rejected?
    requires forall now: Micros ::
      Claimable(s.(now := now), f, s.intents[f].status) <==> now >= until
    ensures FreeFrom(s, f, until)
  {
    forall now: Micros ensures Reachable(s.(now := now), f) <==> now >= until {
      if now >= until { assert Claimable(s.(now := now), f, s.intents[f].status); }
    }
  }

  // A writer's insert or renewal keeps its files' intents for 120 seconds.
  lemma WriterLease(s: World, a: Action, f: File, actions: seq<Action>)
    requires Good(s) && Enabled(s, a) && (a.InsertIntent? || a.RenewWriter?) && WriterOwns(Next(s, a), a.w, f)
    requires a.InsertIntent? ==> a.f == f
    requires !GivenBack(Next(s, a), actions, f)
    ensures var n, end := Next(s, a), s.now + 120_000_000;
      && (Run(n, actions).now < end ==> !Reachable(Run(n, actions), f))
      && (n.intents[f].nextAttempt <= end && f !in n.locks ==> FreeFrom(n, f, end))
  {
    var n, end := Next(s, a), s.now + 120_000_000;
    StepKeepsInv(s, a);
    WriterLeaseRow(s, a, f);
    HoldsUntil(n, actions, f, end);
    if n.intents[f].nextAttempt <= end && f !in n.locks { FreeFromIs(n, f, end); }
  }

  lemma WriterLeaseRow(s: World, a: Action, f: File)
    requires Good(s) && Enabled(s, a) && (a.InsertIntent? || a.RenewWriter?) && WriterOwns(Next(s, a), a.w, f)
    requires a.InsertIntent? ==> a.f == f
    ensures var i := Next(s, a).intents[f];
      i.expires == i.recoverAfter == s.now + 120_000_000 && i.status.Active? && Next(s, a).now == s.now
  {
    if a.RenewWriter? {
      assert UploadOk(s, a.w);
      assert f in s.intents ==> IntentOk(s, f);
    }
  }

  // A dispatcher's claim or renewal keeps the intent for 60 seconds.
  lemma DispatcherLease(s: World, a: Action, t: nat, actions: seq<Action>)
    requires Good(s) && Enabled(s, a) && (a.ClaimRow? || a.RenewTask? || a.RenewForUnlink?) && a.t == t
    requires TaskOwns(Next(s, a), t)
    requires !GivenBack(Next(s, a), actions, Next(s, a).tasks[t].file)
    ensures var n, end := Next(s, a), s.now + 60_000_000;
      var f := n.tasks[t].file;
      && (Run(n, actions).now < end ==> !Reachable(Run(n, actions), f))
      && (n.intents[f].nextAttempt <= end && n.intents[f].recoverAfter <= end && !n.intents[f].status.Rejected? ==>
            FreeFrom(n, f, end))
  {
    var n, end := Next(s, a), s.now + 60_000_000;
    var f := n.tasks[t].file;
    StepKeepsInv(s, a);
    DispatcherLeaseRow(s, a, t);
    OwnedIsUnlocked(n, t);
    HoldsUntil(n, actions, f, end);
    if n.intents[f].nextAttempt <= end && n.intents[f].recoverAfter <= end && !n.intents[f].status.Rejected? {
      FreeFromIs(n, f, end);
    }
  }

  lemma DispatcherLeaseRow(s: World, a: Action, t: nat)
    requires Enabled(s, a) && (a.ClaimRow? || a.RenewTask? || a.RenewForUnlink?) && a.t == t && TaskOwns(Next(s, a), t)
    ensures Next(s, a).intents[Next(s, a).tasks[t].file].expires == s.now + 60_000_000 && Next(s, a).now == s.now
  {}

  // An uncertain commit leaves its intents alone for 300 seconds.
  lemma UncertainGrace(s: World, w: nat, f: File, actions: seq<Action>)
    requires Good(s) && Enabled(s, UpsertUncertain(w)) && f in s.uploads[w].files
    requires !GivenBack(Next(s, UpsertUncertain(w)), actions, f)
    ensures var n, end := Next(s, UpsertUncertain(w)), s.now + 300_000_000;
      (Run(n, actions).now < end ==> !Reachable(Run(n, actions), f)) && FreeFrom(n, f, end)
  {
    var n, end := Next(s, UpsertUncertain(w)), s.now + 300_000_000;
    StepKeepsInv(s, UpsertUncertain(w));
    HoldsUntil(n, actions, f, end);
    FreeFromIs(n, f, end);
  }

  // An intent that is backed off waits for its delay.
  lemma BackOffDelay(s: World, t: nat, delay: Micros, actions: seq<Action>)
    requires Good(s) && Enabled(s, BackOff(t, delay)) && TaskOwns(s, t) && delay <= 300_000_000
    requires !GivenBack(Next(s, BackOff(t, delay)), actions, s.tasks[t].file)
    ensures var n, end, f := Next(s, BackOff(t, delay)), s.now + delay, s.tasks[t].file;
      && (Run(n, actions).now < end ==> !Reachable(Run(n, actions), f))
      && (n.intents[f].recoverAfter <= end && !n.intents[f].status.Rejected? ==> FreeFrom(n, f, end))
  {
    var n, end, f := Next(s, BackOff(t, delay)), s.now + delay, s.tasks[t].file;
    StepKeepsInv(s, BackOff(t, delay));
    HoldsUntil(n, actions, f, end);
    if n.intents[f].recoverAfter <= end && !n.intents[f].status.Rejected? { FreeFromIs(n, f, end); }
  }
}
