/** The parse worker, the activation transaction, reparse, the tombstone and the
    upload dispatcher as they run: statements over the tables, with everybody
    else's transactions in between. What the others do before each statement, which
    statements fail and what parsing yields is given. The trace a method leaves shows
    that its whole execution is a run of the model, so what is proved about runs holds
    of it; and when nobody interferes and nothing fails, it does its work. */
module IngestionProcedures {
  import opened Options
  import opened Ingestion
  import opened IngestionEffects

  lemma {:induction false} RunAppends(s: State, first: seq<Action>, second: seq<Action>, f: File, generation: nat)
    ensures Run(s, first + second) == Run(Run(s, first), second)
    ensures ActivationsOf(s, first + second, f, generation)
         == ActivationsOf(s, first, f, generation) + ActivationsOf(Run(s, first), second, f, generation)
    decreases |first|
  {
    if first == [] {
      assert [] + second == second;
    } else {
      RunAppends(Step(s, first[0]), first[1..], second, f, generation);
      assert (first + second)[1..] == first[1..] + second;
    }
  }

  lemma {:induction false} SentStays(s: State, actions: seq<Action>)
    ensures s.sent <= Run(s, actions).sent && s.events <= Run(s, actions).events
    decreases |actions|
  {
    if actions != [] {
      SentGrows(s, actions[0]);
      SentStays(Step(s, actions[0]), actions[1..]);
    }
  }

  lemma SentGrows(s: State, a: Action)
    ensures s.sent <= Step(s, a).sent && s.events <= Step(s, a).events
  {
    if a.DoActivate? { ActivationFrame(s, a.activation); }
  }

  lemma FreshIdExists(used: set<Id>) returns (id: Id)
    ensures id !in used
  {
    id := 0;
    var rest := used;
    while exists i | i in rest :: i >= id
      invariant forall i | i in used :: i < id || i in rest
      decreases rest
    {
      var i :| i in rest && i >= id;
      id := i + 1;
      rest := rest - {i};
    }
  }

  datatype Parsed = Parsed(checksum: Id, parser: Id)

  // ---------------------------------------------------------------------------
  // What the others may do without being noticed

  predicate TouchesSource(a: Action, f: File) {
    || (a.DoUpload? && a.file == f) || (a.DoClaimParse? && a.file == f) || (a.DoActivate? && a.activation.file == f)
    || (a.DoFailParse? && a.file == f) || (a.DoReparse? && a.file == f) || (a.DoTombstone? && a.file == f)
  }

  predicate TouchesRow(a: Action, e: Event) {
    || (a.DoUpload? && a.file == e.file) || (a.DoReparse? && a.file == e.file)
    || (a.DoClaimOutbox? && e.file in a.files)
    || ((a.DoRenew? || a.DoMarkPublished? || a.DoBackOff?) && a.event.file == e.file && a.event.owner == e.owner)
  }

  predicate LeaveSource(actions: seq<Action>, f: File) {
    actions != [] ==> !TouchesSource(actions[0], f) && LeaveSource(actions[1..], f)
  }

  predicate LeaveRow(actions: seq<Action>, e: Event) {
    actions != [] ==> !TouchesRow(actions[0], e) && LeaveRow(actions[1..], e)
  }

  lemma StepLeavesSource(s: State, a: Action, f: File)
    requires !TouchesSource(a, f) && f in s.sources
    ensures f in Step(s, a).sources && Step(s, a).sources[f] == s.sources[f]
    ensures s.tokens <= Step(s, a).tokens && s.now <= Step(s, a).now
  {
    if OutboxAction(a) {
      OutboxActionsKeepSources(s, a);
      TokensKept(s, a);
    } else if a.DoActivate? {
      ActivationKeepsToken(s, a.activation, f);
    }
  }

  lemma {:induction false} RunLeavesSource(s: State, actions: seq<Action>, f: File)
    requires f in s.sources && LeaveSource(actions, f)
    ensures f in Run(s, actions).sources && Run(s, actions).sources[f] == s.sources[f]
    ensures s.tokens <= Run(s, actions).tokens && s.now <= Run(s, actions).now
    decreases |actions|
  {
    if actions != [] {
      StepLeavesSource(s, actions[0], f);
      RunLeavesSource(Step(s, actions[0]), actions[1..], f);
    }
  }

  lemma StepLeavesRow(s: State, a: Action, e: Event)
    requires !TouchesRow(a, e) && Holds(s, e)
    ensures Holds(Step(s, a), e) && Step(s, a).outbox[e.file] == s.outbox[e.file]
    ensures s.sent <= Step(s, a).sent
  {
    SentGrows(s, a);
    if a.DoClaimParse? || a.DoActivate? || a.DoFailParse? || a.DoTombstone? || a.JobDone? || a.Tick? { SourceActionsFrame(s, a); }
  }

  lemma {:induction false} RunLeavesRow(s: State, actions: seq<Action>, e: Event)
    requires Holds(s, e) && LeaveRow(actions, e)
    ensures Holds(Run(s, actions), e) && Run(s, actions).outbox[e.file] == s.outbox[e.file]
    decreases |actions|
  {
    if actions != [] {
      StepLeavesRow(s, actions[0], e);
      RunLeavesRow(Step(s, actions[0]), actions[1..], e);
    }
  }

  // The attempt holds the file until the given time.
  ghost predicate Attempting(s: State, f: File, project: Id, generation: nat, token: Id, until: Micros) {
    IsHeld(s, f, project, generation, token) && s.sources[f].lease == Some(until)
  }

  // What is parsed is what was uploaded, if that is known.
  ghost predicate Fits(s: State, f: File, parsed: Option<Parsed>) {
    f in s.sources && parsed.Some? && s.sources[f].checksum in {None, Some(parsed.value.checksum)}
  }

  // The outcome of an attempt: done with the parsed document, or failed and free to
  // be taken again.
  ghost predicate Concluded(s: State, f: File, project: Id, generation: nat, parsed: Option<Parsed>, activated: bool) {
    && f in s.sources
    && if activated
       then parsed.Some? && s.sources[f].status == Done && Shown(s, f, Key(parsed.value.checksum, parsed.value.parser))
       else s.sources[f].status == Failed && Takeable(s, f, project, generation)
  }

  // The document with this key is the file's active one.
  ghost predicate Shown(s: State, f: File, key: Key) {
    && f in s.sources && s.sources[f].activeKey == Some(key)
    && exists d :: d in s.documents && IsDocument(s, d, f, key) && s.documents[d].active
  }

  lemma StoreConcludes(m: State, n: State, a: Activation, d: Id)
    requires Activated(m, a, d, n) && MayActivate(m, a)
    ensures Concluded(n, a.file, a.project, a.generation, Some(Parsed(a.checksum, a.parser)), true)
  {
    assert IsDocument(n, d, a.file, Key(a.checksum, a.parser));
  }

  // Taking a file that stayed free.
  lemma TakingWorks(m: State, f: File, project: Id, generation: nat, token: Id)
    requires Takeable(m, f, project, generation) && generation >= 1 && token !in m.tokens
    ensures var n := ClaimParse(m, f, project, generation, token);
      && Attempting(n, f, project, generation, token, m.now + 180_000_000)
      && f in n.sources && n.sources[f].checksum == m.sources[f].checksum && n.now == m.now
  {
    assert Claimable(m, f, project, generation);
  }

  // One process. Before its statement number i the others commit others(i), the
  // statement fails as is given for i, and a parse then yields parses(i).
  class Database {
    var state: State
    var turn: nat
    ghost var trace: seq<Action>
    ghost const origin: State
    const others: nat -> seq<Action>
    const fails: nat -> bool
    const parses: nat -> Option<Parsed>

    constructor (others: nat -> seq<Action>, fails: nat -> bool, parses: nat -> Option<Parsed>)
      ensures state == origin == START && trace == [] && Valid() && turn == 0
      ensures this.others == others && this.fails == fails && this.parses == parses
    {
      state, origin, trace, turn := START, START, [], 0;
      this.others, this.fails, this.parses := others, fails, parses;
    }

    // No statement fails and nobody touches the file's source.
    ghost predicate Smooth(from: nat, to: nat, f: File) {
      forall i: nat | from <= i < to :: !fails(i) && LeaveSource(others(i), f)
    }

    ghost predicate Unclaimed(from: nat, to: nat, e: Event) {
      forall i: nat | from <= i < to :: LeaveRow(others(i), e)
    }

    // The tables are where the recorded run leads.
    ghost predicate Valid()
      reads this
    {
      state == Run(origin, trace) && DocumentsOk(state) && OutboxOk(state)
    }

    ghost predicate Extends(earlier: seq<Action>)
      reads this
    {
      Valid() && earlier <= trace
    }

    // One committed transaction of this process.
    ghost method Commit(a: Action, n: State)
      requires state == n == Step(Run(origin, trace), a)
      requires DocumentsOk(Run(origin, trace)) && OutboxOk(Run(origin, trace))
      modifies this`trace
      ensures Valid() && trace == old(trace) + [a]
    {
      RunAppends(origin, trace, [a], 0, 0);
      assert Run(Step(Run(origin, trace), a), []) == Step(Run(origin, trace), a);
      StepKeepsDocuments(Run(origin, trace), a);
      StepKeepsOutbox(Run(origin, trace), a);
      trace := trace + [a];
    }

    // What the others commit before the next statement.
    method Yield()
      requires Valid()
      modifies this
      ensures Extends(old(trace)) && turn == old(turn) + 1
      ensures trace == old(trace) + others(old(turn)) && state == Run(old(state), others(old(turn)))
    {
      var now := others(turn);
      RunAppends(origin, trace, now, 0, 0);
      RunKeepsDocuments(state, now);
      RunKeepsOutbox(state, now);
      state, turn := Run(state, now), turn + 1;
      trace := trace + now;
    }

    method YieldSource(f: File) returns (ok: bool)
      requires Valid()
      modifies this
      ensures Extends(old(trace)) && turn == old(turn) + 1 && ok == !fails(old(turn))
      ensures f in old(state).sources && Smooth(old(turn), turn, f) ==>
        ok && f in state.sources && state.sources[f] == old(state).sources[f] && state.now >= old(state).now
    {
      ghost var s, now := state, others(turn);
      ok := !fails(turn);
      if f in s.sources && LeaveSource(now, f) { RunLeavesSource(s, now, f); }
      Yield();
    }

    method YieldRow(e: Event) returns (ok: bool)
      requires Valid() && e in state.events
      modifies this
      ensures Extends(old(trace)) && turn == old(turn) + 1 && ok == !fails(old(turn)) && e in state.events
      ensures old(state).sent <= state.sent
      ensures Holds(old(state), e) && Unclaimed(old(turn), turn, e) ==>
        Holds(state, e) && state.outbox[e.file] == old(state).outbox[e.file]
    {
      ghost var s, now := state, others(turn);
      ok := !fails(turn);
      SentStays(s, now);
      if Holds(s, e) && LeaveRow(now, e) { RunLeavesRow(s, now, e); }
      Yield();
    }

    // The conditional UPDATE that takes the attempt.
    method TakeAttempt(f: File, project: Id, generation: nat, token: Id) returns (affected: nat)
      requires generation >= 1 && token !in state.tokens && Valid()
      modifies this`state, this`trace
      ensures Valid() && trace == old(trace) + [DoClaimParse(f, project, generation, token)]
      ensures state == ClaimParse(old(state), f, project, generation, token)
      ensures affected == if Takeable(old(state), f, project, generation) then 1 else 0
    {
      affected := 0;
      if f in state.sources {
        var x := state.sources[f];
        if x.project == project && x.generation == generation
          && (x.status.Pending? || x.status.Failed?
              || (x.status.Parsing? && (x.lease.None? || x.lease.value <= state.now)))
        {
          var taken := x.(status := Parsing, token := Some(token), lease := Some(state.now + PARSE_LEASE));
          state := state.(sources := state.sources[f := taken], tokens := state.tokens + {token});
          affected := 1;
        }
      }
      Commit(DoClaimParse(f, project, generation, token), state);
    }

    // The first document with this file and key, if any.
    method FindOne(f: File, key: Key) returns (found: Option<Id>)
      requires KeysUnique(state)
      ensures found == FindDocument(state, f, key)
      ensures found.Some? ==> IsDocument(state, found.value, f, key)
    {
      FindsDocument(state, f, key);
      found := None;
      var rest := state.documents.Keys;
      while rest != {}
        invariant rest <= state.documents.Keys
        invariant found.Some? ==> IsDocument(state, found.value, f, key)
        invariant found.None? ==> forall d | d in state.documents.Keys - rest :: !IsDocument(state, d, f, key)
        decreases rest
      {
        var d :| d in rest;
        if IsDocument(state, d, f, key) { found := Some(d); }
        rest := rest - {d};
      }
    }

    // UPDATE documents, then chunks, SET is_active = 0 WHERE file_id = f AND is_active.
    method DeactivateFile(f: File)
      modifies this`state
      ensures state == Deactivated(old(state), f)
    {
      state := state.(documents := map d | d in state.documents ::
        if state.documents[d].file == f && state.documents[d].active
        then state.documents[d].(active := false) else state.documents[d]);
      state := state.(chunks := map c | c in state.chunks ::
        if state.chunks[c].file == f && state.chunks[c].active
        then state.chunks[c].(active := false) else state.chunks[c]);
      assert state.documents == Deactivated(old(state), f).documents;
      assert state.chunks == Deactivated(old(state), f).chunks;
    }

    method CompleteAttempt(a: Activation) returns (affected: nat)
      modifies this`state
      ensures affected == if HoldsAttempt(old(state), a.file, a.project, a.generation, a.token) then 1 else 0
      ensures affected == 0 ==> state == old(state)
      ensures affected == 1 ==> a.file in old(state).sources && state == Completed(old(state), a)
    {
      affected := 0;
      if HoldsAttempt(state, a.file, a.project, a.generation, a.token) {
        state := state.(sources := state.sources[a.file := state.sources[a.file].(
          checksum := Some(a.checksum), activeKey := Some(Key(a.checksum, a.parser)),
          status := Done, token := None, lease := None)]);
        affected := 1;
      }
    }

    // The activation transaction: it succeeds exactly for an attempt that still holds
    // the file, and makes the parsed document the active one with its chunks; any
    // refusal rolls back to what was there.
    method Activate(a: Activation) returns (r: Result<Id, Error>)
      requires DocumentsOk(state) && FreshIds(state, a)
      modifies this`state
      ensures r.Ok? <==> MayActivate(old(state), a)
      ensures r.Ok? ==> Activated(old(state), a, r.value, state)
      ensures r.Err? ==> state == old(state) && Some(r.error) == Refusal(old(state), a)
      ensures state == Step(old(state), DoActivate(a)) && (r.Ok? <==> ActivateTx(old(state), a).Ok?)
    {
      ghost var d := ActivationEffects(state, a);
      if a.generation < 1 { return Err(InvalidGeneration); }
      if a.file !in state.sources || state.sources[a.file].project != a.project { return Err(WrongProject); }
      var source := state.sources[a.file];
      if source.generation != a.generation { return Err(StaleGeneration); }
      if !source.status.Parsing? || source.token != Some(a.token) { return Err(StaleAttempt); }
      var leaseActive := source.lease.Some? && source.lease.value > state.now;
      if !leaseActive { return Err(StaleAttempt); }
      if source.checksum.Some? && source.checksum.value != a.checksum { return Err(ChecksumChanged); }

      var key := Key(a.checksum, a.parser);
      var existing := FindOne(a.file, key);
      if existing.Some? {
        var d := existing.value;
        if !state.documents[d].active {
          DeactivateFile(a.file);
          state := state.(documents := state.documents[d := state.documents[d].(active := true)]);
          state := state.(chunks := map c | c in state.chunks ::
            if state.chunks[c].document == d then state.chunks[c].(active := true) else state.chunks[c]);
        }
        var completed := CompleteAttempt(a);
        assert completed == 1; // the row lock taken first makes the refusal here dead code
        return Ok(d);
      }
      DeactivateFile(a.file);
      state := state.(documents := state.documents[a.document := Document(a.file, a.project, key, true)]);
      state := state.(chunks := map c | c in state.chunks.Keys + a.chunks ::
        if c in a.chunks then Chunk(a.file, a.project, a.document, true) else state.chunks[c]);
      var completed := CompleteAttempt(a);
      assert completed == 1;
      return Ok(a.document);
    }

    // The parsed document and its chunks get ids of their own.
    method Store(f: File, project: Id, generation: nat, token: Id, parsed: Parsed)
      returns (r: Result<Id, Error>, a: Activation)
      requires Valid()
      modifies this`state, this`trace
      ensures Valid() && trace == old(trace) + [DoActivate(a)]
      ensures a == Activation(f, project, generation, token, parsed.checksum, parsed.parser, a.document, a.chunks)
      ensures FreshIds(old(state), a) && (r.Ok? <==> MayActivate(old(state), a) && ActivateTx(old(state), a).Ok?)
      ensures if r.Ok? then Activated(old(state), a, r.value, state) else state == old(state)
    {
      ghost var unused := FreshIdExists(state.documents.Keys);
      var document: Id :| document !in state.documents;
      var chunks: set<Id> := *;
      chunks := chunks - state.chunks.Keys;
      a := Activation(f, project, generation, token, parsed.checksum, parsed.parser, document, chunks);
      r := Activate(a);
      Commit(DoActivate(a), state);
    }

    // The catch block's UPDATE, which only the attempt's own token can satisfy.
    method RecordFailure(f: File, project: Id, generation: nat, token: Id)
      requires Valid()
      modifies this`state, this`trace
      ensures Valid() && trace == old(trace) + [DoFailParse(f, project, generation, token)]
      ensures state == FailParse(old(state), f, project, generation, token)
    {
      if HoldsAttempt(state, f, project, generation, token) {
        state := state.(sources := state.sources[f := state.sources[f].(
          status := Failed, token := None, lease := None)]);
      }
      Commit(DoFailParse(f, project, generation, token), state);
    }

    // Parse, activate, and record a failure of either.
    method RunAttempt(f: File, project: Id, generation: nat, token: Id, ghost until: Micros) returns (activated: bool)
      requires Valid() && generation >= 1
      modifies this
      ensures Extends(old(trace)) && turn >= old(turn)
      ensures activated ==> ActivationsOf(Run(origin, old(trace)), trace[|old(trace)|..], f, generation) == 1
      ensures Attempting(old(state), f, project, generation, token, until) && Smooth(old(turn), turn, f) ==>
        && Concluded(state, f, project, generation, parses(old(turn)), activated)
        && (state.now < until ==> (activated <==> Fits(old(state), f, parses(old(turn)))))
    {
      var parsed := parses(turn);
      var ok := YieldSource(f);
      ghost var earlier := trace;
      ghost var a: Activation;
      activated, a := StoreOrFail(f, project, generation, token, if ok then parsed else None, until);
      if activated { Counted(old(trace), earlier, a); }
    }

    method StoreOrFail(f: File, project: Id, generation: nat, token: Id, parsed: Option<Parsed>, ghost until: Micros)
      returns (activated: bool, ghost a: Activation)
      requires Valid() && generation >= 1
      modifies this
      ensures Extends(old(trace)) && turn >= old(turn)
      ensures activated ==> trace == old(trace) + [DoActivate(a)] && a.file == f && a.generation == generation
      ensures activated ==> FreshIds(old(state), a) && ActivateTx(old(state), a).Ok?
      ensures Attempting(old(state), f, project, generation, token, until) && Smooth(old(turn), turn, f) ==>
        && Concluded(state, f, project, generation, parsed, activated)
        && (state.now < until ==> (activated <==> Fits(old(state), f, parsed)))
    {
      activated, a := false, Activation(f, project, generation, token, 0, 0, 0, {});
      if parsed.Some? { activated, a := TryStore(f, project, generation, token, parsed.value, until); }
      if !activated { FailAttempt(f, project, generation, token); }
    }

    method TryStore(f: File, project: Id, generation: nat, token: Id, parsed: Parsed, ghost until: Micros)
      returns (activated: bool, ghost a: Activation)
      requires Valid() && generation >= 1
      modifies this`state, this`trace
      ensures Valid() && trace == old(trace) + [DoActivate(a)] && a.file == f && a.generation == generation
      ensures activated ==> FreshIds(old(state), a) && ActivateTx(old(state), a).Ok?
      ensures activated ==> Concluded(state, f, project, generation, Some(parsed), true)
      ensures !activated ==> state == old(state)
      ensures state.now == old(state).now
      ensures Attempting(old(state), f, project, generation, token, until) ==>
        (activated <==> Fits(old(state), f, Some(parsed)) && old(state).now < until)
    {
      ghost var m := state;
      var r, stored := Store(f, project, generation, token, parsed);
      activated, a := r.Ok?, stored;
      if activated { StoreConcludes(m, state, a, r.value); }
    }

    // The catch block.
    method FailAttempt(f: File, project: Id, generation: nat, token: Id)
      requires Valid()
      modifies this
      ensures Extends(old(trace)) && turn == old(turn) + 1
      ensures IsHeld(old(state), f, project, generation, token) && Smooth(old(turn), turn, f) ==>
        && f in state.sources && state.sources[f].status == Failed && Takeable(state, f, project, generation)
        && state.now >= old(state).now
    {
      var ok := YieldSource(f);
      FailureFrees(state, f, project, generation, token);
      if ok { RecordFailure(f, project, generation, token); }
    }

    // handleParse: look, take the attempt, run it. A worker that reports success
    // made the only activation of its generation. If the file is free, nobody touches
    // it and nothing fails, the worker takes it and concludes; within its lease it
    // activates exactly what fits.
    method HandleParse(f: File, project: Id, generation: nat) returns (activated: bool)
      requires Valid()
      modifies this
      ensures Extends(old(trace)) && turn >= old(turn)
      ensures activated ==> ActivationsOf(Run(origin, old(trace)), trace[|old(trace)|..], f, generation) == 1
      ensures Free(old(state), f, project, generation) && Smooth(old(turn), turn, f) ==>
        && Concluded(state, f, project, generation, parses(old(turn) + 1), activated)
        && (state.now < old(state).now + 180_000_000 ==> (activated <==> Fits(old(state), f, parses(old(turn) + 1))))
    {
      activated := false;
      if generation < 1 || f !in state.sources { return; }
      var file := state.sources[f];
      if file.project != project || file.generation != generation || file.status.Done? || file.deleted { return; }
      ghost var start := state;
      var token, claimed := Take(f, project, generation);
      if !claimed { return; }
      ghost var earlier := trace;
      activated := RunAttempt(f, project, generation, token, if f in state.sources && state.sources[f].lease.Some? then state.sources[f].lease.value else 0);
      if activated { CountedFromStart(old(trace), earlier, trace, f, generation); }
    }

    // The file waits for this generation to be parsed.
    ghost predicate Free(s: State, f: File, project: Id, generation: nat) {
      generation >= 1 && Takeable(s, f, project, generation) && !s.sources[f].deleted
    }

    method Take(f: File, project: Id, generation: nat) returns (token: Id, claimed: bool)
      requires Valid() && generation >= 1
      modifies this
      ensures Extends(old(trace)) && turn == old(turn) + 1
      ensures Takeable(old(state), f, project, generation) && Smooth(old(turn), turn, f) ==> claimed
      ensures claimed && Takeable(old(state), f, project, generation) && Smooth(old(turn), turn, f) ==>
        && Attempting(state, f, project, generation, token, state.now + 180_000_000)
        && state.now >= old(state).now && state.sources[f].checksum == old(state).sources[f].checksum
    {
      var ok := YieldSource(f);
      claimed, token := false, 0;
      if ok { token, claimed := TakeFresh(f, project, generation); }
    }

    method TakeFresh(f: File, project: Id, generation: nat) returns (token: Id, claimed: bool)
      requires Valid() && generation >= 1
      modifies this`state, this`trace
      ensures Extends(old(trace)) && (claimed <==> Takeable(old(state), f, project, generation))
      ensures claimed ==>
        && Attempting(state, f, project, generation, token, old(state).now + 180_000_000)
        && state.now == old(state).now && state.sources[f].checksum == old(state).sources[f].checksum
    {
      ghost var unused := FreshIdExists(state.tokens);
      token :| token !in state.tokens;
      if Takeable(state, f, project, generation) { TakingWorks(state, f, project, generation, token); }
      var affected := TakeAttempt(f, project, generation, token);
      claimed := affected == 1;
    }

    lemma CountedFromStart(started: seq<Action>, earlier: seq<Action>, all: seq<Action>, f: File, generation: nat)
      requires started <= earlier <= all
      requires ActivationsOf(Run(origin, earlier), all[|earlier|..], f, generation) == 1
      ensures ActivationsOf(Run(origin, started), all[|started|..], f, generation) == 1
    {
      var between := earlier[|started|..];
      assert all[|started|..] == between + all[|earlier|..];
      assert started + between == earlier;
      RunAppends(origin, started, between, f, generation);
      RunAppends(Run(origin, started), between, all[|earlier|..], f, generation);
      AtMostOneActivation(Run(origin, started), all[|started|..], f, generation);
    }

    lemma Counted(started: seq<Action>, earlier: seq<Action>, a: Activation)
      requires started <= earlier
      requires FreshIds(Run(origin, earlier), a) && ActivateTx(Run(origin, earlier), a).Ok?
      ensures ActivationsOf(Run(origin, started), (earlier + [DoActivate(a)])[|started|..], a.file, a.generation) == 1
    {
      var own := [DoActivate(a)];
      assert Activates(Run(origin, earlier), own[0], a.file, a.generation);
      assert own[1..] == [];
      assert (earlier + own)[|earlier|..] == own;
      assert ActivationsOf(Run(origin, earlier), own, a.file, a.generation) == 1;
      CountedFromStart(started, earlier, earlier + own, a.file, a.generation);
    }

    // A new generation: the source goes back to pending and its outbox row restarts.
    method ReparseFile(f: File, project: Id) returns (ok: bool)
      requires Valid()
      modifies this`state, this`trace
      ensures Valid() && trace == old(trace) + [DoReparse(f, project)]
      ensures state == ReparseTx(old(state), f, project)
      ensures ok <==> f in old(state).sources && old(state).sources[f].project == project
    {
      ok := f in state.sources && state.sources[f].project == project;
      if ok {
        var current := state.sources[f].generation;
        state := state.(sources := state.sources[f := state.sources[f].(
          generation := current + 1, status := Pending, token := None, lease := None)]);
        var event := Row(current + 1, Reparse(f, current + 1), false, None, 0, state.now);
        state := state.(outbox := state.outbox[f := event]); // insert or update
      }
      Commit(DoReparse(f, project), state);
    }

    // The three updates of the broker's deletion of a source.
    method Tombstone(f: File, project: Id) returns (ok: bool)
      requires Valid()
      modifies this`state, this`trace
      ensures Valid() && trace == old(trace) + [DoTombstone(f, project)]
      ensures state == TombstoneTx(old(state), f, project)
      ensures ok <==> f in old(state).sources && old(state).sources[f].project == project && !old(state).sources[f].deleted
    {
      ok := f in state.sources && state.sources[f].project == project && !state.sources[f].deleted;
      if ok {
        state := state.(sources := state.sources[f := state.sources[f].(
          deleted := true, activeKey := None, token := None, lease := None)]);
        state := state.(documents := map d | d in state.documents ::
          if state.documents[d].file == f && state.documents[d].project == project
          then state.documents[d].(active := false) else state.documents[d]);
        state := state.(chunks := map c | c in state.chunks ::
          if state.chunks[c].file == f && state.chunks[c].project == project
          then state.chunks[c].(active := false) else state.chunks[c]);
      }
      Commit(DoTombstone(f, project), state);
    }

    method RenewClaim(e: Event) returns (affected: nat)
      requires Valid()
      modifies this`state, this`trace
      ensures Valid() && trace == old(trace) + [DoRenew(e)] && state == Step(old(state), DoRenew(e))
      ensures affected == if Holds(old(state), e) then 1 else 0
    {
      affected := 0;
      if Holds(state, e) {
        state := state.(outbox := state.outbox[e.file := state.outbox[e.file].(expires := state.now + CLAIM_LEASE)]);
        affected := 1;
      }
      Commit(DoRenew(e), state);
    }

    method AddJob(e: Event)
      requires Valid() && e in state.events
      modifies this`state, this`trace
      ensures Valid() && trace == old(trace) + [DoEnqueue(e)] && e in state.sent && state == Step(old(state), DoEnqueue(e))
    {
      if e.job !in state.queue {
        state := state.(queue := state.queue[e.job := Job(e.file, e.generation)],
          enqueued := state.enqueued + {Job(e.file, e.generation)});
      }
      state := state.(sent := state.sent + {e});
      Commit(DoEnqueue(e), state);
    }

    method CompletePublish(e: Event) returns (affected: nat)
      requires Valid() && e in state.sent
      modifies this`state, this`trace
      ensures e in state.sent && e in state.events && Job(e.file, e.generation) in state.enqueued
      ensures Valid() && trace == old(trace) + [DoMarkPublished(e)]
      ensures affected == if Holds(old(state), e) then 1 else 0
      ensures affected == 1 ==>
        e.file in state.outbox && state.outbox[e.file].published && state.outbox[e.file].owner.None?
    {
      affected := 0;
      if Holds(state, e) {
        state := state.(outbox := state.outbox[e.file := state.outbox[e.file].(published := true, owner := None)]);
        affected := 1;
      }
      Commit(DoMarkPublished(e), state);
    }

    method BackOffClaim(e: Event, delay: Micros)
      requires Valid()
      modifies this`state, this`trace
      ensures Valid() && trace == old(trace) + [DoBackOff(e, delay)] && state == Step(old(state), DoBackOff(e, delay))
    {
      if Holds(state, e) {
        state := state.(outbox := state.outbox[e.file := state.outbox[e.file].(
          owner := None, nextAttempt := state.now + delay)]);
      }
      Commit(DoBackOff(e, delay), state);
    }

    // Nobody takes the row and no statement fails.
    ghost predicate Unhindered(from: nat, to: nat, e: Event) {
      Unclaimed(from, to, e) && forall i: nat | from <= i < to :: !fails(i)
    }

    ghost predicate IsPublished(s: State, e: Event) {
      e.file in s.outbox && s.outbox[e.file].published && s.outbox[e.file].owner.None?
    }

    // One claimed row of dispatchClaimed: renew, publish, complete, or back off.
    // Even a dispatcher that lost its lease has left a job behind. One whose row
    // nobody takes publishes it unless a statement fails, and otherwise gives it back.
    method PublishOne(e: Event) returns (published: bool)
      requires Valid() && e in state.events
      modifies this
      ensures Extends(old(trace)) && turn > old(turn)
      ensures published ==> Job(e.file, e.generation) in state.enqueued
      ensures Holds(old(state), e) && Unhindered(old(turn), turn, e) ==> published && IsPublished(state, e)
      ensures Holds(old(state), e) && Unclaimed(old(turn), turn, e) && !published && !fails(turn - 1) ==>
        e.file in state.outbox && state.outbox[e.file].owner.None?
    {
      var ok, renewed := RenewRow(e);
      ghost var mid := turn;
      if ok && !renewed { return false; }
      published := PublishOrBackOff(e, ok);
      Parts(old(turn), mid, turn, e);
    }

    lemma Parts(from: nat, mid: nat, to: nat, e: Event)
      requires from <= mid <= to
      ensures Unclaimed(from, to, e) ==> Unclaimed(from, mid, e) && Unclaimed(mid, to, e)
      ensures Unhindered(from, to, e) ==> Unhindered(from, mid, e) && Unhindered(mid, to, e)
    {}

    method PublishOrBackOff(e: Event, renewed: bool) returns (published: bool)
      requires Valid() && e in state.events && (renewed ==> Holds(state, e))
      modifies this
      ensures Extends(old(trace)) && turn > old(turn)
      ensures published ==> Job(e.file, e.generation) in state.enqueued
      ensures renewed && Unhindered(old(turn), turn, e) ==> published
      ensures published && Unhindered(old(turn), turn, e) ==> IsPublished(state, e)
      ensures Holds(old(state), e) && Unclaimed(old(turn), turn, e) && !published && !fails(turn - 1) ==>
        e.file in state.outbox && state.outbox[e.file].owner.None?
    {
      published := PublishIf(e, renewed);
      if published { return; }
      GiveBack(e, Holds(old(state), e), old(turn));
      if renewed { FailureHinders(old(turn), turn, e); }
    }

    method GiveBack(e: Event, ghost held: bool, ghost from: nat)
      requires Valid() && e in state.events && from <= turn && (held && Unclaimed(from, turn, e) ==> Holds(state, e))
      modifies this
      ensures Extends(old(trace)) && turn == old(turn) + 1
      ensures held && Unclaimed(from, turn, e) && !fails(old(turn)) ==>
        e.file in state.outbox && state.outbox[e.file].owner.None?
    {
      BackOffEvent(e);
      Parts(from, old(turn), turn, e);
    }

    lemma FailureHinders(from: nat, to: nat, e: Event)
      requires from < to && fails(from)
      ensures !Unhindered(from, to, e)
    {}

    method PublishIf(e: Event, renewed: bool) returns (published: bool)
      requires Valid() && e in state.events && (renewed ==> Holds(state, e))
      modifies this
      ensures Extends(old(trace)) && turn >= old(turn) && e in state.events
      ensures published ==> Job(e.file, e.generation) in state.enqueued && turn > old(turn)
      ensures renewed && Unhindered(old(turn), turn, e) ==> published
      ensures published && Unhindered(old(turn), turn, e) ==> IsPublished(state, e)
      ensures Holds(old(state), e) && Unclaimed(old(turn), turn, e) && !published ==> Holds(state, e)
      ensures renewed && !published ==> old(turn) < turn && fails(old(turn))
    {
      published := false;
      if renewed { published := Publish(e); }
    }

    method RenewRow(e: Event) returns (ok: bool, renewed: bool)
      requires Valid() && e in state.events
      modifies this
      ensures Extends(old(trace)) && turn == old(turn) + 1 && e in state.events && ok == !fails(old(turn))
      ensures renewed ==> Holds(state, e)
      ensures Holds(old(state), e) && Unclaimed(old(turn), turn, e) ==> Holds(state, e) && (ok ==> renewed)
    {
      renewed := false;
      ok := YieldRow(e);
      if ok {
        var affected := RenewClaim(e);
        renewed := affected == 1;
      }
    }

    method Publish(e: Event) returns (published: bool)
      requires Valid() && Holds(state, e)
      modifies this
      ensures Extends(old(trace)) && turn > old(turn) && e in state.events
      ensures published ==> Job(e.file, e.generation) in state.enqueued
      ensures Unhindered(old(turn), turn, e) ==> published && IsPublished(state, e)
      ensures Unclaimed(old(turn), turn, e) && !published ==> Holds(state, e)
      ensures !published ==> fails(old(turn)) && turn == old(turn) + 1
    {
      published := YieldRow(e);
      if published { Deliver(e); }
    }

    method BackOffEvent(e: Event)
      requires Valid() && e in state.events
      modifies this
      ensures Extends(old(trace)) && turn == old(turn) + 1
      ensures Holds(old(state), e) && Unclaimed(old(turn), turn, e) && !fails(old(turn)) ==>
        e.file in state.outbox && state.outbox[e.file].owner.None?
    {
      var ok := YieldRow(e);
      var delay: Micros := *;
      if ok { BackOffClaim(e, delay); }
    }

    method Deliver(e: Event)
      requires Valid() && e in state.events
      modifies this
      ensures Extends(old(trace)) && Job(e.file, e.generation) in state.enqueued && turn == old(turn) + 1 && e in state.events
      ensures Holds(old(state), e) && Unhindered(old(turn), turn, e) ==> IsPublished(state, e)
    {
      AddJob(e);
      var ok := YieldRow(e);
      if ok {
        var completed := CompletePublish(e);
      }
    }
  }
}
