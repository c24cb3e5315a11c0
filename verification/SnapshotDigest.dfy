/** The digests that pin a grounding assignment: the hash of a canonical text of
    every field of every piece of evidence. With a hash without collisions the
    digest forgets the order of run references and evidence, and nothing else. */
module SnapshotDigest {
  import opened Options
  import opened Bags
  import opened StableSort
  import opened Serialiser
  import opened CanonicalJson

  // A nullable number; Number(...) of a bad column is NotFinite.
  datatype Number = Absent | NotFinite | Finite(numeral: string)
  datatype PerStage = PerStage(sparse: Number, dense: Number, fusion: Number, rerank: Number)

  datatype Evidence = Evidence(
    evidenceId: string, chunkId: string, projectId: string, fileId: string, documentId: string,
    retrievalRunId: string, ingestionKey: Option<string>, content: string, spanText: string,
    chunkStart: Number, spanStart: Number, spanEnd: Number, rank: Number, scores: PerStage, ranks: PerStage,
    pageStart: Number, pageEnd: Number, headingPath: seq<string>, indexSnapshot: Json)

  // The run states are the entries of a map, in its insertion order.
  datatype RunState = RunState(run: string, state: string)
  datatype Assignment = Assignment(
    contractVersion: string, retrievalRunId: string, state: string, runRefs: seq<string>,
    runStates: seq<RunState>, strictMode: bool, evidenceIds: seq<string>, evidence: seq<Evidence>)

  type Hash = string -> string

  // ---------------------------------------------------------------------------
  // The digests

  function OfNumber(n: Number): Json {
    match n
    case Absent => Null
    case NotFinite => NonFinite
    case Finite(x) => Num(x)
  }

  function OfOption(s: Option<string>): Json {
    match s
    case None => Null
    case Some(x) => Str(x)
  }

  function Strings(xs: seq<string>): seq<Json> {
    seq(|xs|, k requires 0 <= k < |xs| => Str(xs[k]))
  }

  // An object literal with these keys.
  function Record(keys: seq<string>, values: seq<Json>): Json
    requires |keys| == |values|
  {
    Obj(Zip(keys, values))
  }

  function Zip(keys: seq<string>, values: seq<Json>): seq<Entry<Json>>
    requires |keys| == |values|
  {
    seq(|keys|, k requires 0 <= k < |keys| => Entry(keys[k], values[k]))
  }

  const STAGE_KEYS := ["sparse", "dense", "fusion", "rerank"]

  function StageValues(p: PerStage): seq<Json> {
    [OfNumber(p.sparse), OfNumber(p.dense), OfNumber(p.fusion), OfNumber(p.rerank)]
  }

  const EVIDENCE_KEYS := [
    "evidence_id", "chunk_id", "project_id", "file_id", "document_id", "retrieval_run_id", "ingestion_key",
    "content", "exact_span_text", "chunk_char_start", "exact_span_document_start", "exact_span_document_end",
    "candidate_rank", "scores", "ranks", "page_start", "page_end", "heading_path", "index_snapshot"]

  function EvidenceValues(e: Evidence): seq<Json> {
    TextValues(e) + PlaceValues(e) + SourceValues(e)
  }

  function TextValues(e: Evidence): seq<Json> {
    [Str(e.evidenceId), Str(e.chunkId), Str(e.projectId), Str(e.fileId), Str(e.documentId),
     Str(e.retrievalRunId), OfOption(e.ingestionKey), Str(e.content), Str(e.spanText)]
  }

  function PlaceValues(e: Evidence): seq<Json> {
    [OfNumber(e.chunkStart), OfNumber(e.spanStart), OfNumber(e.spanEnd), OfNumber(e.rank)]
  }

  function SourceValues(e: Evidence): seq<Json> {
    [Record(STAGE_KEYS, StageValues(e.scores)), Record(STAGE_KEYS, StageValues(e.ranks)),
     OfNumber(e.pageStart), OfNumber(e.pageEnd), Arr(Strings(e.headingPath)), e.indexSnapshot]
  }

  function EvidenceDigest(collation: Order<string>, hash: Hash, e: Evidence): string {
    hash(StableJson(collation, Record(EVIDENCE_KEYS, EvidenceValues(e))))
  }

  function Itself(s: string): string { s }
  function RunOfState(s: RunState): string { s.run }
  function IdOf(e: Evidence): string { e.evidenceId }

  const ASSIGNMENT_KEYS := [
    "contract_version", "retrieval_run_id", "retrieval_state", "retrieval_run_refs",
    "retrieval_run_states", "strict_mode", "evidence_ids", "evidence"]

  function StateItems(xs: seq<RunState>): seq<Json> {
    seq(|xs|, k requires 0 <= k < |xs| => Arr([Str(xs[k].run), Str(xs[k].state)]))
  }

  function Digests(collation: Order<string>, hash: Hash, es: seq<Evidence>): seq<string> {
    seq(|es|, k requires 0 <= k < |es| => EvidenceDigest(collation, hash, es[k]))
  }

  function AssignmentValues(collation: Order<string>, units: Order<string>, hash: Hash, a: Assignment): seq<Json> {
    [Str(a.contractVersion), Str(a.retrievalRunId), Str(a.state),
     Arr(Strings(Sort(units, Itself, a.runRefs))),
     Arr(StateItems(Sort(collation, RunOfState, a.runStates))),
     Bool(a.strictMode),
     Arr(Strings(Sort(units, Itself, a.evidenceIds))),
     Arr(Strings(Digests(collation, hash, Sort(collation, IdOf, a.evidence))))]
  }

  // collation is localeCompare, units the order of UTF-16 code units.
  function AssignmentDigest(collation: Order<string>, units: Order<string>, hash: Hash, a: Assignment): string {
    hash(StableJson(collation, Record(ASSIGNMENT_KEYS, AssignmentValues(collation, units, hash, a))))
  }

  // ---------------------------------------------------------------------------
  // Permuting changes nothing

  ghost predicate Antisymmetric(leq: Order<string>) {
    forall a, b :: Tied(leq, a, b) ==> a == b
  }

  lemma StringsDoNotTie(units: Order<string>, xs: multiset<string>)
    requires Antisymmetric(units)
    ensures NoTies(units, Itself, xs)
  {}

  ghost predicate Permuted(a: Assignment, b: Assignment) {
    && b == a.(runRefs := b.runRefs, runStates := b.runStates, evidenceIds := b.evidenceIds, evidence := b.evidence)
    && multiset(a.runRefs) == multiset(b.runRefs) && multiset(a.runStates) == multiset(b.runStates)
    && multiset(a.evidenceIds) == multiset(b.evidenceIds) && multiset(a.evidence) == multiset(b.evidence)
  }

  // Run references, run states, evidence ids and evidence may come in any order.
  lemma PermutingKeepsDigest(collation: Order<string>, units: Order<string>, hash: Hash, a: Assignment, b: Assignment)
    requires TotalOrder(collation) && TotalOrder(units) && Antisymmetric(units)
    requires Permuted(a, b)
    requires NoTies(collation, RunOfState, multiset(a.runStates)) && NoTies(collation, IdOf, multiset(a.evidence))
    ensures AssignmentDigest(collation, units, hash, a) == AssignmentDigest(collation, units, hash, b)
  {
    StringsDoNotTie(units, multiset(a.runRefs));
    StringsDoNotTie(units, multiset(a.evidenceIds));
    SortIgnoresOrder(units, Itself, a.runRefs, b.runRefs);
    SortIgnoresOrder(units, Itself, a.evidenceIds, b.evidenceIds);
    SortIgnoresOrder(collation, RunOfState, a.runStates, b.runStates);
    SortIgnoresOrder(collation, IdOf, a.evidence, b.evidence);
  }

  // ---------------------------------------------------------------------------
  // Equal digests mean equal snapshots

  ghost predicate Collisionless(hash: Hash) {
    forall x, y :: hash(x) == hash(y) ==> x == y
  }

  predicate NumberOk(n: Number) {
    n.Finite? ==> Numeral(n.numeral)
  }

  predicate StagesOk(p: PerStage) {
    NumberOk(p.sparse) && NumberOk(p.dense) && NumberOk(p.fusion) && NumberOk(p.rerank)
  }

  predicate EvidenceOk(e: Evidence) {
    && NumberOk(e.chunkStart) && NumberOk(e.spanStart) && NumberOk(e.spanEnd) && NumberOk(e.rank)
    && StagesOk(e.scores) && StagesOk(e.ranks) && NumberOk(e.pageStart) && NumberOk(e.pageEnd)
    && WellFormed(e.indexSnapshot)
  }

  predicate AllOk(es: seq<Evidence>) {
    forall k | 0 <= k < |es| :: EvidenceOk(es[k])
  }

  // A number that is not finite is written as null.
  function Shown(n: Number): Number {
    if n.NotFinite? then Absent else n
  }

  function ShownStages(p: PerStage): PerStage {
    PerStage(Shown(p.sparse), Shown(p.dense), Shown(p.fusion), Shown(p.rerank))
  }

  // Equal in every field, numbers as written and the index snapshot as a value.
  predicate SameEvidence(e: Evidence, f: Evidence) {
    && e.evidenceId == f.evidenceId && e.chunkId == f.chunkId && e.projectId == f.projectId && e.fileId == f.fileId
    && e.documentId == f.documentId && e.retrievalRunId == f.retrievalRunId && e.ingestionKey == f.ingestionKey
    && e.content == f.content && e.spanText == f.spanText && Shown(e.chunkStart) == Shown(f.chunkStart)
    && Shown(e.spanStart) == Shown(f.spanStart) && Shown(e.spanEnd) == Shown(f.spanEnd)
    && Shown(e.rank) == Shown(f.rank) && ShownStages(e.scores) == ShownStages(f.scores)
    && ShownStages(e.ranks) == ShownStages(f.ranks) && Shown(e.pageStart) == Shown(f.pageStart)
    && Shown(e.pageEnd) == Shown(f.pageEnd) && e.headingPath == f.headingPath
    && Meaning(e.indexSnapshot) == Meaning(f.indexSnapshot)
  }

  lemma {:induction false} NumeralsInZip(keys: seq<string>, values: seq<Json>)
    requires |keys| == |values| && forall k | 0 <= k < |values| :: Numerals(values[k])
    ensures EntriesNumerals(Zip(keys, values))
    decreases |keys|
  {
    if keys != [] {
      NumeralsInZip(keys[1..], values[1..]);
      assert Zip(keys, values)[1..] == Zip(keys[1..], values[1..]);
    }
  }

  lemma {:induction false} NumeralsInItems(items: seq<Json>)
    requires forall k | 0 <= k < |items| :: Numerals(items[k])
    ensures AllNumerals(items)
  {
    if items != [] { NumeralsInItems(items[1..]); }
  }

  lemma NumeralsInEvidence(e: Evidence)
    requires EvidenceOk(e)
    ensures forall k | 0 <= k < |EvidenceValues(e)| :: Numerals(EvidenceValues(e)[k])
  {
    assert forall k | 0 <= k < 9 :: Numerals(TextValues(e)[k]);
    assert forall k | 0 <= k < 4 :: Numerals(PlaceValues(e)[k]);
    NumeralsInSource(e);
  }

  lemma NumeralsInStages(p: PerStage)
    requires StagesOk(p)
    ensures Numerals(Record(STAGE_KEYS, StageValues(p)))
  {
    NumeralsInZip(STAGE_KEYS, StageValues(p));
  }

  lemma NumeralsInSource(e: Evidence)
    requires EvidenceOk(e)
    ensures forall k | 0 <= k < 6 :: Numerals(SourceValues(e)[k])
  {
    NumeralsInStages(e.scores);
    NumeralsInStages(e.ranks);
    NumeralsInItems(Strings(e.headingPath));
    WellFormedHasNumerals(e.indexSnapshot);
  }

  // Records with the same keys agree field by field once sorted.
  lemma SameRecords(leq: Order<string>, keys: seq<string>, xs: seq<Json>, ys: seq<Json>)
    requires |keys| == |xs| == |ys| && Canon(leq, Record(keys, xs)) == Canon(leq, Record(keys, ys))
    ensures forall k | 0 <= k < |xs| :: Canon(leq, xs[k]) == Canon(leq, ys[k])
  {
    var p, q := CanonEntries(leq, Zip(keys, xs)), CanonEntries(leq, Zip(keys, ys));
    CanonEntriesLength(leq, Zip(keys, xs));
    CanonEntriesLength(leq, Zip(keys, ys));
    forall k | 0 <= k < |keys|
      ensures p[k] == Entry(keys[k], Canon(leq, xs[k])) && q[k] == Entry(keys[k], Canon(leq, ys[k]))
    {
      CanonEntry(leq, Zip(keys, xs), k);
      CanonEntry(leq, Zip(keys, ys), k);
    }
    SameKeyLists(p, q);
    SortUndone(leq, KeyOf, p, q);
  }

  lemma {:induction false} CanonStrings(leq: Order<string>, xs: seq<string>)
    ensures CanonItems(leq, Strings(xs)) == Strings(xs)
  {
    if xs != [] {
      CanonStrings(leq, xs[1..]);
      assert Strings(xs)[1..] == Strings(xs[1..]);
    }
  }

  lemma StringsUndone(xs: seq<string>, ys: seq<string>)
    requires Strings(xs) == Strings(ys)
    ensures xs == ys
  {
    assert |Strings(xs)| == |xs| && |Strings(ys)| == |ys|;
    forall k | 0 <= k < |xs| ensures xs[k] == ys[k] { assert Strings(xs)[k] == Strings(ys)[k]; }
  }

  lemma SameStringArrays(leq: Order<string>, xs: seq<string>, ys: seq<string>)
    requires Canon(leq, Arr(Strings(xs))) == Canon(leq, Arr(Strings(ys)))
    ensures xs == ys
  {
    CanonStrings(leq, xs);
    CanonStrings(leq, ys);
    StringsUndone(xs, ys);
  }

  lemma SameNumbers(leq: Order<string>, m: Number, n: Number)
    requires Canon(leq, OfNumber(m)) == Canon(leq, OfNumber(n))
    ensures Shown(m) == Shown(n)
  {}

  lemma SameStages(leq: Order<string>, p: PerStage, q: PerStage)
    requires Canon(leq, Record(STAGE_KEYS, StageValues(p))) == Canon(leq, Record(STAGE_KEYS, StageValues(q)))
    ensures ShownStages(p) == ShownStages(q)
  {
    SameRecords(leq, STAGE_KEYS, StageValues(p), StageValues(q));
    var xs, ys := StageValues(p), StageValues(q);
    assert Canon(leq, xs[0]) == Canon(leq, ys[0]) && Canon(leq, xs[1]) == Canon(leq, ys[1]);
    assert Canon(leq, xs[2]) == Canon(leq, ys[2]) && Canon(leq, xs[3]) == Canon(leq, ys[3]);
  }

  // Equal evidence digests mean equal evidence, field by field.
  lemma EqualEvidenceDigests(collation: Order<string>, hash: Hash, e: Evidence, f: Evidence)
    requires Collisionless(hash) && EvidenceOk(e) && EvidenceOk(f)
    requires EvidenceDigest(collation, hash, e) == EvidenceDigest(collation, hash, f)
    ensures SameEvidence(e, f)
  {
    var xs, ys := EvidenceValues(e), EvidenceValues(f);
    NumeralsInEvidence(e);
    NumeralsInEvidence(f);
    NumeralsInZip(EVIDENCE_KEYS, xs);
    NumeralsInZip(EVIDENCE_KEYS, ys);
    EqualStringsSameCanon(collation, Record(EVIDENCE_KEYS, xs), Record(EVIDENCE_KEYS, ys));
    SameRecords(collation, EVIDENCE_KEYS, xs, ys);
    SameEvidenceFields(collation, e, f);
  }

  ghost predicate SameValues(leq: Order<string>, xs: seq<Json>, ys: seq<Json>) {
    |xs| == |ys| && forall k | 0 <= k < |xs| :: Canon(leq, xs[k]) == Canon(leq, ys[k])
  }

  lemma SameEvidenceFields(leq: Order<string>, e: Evidence, f: Evidence)
    requires EvidenceOk(e) && EvidenceOk(f) && SameValues(leq, EvidenceValues(e), EvidenceValues(f))
    ensures SameEvidence(e, f)
  {
    var xs, ys := EvidenceValues(e), EvidenceValues(f);
    forall k | 0 <= k < 9 ensures Canon(leq, TextValues(e)[k]) == Canon(leq, TextValues(f)[k]) {
      assert xs[k] == TextValues(e)[k] && ys[k] == TextValues(f)[k];
    }
    forall k | 0 <= k < 4 ensures Canon(leq, PlaceValues(e)[k]) == Canon(leq, PlaceValues(f)[k]) {
      assert xs[k + 9] == PlaceValues(e)[k] && ys[k + 9] == PlaceValues(f)[k];
    }
    forall k | 0 <= k < 6 ensures Canon(leq, SourceValues(e)[k]) == Canon(leq, SourceValues(f)[k]) {
      assert xs[k + 13] == SourceValues(e)[k] && ys[k + 13] == SourceValues(f)[k];
    }
    SameTexts(leq, e, f);
    SamePlaces(leq, e, f);
    SameSources(leq, e, f);
  }

  lemma SameTexts(leq: Order<string>, e: Evidence, f: Evidence)
    requires SameValues(leq, TextValues(e), TextValues(f))
    ensures e.evidenceId == f.evidenceId && e.chunkId == f.chunkId && e.projectId == f.projectId && e.fileId == f.fileId
    ensures e.documentId == f.documentId && e.retrievalRunId == f.retrievalRunId && e.ingestionKey == f.ingestionKey
    ensures e.content == f.content && e.spanText == f.spanText
  {
    var xs, ys := TextValues(e), TextValues(f);
    assert Canon(leq, xs[0]) == Canon(leq, ys[0]) && Canon(leq, xs[1]) == Canon(leq, ys[1]);
    assert Canon(leq, xs[2]) == Canon(leq, ys[2]) && Canon(leq, xs[3]) == Canon(leq, ys[3]);
    assert Canon(leq, xs[4]) == Canon(leq, ys[4]) && Canon(leq, xs[5]) == Canon(leq, ys[5]);
    assert Canon(leq, xs[6]) == Canon(leq, ys[6]) && Canon(leq, xs[7]) == Canon(leq, ys[7]);
    assert Canon(leq, xs[8]) == Canon(leq, ys[8]);
  }

  lemma SamePlaces(leq: Order<string>, e: Evidence, f: Evidence)
    requires SameValues(leq, PlaceValues(e), PlaceValues(f))
    ensures Shown(e.chunkStart) == Shown(f.chunkStart) && Shown(e.spanStart) == Shown(f.spanStart)
    ensures Shown(e.spanEnd) == Shown(f.spanEnd) && Shown(e.rank) == Shown(f.rank)
  {
    var xs, ys := PlaceValues(e), PlaceValues(f);
    assert Canon(leq, xs[0]) == Canon(leq, ys[0]) && Canon(leq, xs[1]) == Canon(leq, ys[1]);
    assert Canon(leq, xs[2]) == Canon(leq, ys[2]) && Canon(leq, xs[3]) == Canon(leq, ys[3]);
  }

  lemma SameSources(leq: Order<string>, e: Evidence, f: Evidence)
    requires EvidenceOk(e) && EvidenceOk(f) && SameValues(leq, SourceValues(e), SourceValues(f))
    ensures ShownStages(e.scores) == ShownStages(f.scores) && ShownStages(e.ranks) == ShownStages(f.ranks)
    ensures Shown(e.pageStart) == Shown(f.pageStart) && Shown(e.pageEnd) == Shown(f.pageEnd)
    ensures e.headingPath == f.headingPath && Meaning(e.indexSnapshot) == Meaning(f.indexSnapshot)
  {
    var xs, ys := SourceValues(e), SourceValues(f);
    assert Canon(leq, xs[0]) == Canon(leq, ys[0]) && Canon(leq, xs[1]) == Canon(leq, ys[1]);
    SameStages(leq, e.scores, f.scores);
    SameStages(leq, e.ranks, f.ranks);
    SamePages(leq, e, f, xs, ys);
    assert Canon(leq, xs[4]) == Canon(leq, ys[4]) && Canon(leq, xs[5]) == Canon(leq, ys[5]);
    SameStringArrays(leq, e.headingPath, f.headingPath);
    SameMeaning(leq, e.indexSnapshot, f.indexSnapshot);
  }

  lemma SamePages(leq: Order<string>, e: Evidence, f: Evidence, xs: seq<Json>, ys: seq<Json>)
    requires xs == SourceValues(e) && ys == SourceValues(f)
    requires Canon(leq, xs[2]) == Canon(leq, ys[2]) && Canon(leq, xs[3]) == Canon(leq, ys[3])
    ensures Shown(e.pageStart) == Shown(f.pageStart) && Shown(e.pageEnd) == Shown(f.pageEnd)
  {
    SameNumbers(leq, e.pageStart, f.pageStart);
    SameNumbers(leq, e.pageEnd, f.pageEnd);
  }

  lemma SameMeaning(leq: Order<string>, a: Json, b: Json)
    requires WellFormed(a) && WellFormed(b) && Canon(leq, a) == Canon(leq, b)
    ensures Meaning(a) == Meaning(b)
  {
    CanonKeepsMeaning(leq, a);
    CanonKeepsMeaning(leq, b);
  }

  lemma NumeralsInAssignment(collation: Order<string>, units: Order<string>, hash: Hash, a: Assignment)
    ensures var xs := AssignmentValues(collation, units, hash, a); forall k | 0 <= k < |xs| :: Numerals(xs[k])
  {
    NumeralsInItems(Strings(Sort(units, Itself, a.runRefs)));
    NumeralsInItems(Strings(Sort(units, Itself, a.evidenceIds)));
    NumeralsInItems(Strings(Digests(collation, hash, Sort(collation, IdOf, a.evidence))));
    var states := Sort(collation, RunOfState, a.runStates);
    forall k | 0 <= k < |states| ensures Numerals(StateItems(states)[k]) {
      NumeralsInItems([Str(states[k].run), Str(states[k].state)]);
    }
    NumeralsInItems(StateItems(states));
  }

  lemma {:induction false} CanonStates(leq: Order<string>, xs: seq<RunState>)
    ensures CanonItems(leq, StateItems(xs)) == StateItems(xs)
  {
    if xs != [] {
      CanonStates(leq, xs[1..]);
      assert StateItems(xs)[1..] == StateItems(xs[1..]);
      CanonStrings(leq, [xs[0].run, xs[0].state]);
      assert Strings([xs[0].run, xs[0].state]) == [Str(xs[0].run), Str(xs[0].state)];
    }
  }

  lemma SameStates(leq: Order<string>, xs: seq<RunState>, ys: seq<RunState>)
    requires Canon(leq, Arr(StateItems(xs))) == Canon(leq, Arr(StateItems(ys)))
    ensures xs == ys
  {
    CanonStates(leq, xs);
    CanonStates(leq, ys);
    var p, q := StateItems(xs), StateItems(ys);
    assert |p| == |xs| && |q| == |ys|;
    forall k | 0 <= k < |xs| ensures xs[k] == ys[k] {
      assert p[k] == q[k];
      assert p[k].items[0] == Str(xs[k].run) && p[k].items[1] == Str(xs[k].state);
      assert q[k].items[0] == Str(ys[k].run) && q[k].items[1] == Str(ys[k].state);
    }
  }

  lemma SameDigests(collation: Order<string>, hash: Hash, xs: seq<Evidence>, ys: seq<Evidence>)
    requires Collisionless(hash) && Digests(collation, hash, xs) == Digests(collation, hash, ys)
    requires AllOk(xs) && AllOk(ys)
    ensures |xs| == |ys| && forall k | 0 <= k < |xs| :: SameEvidence(xs[k], ys[k])
  {
    var p, q := Digests(collation, hash, xs), Digests(collation, hash, ys);
    assert |p| == |xs| && |q| == |ys|;
    forall k | 0 <= k < |xs| ensures SameEvidence(xs[k], ys[k]) {
      assert p[k] == q[k];
      EqualEvidenceDigests(collation, hash, xs[k], ys[k]);
    }
  }

  lemma SortedStaysOk(leq: Order<string>, es: seq<Evidence>)
    requires AllOk(es)
    ensures AllOk(Sort(leq, IdOf, es))
  {
    SortPermutes(leq, IdOf, es);
    PermutedStaysOk(es, Sort(leq, IdOf, es));
  }

  lemma PermutedStaysOk(es: seq<Evidence>, fs: seq<Evidence>)
    requires AllOk(es) && multiset(es) == multiset(fs)
    ensures AllOk(fs)
  {
    forall k | 0 <= k < |fs| ensures EvidenceOk(fs[k]) {
      assert fs[k] in multiset(es);
      var i := IndexIn(es, fs[k]);
    }
  }

  lemma SameSortedParts(collation: Order<string>, units: Order<string>, hash: Hash, a: Assignment, b: Assignment)
    requires Collisionless(hash)
    requires AssignmentDigest(collation, units, hash, a) == AssignmentDigest(collation, units, hash, b)
    ensures a.contractVersion == b.contractVersion && a.retrievalRunId == b.retrievalRunId
    ensures a.state == b.state && a.strictMode == b.strictMode
    ensures Sort(units, Itself, a.runRefs) == Sort(units, Itself, b.runRefs)
    ensures Sort(collation, RunOfState, a.runStates) == Sort(collation, RunOfState, b.runStates)
    ensures Sort(units, Itself, a.evidenceIds) == Sort(units, Itself, b.evidenceIds)
    ensures Digests(collation, hash, Sort(collation, IdOf, a.evidence)) ==
      Digests(collation, hash, Sort(collation, IdOf, b.evidence))
  {
    var xs, ys := AssignmentValues(collation, units, hash, a), AssignmentValues(collation, units, hash, b);
    NumeralsInAssignment(collation, units, hash, a);
    NumeralsInAssignment(collation, units, hash, b);
    NumeralsInZip(ASSIGNMENT_KEYS, xs);
    NumeralsInZip(ASSIGNMENT_KEYS, ys);
    EqualStringsSameCanon(collation, Record(ASSIGNMENT_KEYS, xs), Record(ASSIGNMENT_KEYS, ys));
    SameRecords(collation, ASSIGNMENT_KEYS, xs, ys);
    SameAssignmentFields(collation, units, hash, a, b);
  }

  // Equal assignment digests: the same contract, runs, states and strictness, the
  // same evidence ids, and the same evidence in every field.
  lemma EqualDigestsMeanEqualSnapshots(collation: Order<string>, units: Order<string>, hash: Hash, a: Assignment, b: Assignment)
    requires Collisionless(hash)
    requires AllOk(a.evidence)
    requires AllOk(b.evidence)
    requires AssignmentDigest(collation, units, hash, a) == AssignmentDigest(collation, units, hash, b)
    ensures a.contractVersion == b.contractVersion && a.retrievalRunId == b.retrievalRunId
    ensures a.state == b.state && a.strictMode == b.strictMode
    ensures multiset(a.runRefs) == multiset(b.runRefs) && multiset(a.runStates) == multiset(b.runStates)
    ensures multiset(a.evidenceIds) == multiset(b.evidenceIds) && |a.evidence| == |b.evidence|
    ensures var p, q := Sort(collation, IdOf, a.evidence), Sort(collation, IdOf, b.evidence);
      && multiset(p) == multiset(a.evidence) && multiset(q) == multiset(b.evidence) && |p| == |q|
      && forall k | 0 <= k < |p| :: SameEvidence(p[k], q[k])
  {
    SameSortedParts(collation, units, hash, a, b);
    SortPermutes(units, Itself, a.runRefs);
    SortPermutes(units, Itself, b.runRefs);
    SortPermutes(units, Itself, a.evidenceIds);
    SortPermutes(units, Itself, b.evidenceIds);
    SortPermutes(collation, RunOfState, a.runStates);
    SortPermutes(collation, RunOfState, b.runStates);
    SortPermutes(collation, IdOf, a.evidence);
    SortPermutes(collation, IdOf, b.evidence);
    SortedStaysOk(collation, a.evidence);
    SortedStaysOk(collation, b.evidence);
    SameDigests(collation, hash, Sort(collation, IdOf, a.evidence), Sort(collation, IdOf, b.evidence));
  }

  lemma SameAssignmentFields(collation: Order<string>, units: Order<string>, hash: Hash, a: Assignment, b: Assignment)
    requires var xs, ys := AssignmentValues(collation, units, hash, a), AssignmentValues(collation, units, hash, b);
      forall k | 0 <= k < |xs| :: Canon(collation, xs[k]) == Canon(collation, ys[k])
    ensures a.contractVersion == b.contractVersion && a.retrievalRunId == b.retrievalRunId
    ensures a.state == b.state && a.strictMode == b.strictMode
    ensures Sort(units, Itself, a.runRefs) == Sort(units, Itself, b.runRefs)
    ensures Sort(collation, RunOfState, a.runStates) == Sort(collation, RunOfState, b.runStates)
    ensures Sort(units, Itself, a.evidenceIds) == Sort(units, Itself, b.evidenceIds)
    ensures Digests(collation, hash, Sort(collation, IdOf, a.evidence)) ==
      Digests(collation, hash, Sort(collation, IdOf, b.evidence))
  {
    var xs, ys := AssignmentValues(collation, units, hash, a), AssignmentValues(collation, units, hash, b);
    assert Canon(collation, xs[0]) == Canon(collation, ys[0]) && Canon(collation, xs[1]) == Canon(collation, ys[1]);
    assert Canon(collation, xs[2]) == Canon(collation, ys[2]) && Canon(collation, xs[5]) == Canon(collation, ys[5]);
    assert Canon(collation, xs[3]) == Canon(collation, ys[3]) && Canon(collation, xs[4]) == Canon(collation, ys[4]);
    assert Canon(collation, xs[6]) == Canon(collation, ys[6]) && Canon(collation, xs[7]) == Canon(collation, ys[7]);
    SameStringArrays(collation, Sort(units, Itself, a.runRefs), Sort(units, Itself, b.runRefs));
    SameStates(collation, Sort(collation, RunOfState, a.runStates), Sort(collation, RunOfState, b.runStates));
    SameStringArrays(collation, Sort(units, Itself, a.evidenceIds), Sort(units, Itself, b.evidenceIds));
    SameStringArrays(collation, Digests(collation, hash, Sort(collation, IdOf, a.evidence)),
                     Digests(collation, hash, Sort(collation, IdOf, b.evidence)));
  }

  // ---------------------------------------------------------------------------
  // Exactly when the digest forgets the incoming order

  // Evidence as the sort sees it: its id, and the digest that is written.
  function Tag(collation: Order<string>, hash: Hash, e: Evidence): Entry<string> {
    Entry(e.evidenceId, EvidenceDigest(collation, hash, e))
  }

  function Tagged(collation: Order<string>, hash: Hash, es: seq<Evidence>): seq<Entry<string>> {
    seq(|es|, k requires 0 <= k < |es| => Tag(collation, hash, es[k]))
  }

  lemma TaggedFirst(collation: Order<string>, hash: Hash, e: Evidence, es: seq<Evidence>)
    ensures Tagged(collation, hash, [e] + es) == [Tag(collation, hash, e)] + Tagged(collation, hash, es)
  {}

  lemma {:induction false} InsertTags(collation: Order<string>, hash: Hash, e: Evidence, es: seq<Evidence>)
    ensures Tagged(collation, hash, Insert(collation, IdOf, e, es)) ==
      Insert(collation, KeyOf, Tag(collation, hash, e), Tagged(collation, hash, es))
  {
    if es == [] || collation(e.evidenceId, es[0].evidenceId) {
      TaggedFirst(collation, hash, e, es);
    } else {
      InsertTags(collation, hash, e, es[1..]);
      TaggedFirst(collation, hash, es[0], es[1..]);
      assert es == [es[0]] + es[1..];
      assert Tagged(collation, hash, es)[1..] == Tagged(collation, hash, es[1..]);
      TaggedFirst(collation, hash, es[0], Insert(collation, IdOf, e, es[1..]));
    }
  }

  lemma {:induction false} SortTags(collation: Order<string>, hash: Hash, es: seq<Evidence>)
    ensures Tagged(collation, hash, Sort(collation, IdOf, es)) == Sort(collation, KeyOf, Tagged(collation, hash, es))
  {
    if es != [] {
      SortTags(collation, hash, es[1..]);
      InsertTags(collation, hash, es[0], Sort(collation, IdOf, es[1..]));
      assert Tagged(collation, hash, es)[1..] == Tagged(collation, hash, es[1..]);
    }
  }

  lemma {:induction false} TaggedBag(collation: Order<string>, hash: Hash, es: seq<Evidence>, fs: seq<Evidence>)
    requires multiset(es) == multiset(fs)
    ensures multiset(Tagged(collation, hash, es)) == multiset(Tagged(collation, hash, fs))
  {
    SameLength(es, fs);
    if es != [] {
      var k := TakeFirst(es, fs);
      TaggedBag(collation, hash, es[1..], Without(fs, k));
      TaggedWithout(collation, hash, es, 0);
      TaggedWithout(collation, hash, fs, k);
      PutFirst(Tagged(collation, hash, es), Tagged(collation, hash, fs), k);
    }
  }

  lemma TaggedWithout(collation: Order<string>, hash: Hash, es: seq<Evidence>, k: nat)
    requires k < |es|
    ensures Tagged(collation, hash, Without(es, k)) == Without(Tagged(collation, hash, es), k)
    ensures k == 0 ==> Tagged(collation, hash, es[1..]) == Tagged(collation, hash, es)[1..]
  {
    var tags, left := Tagged(collation, hash, es), Without(es, k);
    forall i | 0 <= i < |left| ensures Tagged(collation, hash, left)[i] == Without(tags, k)[i] {
      assert left[i] == es[if i < k then i else i + 1];
    }
  }

  lemma SameTagsSameDigests(collation: Order<string>, hash: Hash, es: seq<Evidence>, fs: seq<Evidence>)
    requires Tagged(collation, hash, es) == Tagged(collation, hash, fs)
    ensures Digests(collation, hash, es) == Digests(collation, hash, fs)
  {
    var p, q := Tagged(collation, hash, es), Tagged(collation, hash, fs);
    assert |p| == |es| && |q| == |fs|;
    forall k | 0 <= k < |es|
      ensures EvidenceDigest(collation, hash, es[k]) == EvidenceDigest(collation, hash, fs[k])
    {
      assert p[k] == q[k];
    }
  }

  // The digest covers the id, so equal digests are equal tags.
  lemma SameDigestsSameTags(collation: Order<string>, hash: Hash, es: seq<Evidence>, fs: seq<Evidence>)
    requires Collisionless(hash) && AllOk(es) && AllOk(fs)
    requires Digests(collation, hash, es) == Digests(collation, hash, fs)
    ensures Tagged(collation, hash, es) == Tagged(collation, hash, fs)
  {
    SameDigests(collation, hash, es, fs);
    var p, q := Digests(collation, hash, es), Digests(collation, hash, fs);
    forall k | 0 <= k < |es| ensures Tag(collation, hash, es[k]) == Tag(collation, hash, fs[k]) {
      assert p[k] == q[k] && SameEvidence(es[k], fs[k]);
    }
  }

  // Pieces of evidence whose ids the collation ties have the same digest.
  ghost predicate TiesAgree(collation: Order<string>, hash: Hash, es: seq<Evidence>) {
    forall e, f | e in es && f in es && Tied(collation, e.evidenceId, f.evidenceId) ::
      EvidenceDigest(collation, hash, e) == EvidenceDigest(collation, hash, f)
  }

  lemma TagsDoNotTie(collation: Order<string>, hash: Hash, es: seq<Evidence>)
    requires Collisionless(hash) && AllOk(es) && TiesAgree(collation, hash, es)
    ensures NoTies(collation, KeyOf, multiset(Tagged(collation, hash, es)))
  {
    var tags := Tagged(collation, hash, es);
    forall x, y | x in multiset(tags) && y in multiset(tags) ensures Apart(collation, KeyOf, x, y) {
      var i := IndexIn(tags, x);
      var j := IndexIn(tags, y);
      assert es[i] in es && es[j] in es;
      if Tied(collation, x.key, y.key) { EqualEvidenceDigests(collation, hash, es[i], es[j]); }
    }
  }

  ghost predicate DigestIgnoresOrder(collation: Order<string>, units: Order<string>, hash: Hash, a: Assignment) {
    forall b | Permuted(a, b) :: AssignmentDigest(collation, units, hash, b) == AssignmentDigest(collation, units, hash, a)
  }

  lemma AgreeingTiesKeepDigest(collation: Order<string>, units: Order<string>, hash: Hash, a: Assignment, b: Assignment)
    requires TotalOrder(collation) && TotalOrder(units) && Antisymmetric(units) && Collisionless(hash) && Permuted(a, b)
    requires AllOk(a.evidence) && TiesAgree(collation, hash, a.evidence)
    requires NoTies(collation, RunOfState, multiset(a.runStates))
    ensures AssignmentDigest(collation, units, hash, a) == AssignmentDigest(collation, units, hash, b)
  {
    StringsDoNotTie(units, multiset(a.runRefs));
    StringsDoNotTie(units, multiset(a.evidenceIds));
    SortIgnoresOrder(units, Itself, a.runRefs, b.runRefs);
    SortIgnoresOrder(units, Itself, a.evidenceIds, b.evidenceIds);
    SortIgnoresOrder(collation, RunOfState, a.runStates, b.runStates);
    SameSortedDigests(collation, hash, a.evidence, b.evidence);
  }

  lemma SameSortedDigests(collation: Order<string>, hash: Hash, es: seq<Evidence>, fs: seq<Evidence>)
    requires TotalOrder(collation) && Collisionless(hash) && multiset(es) == multiset(fs)
    requires AllOk(es) && TiesAgree(collation, hash, es)
    ensures Digests(collation, hash, Sort(collation, IdOf, es)) == Digests(collation, hash, Sort(collation, IdOf, fs))
  {
    TagsDoNotTie(collation, hash, es);
    TaggedBag(collation, hash, es, fs);
    SortIgnoresOrder(collation, KeyOf, Tagged(collation, hash, es), Tagged(collation, hash, fs));
    SortTags(collation, hash, es);
    SortTags(collation, hash, fs);
    SameTagsSameDigests(collation, hash, Sort(collation, IdOf, es), Sort(collation, IdOf, fs));
  }

  // Two tied pieces with different digests, in front of the rest in both orders.
  lemma TiedEvidenceShows(collation: Order<string>, hash: Hash, e: Evidence, f: Evidence, rest: seq<Evidence>)
    requires TotalOrder(collation) && Collisionless(hash) && AllOk([e, f] + rest) && AllOk([f, e] + rest)
    requires Tied(collation, e.evidenceId, f.evidenceId)
    requires EvidenceDigest(collation, hash, e) != EvidenceDigest(collation, hash, f)
    ensures Digests(collation, hash, Sort(collation, IdOf, [e, f] + rest)) !=
      Digests(collation, hash, Sort(collation, IdOf, [f, e] + rest))
  {
    var es, fs := [e, f] + rest, [f, e] + rest;
    TiedTagsShow(collation, hash, e, f, rest);
    SortTags(collation, hash, es);
    SortTags(collation, hash, fs);
    SortedStaysOk(collation, es);
    SortedStaysOk(collation, fs);
    if Digests(collation, hash, Sort(collation, IdOf, es)) == Digests(collation, hash, Sort(collation, IdOf, fs)) {
      SameDigestsSameTags(collation, hash, Sort(collation, IdOf, es), Sort(collation, IdOf, fs));
    }
  }

  lemma TiedTagsShow(collation: Order<string>, hash: Hash, e: Evidence, f: Evidence, rest: seq<Evidence>)
    requires TotalOrder(collation) && Tied(collation, e.evidenceId, f.evidenceId)
    requires EvidenceDigest(collation, hash, e) != EvidenceDigest(collation, hash, f)
    ensures Sort(collation, KeyOf, Tagged(collation, hash, [e, f] + rest)) !=
      Sort(collation, KeyOf, Tagged(collation, hash, [f, e] + rest))
  {
    var x, y, tags := Tag(collation, hash, e), Tag(collation, hash, f), Tagged(collation, hash, rest);
    TieShows(collation, KeyOf, x, y, tags);
    TaggedTwo(collation, hash, e, f, rest, x, y, tags);
    TaggedTwo(collation, hash, f, e, rest, y, x, tags);
  }

  lemma TaggedTwo(collation: Order<string>, hash: Hash, e: Evidence, f: Evidence, rest: seq<Evidence>,
                  x: Entry<string>, y: Entry<string>, tags: seq<Entry<string>>)
    requires x == Tag(collation, hash, e) && y == Tag(collation, hash, f) && tags == Tagged(collation, hash, rest)
    ensures Tagged(collation, hash, [e, f] + rest) == [x, y] + tags
  {}

  lemma StatesMustNotTie(collation: Order<string>, units: Order<string>, hash: Hash, a: Assignment)
    requires TotalOrder(collation) && Collisionless(hash) && DigestIgnoresOrder(collation, units, hash, a)
    ensures NoTies(collation, RunOfState, multiset(a.runStates))
  {
    OrderIgnoredIff(collation, RunOfState, a.runStates);
    forall ys | multiset(ys) == multiset(a.runStates)
      ensures Sort(collation, RunOfState, ys) == Sort(collation, RunOfState, a.runStates)
    {
      assert Permuted(a, a.(runStates := ys));
      SameSortedParts(collation, units, hash, a, a.(runStates := ys));
    }
  }

  lemma EvidenceMustAgree(collation: Order<string>, units: Order<string>, hash: Hash, a: Assignment)
    requires TotalOrder(collation) && Collisionless(hash) && DigestIgnoresOrder(collation, units, hash, a) && AllOk(a.evidence)
    ensures TiesAgree(collation, hash, a.evidence)
  {
    forall e, f | e in a.evidence && f in a.evidence && Tied(collation, e.evidenceId, f.evidenceId)
      ensures EvidenceDigest(collation, hash, e) == EvidenceDigest(collation, hash, f)
    {
      TiedPairAgrees(collation, units, hash, a, e, f);
    }
  }

  lemma TiedPairAgrees(collation: Order<string>, units: Order<string>, hash: Hash, a: Assignment, e: Evidence, f: Evidence)
    requires TotalOrder(collation) && Collisionless(hash) && DigestIgnoresOrder(collation, units, hash, a) && AllOk(a.evidence)
    requires e in a.evidence && f in a.evidence && Tied(collation, e.evidenceId, f.evidenceId)
    ensures EvidenceDigest(collation, hash, e) == EvidenceDigest(collation, hash, f)
  {
    if EvidenceDigest(collation, hash, e) != EvidenceDigest(collation, hash, f) {
      var rest := TwoFirst(a.evidence, e, f);
      SecondAnywhere(rest, e, f);
      PermutedStaysOk(a.evidence, [e, f] + rest);
      PermutedStaysOk(a.evidence, [f, e] + rest);
      TiedEvidenceShows(collation, hash, e, f, rest);
      SameDigestOf(collation, units, hash, a, [e, f] + rest);
      SameDigestOf(collation, units, hash, a, [f, e] + rest);
    }
  }

  lemma SameDigestOf(collation: Order<string>, units: Order<string>, hash: Hash, a: Assignment, es: seq<Evidence>)
    requires Collisionless(hash) && DigestIgnoresOrder(collation, units, hash, a) && multiset(a.evidence) == multiset(es)
    ensures Digests(collation, hash, Sort(collation, IdOf, es)) == Digests(collation, hash, Sort(collation, IdOf, a.evidence))
  {
    assert Permuted(a, a.(evidence := es));
    SameSortedParts(collation, units, hash, a.(evidence := es), a);
  }

  // The digest forgets the incoming order exactly when no two run states have tied
  // runs and evidence with tied ids has equal digests.
  lemma DigestIgnoresOrderIff(collation: Order<string>, units: Order<string>, hash: Hash, a: Assignment)
    requires TotalOrder(collation) && TotalOrder(units) && Antisymmetric(units) && Collisionless(hash) && AllOk(a.evidence)
    ensures DigestIgnoresOrder(collation, units, hash, a) <==>
      NoTies(collation, RunOfState, multiset(a.runStates)) && TiesAgree(collation, hash, a.evidence)
  {
    if DigestIgnoresOrder(collation, units, hash, a) {
      StatesMustNotTie(collation, units, hash, a);
      EvidenceMustAgree(collation, units, hash, a);
    } else {
      var b :| Permuted(a, b) && AssignmentDigest(collation, units, hash, b) != AssignmentDigest(collation, units, hash, a);
      if NoTies(collation, RunOfState, multiset(a.runStates)) && TiesAgree(collation, hash, a.evidence) {
        AgreeingTiesKeepDigest(collation, units, hash, a, b);
      }
    }
  }
}
