/** What the digests are of: the hashed text, read as JSON, names every field of the
    evidence and of the assignment and gives each its own value. */
module DigestText {
  import opened Options
  import opened StableSort
  import opened Serialiser
  import opened CanonicalJson
  import opened JsonText
  import opened SnapshotDigest

  predicate Has(fields: map<string, Value>, name: string, v: Value) {
    name in fields && fields[name] == v
  }

  function Texts(xs: seq<string>): Value {
    VArr(seq(|xs|, k requires 0 <= k < |xs| => VStr(xs[k])))
  }

  // A number that is absent or not finite is null.
  function Numeric(n: Number): Value {
    if n.Finite? then VNum(n.numeral) else VNull
  }

  predicate ShowsStages(fields: map<string, Value>, name: string, p: PerStage) {
    && name in fields && fields[name].VObj? && |fields[name].fields| == 4
    && Has(fields[name].fields, "sparse", Numeric(p.sparse)) && Has(fields[name].fields, "dense", Numeric(p.dense))
    && Has(fields[name].fields, "fusion", Numeric(p.fusion)) && Has(fields[name].fields, "rerank", Numeric(p.rerank))
  }

  predicate ShowsNames(fields: map<string, Value>, e: Evidence) {
    && Has(fields, "evidence_id", VStr(e.evidenceId)) && Has(fields, "chunk_id", VStr(e.chunkId))
    && Has(fields, "project_id", VStr(e.projectId)) && Has(fields, "file_id", VStr(e.fileId))
    && Has(fields, "document_id", VStr(e.documentId)) && Has(fields, "retrieval_run_id", VStr(e.retrievalRunId))
  }

  predicate ShowsTexts(fields: map<string, Value>, e: Evidence) {
    && Has(fields, "ingestion_key", if e.ingestionKey.Some? then VStr(e.ingestionKey.value) else VNull)
    && Has(fields, "content", VStr(e.content)) && Has(fields, "exact_span_text", VStr(e.spanText))
  }

  predicate ShowsPlaces(fields: map<string, Value>, e: Evidence) {
    && Has(fields, "chunk_char_start", Numeric(e.chunkStart)) && Has(fields, "exact_span_document_start", Numeric(e.spanStart))
    && Has(fields, "exact_span_document_end", Numeric(e.spanEnd)) && Has(fields, "candidate_rank", Numeric(e.rank))
    && Has(fields, "page_start", Numeric(e.pageStart)) && Has(fields, "page_end", Numeric(e.pageEnd))
  }

  predicate ShowsSource(fields: map<string, Value>, e: Evidence) {
    && ShowsStages(fields, "scores", e.scores) && ShowsStages(fields, "ranks", e.ranks)
    && Has(fields, "heading_path", Texts(e.headingPath)) && Has(fields, "index_snapshot", Meaning(e.indexSnapshot))
  }

  predicate ShowsEvidence(fields: map<string, Value>, e: Evidence) {
    |fields| == 19 && ShowsNames(fields, e) && ShowsTexts(fields, e) && ShowsPlaces(fields, e) && ShowsSource(fields, e)
  }

  // The same elements in ascending order, those that tie as they came.
  ghost predicate Ascends<K(!new), T>(leq: Order<K>, key: T -> K, xs: seq<T>, ys: seq<T>) {
    multiset(ys) == multiset(xs) && Sorted(leq, key, ys) && forall k :: Ties(leq, key, k, ys) == Ties(leq, key, k, xs)
  }

  function Pairings(xs: seq<RunState>): Value {
    VArr(seq(|xs|, k requires 0 <= k < |xs| => VArr([VStr(xs[k].run), VStr(xs[k].state)])))
  }

  predicate ShowsScalars(fields: map<string, Value>, a: Assignment) {
    && Has(fields, "contract_version", VStr(a.contractVersion)) && Has(fields, "retrieval_run_id", VStr(a.retrievalRunId))
    && Has(fields, "retrieval_state", VStr(a.state)) && Has(fields, "strict_mode", VBool(a.strictMode))
  }

  ghost predicate ShowsAscending<T(!new)>(fields: map<string, Value>, name: string, leq: Order<string>, key: T -> string,
    xs: seq<T>, shape: seq<T> -> Value) {
    exists ys :: Ascends(leq, key, xs, ys) && Has(fields, name, shape(ys))
  }

  ghost predicate ShowsLists(fields: map<string, Value>, collation: Order<string>, units: Order<string>, hash: Hash,
    a: Assignment) {
    && ShowsAscending(fields, "retrieval_run_refs", units, Itself, a.runRefs, Texts)
    && ShowsAscending(fields, "retrieval_run_states", collation, RunOfState, a.runStates, Pairings)
    && ShowsAscending(fields, "evidence_ids", units, Itself, a.evidenceIds, Texts)
    && ShowsAscending(fields, "evidence", collation, IdOf, a.evidence, es => Texts(Digests(collation, hash, es)))
  }

  ghost predicate ShowsAssignment(fields: map<string, Value>, collation: Order<string>, units: Order<string>, hash: Hash,
    a: Assignment) {
    |fields| == 8 && ShowsScalars(fields, a) && ShowsLists(fields, collation, units, hash, a)
  }

  // The fields of a text that is a JSON object.
  predicate Reads(text: string, fields: map<string, Value>) {
    var v := Parse(text);
    v.Some? && Meaning(v.value) == VObj(fields)
  }

  // ---------------------------------------------------------------------------
  // Records

  predicate AllDiffer(keys: seq<string>) {
    forall i, j | 0 <= i < j < |keys| :: keys[i] != keys[j]
  }

  // Entry k of a record is field k.
  predicate Pairs(fields: map<string, Value>, keys: seq<string>, values: seq<Json>) {
    |keys| == |values| && forall k: nat | k < |keys| :: Has(fields, keys[k], Meaning(values[k]))
  }

  ghost predicate Names(fields: map<string, Value>, keys: seq<string>) {
    |fields| == |keys| && forall name :: name in fields <==> name in keys
  }

  lemma {:induction false} RecordFields(keys: seq<string>, values: seq<Json>)
    requires |keys| == |values| && AllDiffer(keys)
    ensures Names(Fields(Zip(keys, values)), keys) && Pairs(Fields(Zip(keys, values)), keys, values)
    ensures Distinct(Zip(keys, values))
    decreases |keys|
  {
    if keys != [] {
      RecordFields(keys[1..], values[1..]);
      assert Zip(keys, values)[1..] == Zip(keys[1..], values[1..]);
      OneMoreField(Fields(Zip(keys[1..], values[1..])), keys, values);
    }
  }

  lemma OneMoreField(fields: map<string, Value>, keys: seq<string>, values: seq<Json>)
    requires keys != [] && |keys| == |values| && AllDiffer(keys)
    requires Names(fields, keys[1..]) && Pairs(fields, keys[1..], values[1..])
    ensures keys[0] !in fields
    ensures var more := fields[keys[0] := Meaning(values[0])]; Names(more, keys) && Pairs(more, keys, values)
  {
    var more := fields[keys[0] := Meaning(values[0])];
    forall k: nat | k < |keys| ensures Has(more, keys[k], Meaning(values[k])) {
      if k > 0 {
        var m := k - 1;
        assert Has(fields, keys[1..][m], Meaning(values[1..][m]));
      }
    }
  }

  lemma {:induction false} RecordIsWellFormed(keys: seq<string>, values: seq<Json>)
    requires |keys| == |values| && forall k | 0 <= k < |values| :: WellFormed(values[k])
    ensures EntriesWellFormed(Zip(keys, values))
    decreases |keys|
  {
    if keys != [] {
      RecordIsWellFormed(keys[1..], values[1..]);
      assert Zip(keys, values)[1..] == Zip(keys[1..], values[1..]);
    }
  }

  lemma RecordReads(leq: Order<string>, keys: seq<string>, values: seq<Json>)
    requires TotalOrder(leq) && |keys| == |values| && AllDiffer(keys)
    requires forall k | 0 <= k < |values| :: WellFormed(values[k])
    ensures Reads(StableJson(leq, Record(keys, values)), Fields(Zip(keys, values)))
  {
    RecordFields(keys, values);
    RecordIsWellFormed(keys, values);
    TextReadsBack(leq, Record(keys, values));
  }

  // Length and second letter tell the place of a key.
  function Place(key: string): nat
    requires |key| >= 2
  {
    match |key|
    case 5 => 14
    case 6 => 13
    case 7 => if key[1] == 'i' then 3 else 7
    case 8 => if key[1] == 'h' then 1 else 16
    case 10 => if key[1] == 'r' then 2 else 15
    case 11 => if key[1] == 'v' then 0 else 4
    case 12 => 17
    case 13 => 6
    case 14 => if key[1] == 'a' then 12 else 18
    case 15 => 8
    case 16 => if key[1] == 'e' then 5 else 9
    case 23 => 11
    case 25 => 10
    case _ => 19
  }

  lemma EvidenceKeysDiffer()
    ensures |EVIDENCE_KEYS| == 19 && AllDiffer(EVIDENCE_KEYS)
  {
    var keys := EVIDENCE_KEYS;
    assert forall k | 0 <= k < 7 :: |keys[k]| >= 2 && Place(keys[k]) == k;
    assert forall k | 7 <= k < 13 :: |keys[k]| >= 2 && Place(keys[k]) == k;
    assert forall k | 13 <= k < 19 :: |keys[k]| >= 2 && Place(keys[k]) == k;
  }

  lemma AssignmentKeysDiffer()
    ensures |ASSIGNMENT_KEYS| == 8 && AllDiffer(ASSIGNMENT_KEYS)
  {}

  lemma {:induction false} ItemsAreWellFormed(items: seq<Json>)
    requires forall k | 0 <= k < |items| :: WellFormed(items[k])
    ensures AllWellFormed(items)
  {
    if items != [] { ItemsAreWellFormed(items[1..]); }
  }

  lemma {:induction false} MeaningsAre(items: seq<Json>)
    ensures |Meanings(items)| == |items| && forall k: nat | k < |items| :: Meanings(items)[k] == Meaning(items[k])
  {
    if items != [] { MeaningsAre(items[1..]); }
  }

  lemma MeaningOfStrings(xs: seq<string>)
    ensures Meaning(Arr(Strings(xs))) == Texts(xs) && WellFormed(Arr(Strings(xs)))
  {
    MeaningsAre(Strings(xs));
    ItemsAreWellFormed(Strings(xs));
    assert Meanings(Strings(xs)) == Texts(xs).items;
  }

  lemma MeaningOfStates(xs: seq<RunState>)
    ensures Meaning(Arr(StateItems(xs))) == Pairings(xs) && WellFormed(Arr(StateItems(xs)))
  {
    MeaningsAre(StateItems(xs));
    forall k | 0 <= k < |xs|
      ensures Meaning(StateItems(xs)[k]) == VArr([VStr(xs[k].run), VStr(xs[k].state)]) && WellFormed(StateItems(xs)[k])
    {
      MeaningsAre([Str(xs[k].run), Str(xs[k].state)]);
      ItemsAreWellFormed([Str(xs[k].run), Str(xs[k].state)]);
    }
    ItemsAreWellFormed(StateItems(xs));
    assert Meanings(StateItems(xs)) == Pairings(xs).items;
  }

  // ---------------------------------------------------------------------------
  // Evidence

  lemma StagesAreNamed(inner: map<string, Value>, p: PerStage)
    requires Pairs(inner, STAGE_KEYS, StageValues(p))
    ensures Has(inner, "sparse", Numeric(p.sparse)) && Has(inner, "dense", Numeric(p.dense))
    ensures Has(inner, "fusion", Numeric(p.fusion)) && Has(inner, "rerank", Numeric(p.rerank))
  {
    var values := StageValues(p);
    assert Has(inner, STAGE_KEYS[0], Meaning(values[0])) && Has(inner, STAGE_KEYS[1], Meaning(values[1]));
    assert Has(inner, STAGE_KEYS[2], Meaning(values[2])) && Has(inner, STAGE_KEYS[3], Meaning(values[3]));
  }

  lemma StagesAreShown(fields: map<string, Value>, name: string, p: PerStage)
    requires StagesOk(p) && Has(fields, name, Meaning(Record(STAGE_KEYS, StageValues(p))))
    ensures ShowsStages(fields, name, p)
  {
    RecordFields(STAGE_KEYS, StageValues(p));
    StagesAreNamed(Fields(Zip(STAGE_KEYS, StageValues(p))), p);
  }

  lemma StagesAreWellFormed(p: PerStage)
    requires StagesOk(p)
    ensures WellFormed(Record(STAGE_KEYS, StageValues(p)))
  {
    RecordFields(STAGE_KEYS, StageValues(p));
    RecordIsWellFormed(STAGE_KEYS, StageValues(p));
  }

  lemma SourceIsWellFormed(e: Evidence)
    requires EvidenceOk(e)
    ensures forall k | 0 <= k < 6 :: WellFormed(SourceValues(e)[k])
  {
    StagesAreWellFormed(e.scores);
    StagesAreWellFormed(e.ranks);
    MeaningOfStrings(e.headingPath);
  }

  lemma PlacesAreWellFormed(e: Evidence)
    requires EvidenceOk(e)
    ensures forall k | 0 <= k < 4 :: WellFormed(PlaceValues(e)[k])
  {}

  lemma TextsAreWellFormed(e: Evidence)
    ensures forall k | 0 <= k < 9 :: WellFormed(TextValues(e)[k])
  {}

  lemma EvidenceIsWellFormed(e: Evidence)
    requires EvidenceOk(e)
    ensures forall k | 0 <= k < |EvidenceValues(e)| :: WellFormed(EvidenceValues(e)[k])
  {
    TextsAreWellFormed(e);
    PlacesAreWellFormed(e);
    SourceIsWellFormed(e);
    AllWell(TextValues(e), PlaceValues(e), SourceValues(e));
  }

  lemma AllWell(a: seq<Json>, b: seq<Json>, c: seq<Json>)
    requires (forall k | 0 <= k < |a| :: WellFormed(a[k])) && (forall k | 0 <= k < |b| :: WellFormed(b[k]))
    requires forall k | 0 <= k < |c| :: WellFormed(c[k])
    ensures var all := a + b + c; forall k | 0 <= k < |all| :: WellFormed(all[k])
  {}

  lemma TextIsShown(fields: map<string, Value>, e: Evidence, k: nat)
    requires k < 9 && Pairs(fields, EVIDENCE_KEYS, EvidenceValues(e))
    ensures Has(fields, EVIDENCE_KEYS[k], Meaning(TextValues(e)[k]))
  {
    assert EvidenceValues(e)[k] == TextValues(e)[k];
  }

  lemma NamesAreShown(fields: map<string, Value>, e: Evidence)
    requires Pairs(fields, EVIDENCE_KEYS, EvidenceValues(e))
    ensures ShowsNames(fields, e)
  {
    TextIsShown(fields, e, 0);
    TextIsShown(fields, e, 1);
    TextIsShown(fields, e, 2);
    TextIsShown(fields, e, 3);
    TextIsShown(fields, e, 4);
    TextIsShown(fields, e, 5);
  }

  lemma TextsAreShown(fields: map<string, Value>, e: Evidence)
    requires Pairs(fields, EVIDENCE_KEYS, EvidenceValues(e))
    ensures ShowsTexts(fields, e)
  {
    TextIsShown(fields, e, 6);
    TextIsShown(fields, e, 7);
    TextIsShown(fields, e, 8);
  }

  lemma PlacesAreShown(fields: map<string, Value>, e: Evidence)
    requires Pairs(fields, EVIDENCE_KEYS, EvidenceValues(e))
    ensures ShowsPlaces(fields, e)
  {
    var keys, values := EVIDENCE_KEYS, EvidenceValues(e);
    assert values[9] == PlaceValues(e)[0] && values[10] == PlaceValues(e)[1];
    assert values[11] == PlaceValues(e)[2] && values[12] == PlaceValues(e)[3];
    assert values[15] == SourceValues(e)[2] && values[16] == SourceValues(e)[3];
    assert Has(fields, keys[9], Meaning(values[9])) && Has(fields, keys[10], Meaning(values[10]));
    assert Has(fields, keys[11], Meaning(values[11])) && Has(fields, keys[12], Meaning(values[12]));
    assert Has(fields, keys[15], Meaning(values[15])) && Has(fields, keys[16], Meaning(values[16]));
  }

  lemma SourceIsShown(fields: map<string, Value>, e: Evidence)
    requires EvidenceOk(e) && Pairs(fields, EVIDENCE_KEYS, EvidenceValues(e))
    ensures ShowsSource(fields, e)
  {
    var keys, values := EVIDENCE_KEYS, EvidenceValues(e);
    assert values[13] == SourceValues(e)[0] && values[14] == SourceValues(e)[1];
    assert values[17] == SourceValues(e)[4] && values[18] == SourceValues(e)[5];
    assert Has(fields, keys[13], Meaning(values[13])) && Has(fields, keys[14], Meaning(values[14]));
    assert Has(fields, keys[17], Meaning(values[17])) && Has(fields, keys[18], Meaning(values[18]));
    StagesAreShown(fields, "scores", e.scores);
    StagesAreShown(fields, "ranks", e.ranks);
    MeaningOfStrings(e.headingPath);
  }

  // The evidence digest is the hash of a text that names every field.
  lemma EvidenceDigestIsOf(collation: Order<string>, hash: Hash, e: Evidence) returns (text: string, fields: map<string, Value>)
    requires TotalOrder(collation) && EvidenceOk(e)
    ensures EvidenceDigest(collation, hash, e) == hash(text) && Reads(text, fields) && ShowsEvidence(fields, e)
  {
    var values := EvidenceValues(e);
    text, fields := StableJson(collation, Record(EVIDENCE_KEYS, values)), Fields(Zip(EVIDENCE_KEYS, values));
    EvidenceKeysDiffer();
    EvidenceIsWellFormed(e);
    RecordReads(collation, EVIDENCE_KEYS, values);
    RecordFields(EVIDENCE_KEYS, values);
    NamesAreShown(fields, e);
    TextsAreShown(fields, e);
    PlacesAreShown(fields, e);
    SourceIsShown(fields, e);
  }

  // ---------------------------------------------------------------------------
  // Assignments

  lemma SortAscends<K(!new), T>(leq: Order<K>, key: T -> K, xs: seq<T>)
    requires TotalOrder(leq)
    ensures Ascends(leq, key, xs, Sort(leq, key, xs))
  {
    SortPermutes(leq, key, xs);
    SortSorts(leq, key, xs);
    forall k ensures Ties(leq, key, k, Sort(leq, key, xs)) == Ties(leq, key, k, xs) { SortIsStable(leq, key, k, xs); }
  }

  lemma AssignmentIsWellFormed(collation: Order<string>, units: Order<string>, hash: Hash, a: Assignment)
    ensures var xs := AssignmentValues(collation, units, hash, a); forall k | 0 <= k < |xs| :: WellFormed(xs[k])
  {
    MeaningOfStrings(Sort(units, Itself, a.runRefs));
    MeaningOfStrings(Sort(units, Itself, a.evidenceIds));
    MeaningOfStrings(Digests(collation, hash, Sort(collation, IdOf, a.evidence)));
    MeaningOfStates(Sort(collation, RunOfState, a.runStates));
  }

  lemma ListsAreShown(fields: map<string, Value>, collation: Order<string>, units: Order<string>, hash: Hash, a: Assignment)
    requires TotalOrder(collation) && TotalOrder(units)
    requires Pairs(fields, ASSIGNMENT_KEYS, AssignmentValues(collation, units, hash, a))
    ensures ShowsLists(fields, collation, units, hash, a)
  {
    var keys, values := ASSIGNMENT_KEYS, AssignmentValues(collation, units, hash, a);
    assert Has(fields, keys[3], Meaning(values[3])) && Has(fields, keys[4], Meaning(values[4]));
    assert Has(fields, keys[6], Meaning(values[6])) && Has(fields, keys[7], Meaning(values[7]));
    SortAscends(units, Itself, a.runRefs);
    SortAscends(units, Itself, a.evidenceIds);
    SortAscends(collation, RunOfState, a.runStates);
    SortAscends(collation, IdOf, a.evidence);
    MeaningOfStrings(Sort(units, Itself, a.runRefs));
    MeaningOfStrings(Sort(units, Itself, a.evidenceIds));
    MeaningOfStates(Sort(collation, RunOfState, a.runStates));
    MeaningOfStrings(Digests(collation, hash, Sort(collation, IdOf, a.evidence)));
  }

  lemma ScalarsAreShown(fields: map<string, Value>, collation: Order<string>, units: Order<string>, hash: Hash, a: Assignment)
    requires Pairs(fields, ASSIGNMENT_KEYS, AssignmentValues(collation, units, hash, a))
    ensures ShowsScalars(fields, a)
  {
    var keys, values := ASSIGNMENT_KEYS, AssignmentValues(collation, units, hash, a);
    assert Has(fields, keys[0], Meaning(values[0])) && Has(fields, keys[1], Meaning(values[1]));
    assert Has(fields, keys[2], Meaning(values[2])) && Has(fields, keys[5], Meaning(values[5]));
  }

  // The assignment digest is the hash of a text with its fields, lists in ascending order.
  lemma AssignmentDigestIsOf(collation: Order<string>, units: Order<string>, hash: Hash, a: Assignment)
    returns (text: string, fields: map<string, Value>)
    requires TotalOrder(collation) && TotalOrder(units)
    ensures AssignmentDigest(collation, units, hash, a) == hash(text) && Reads(text, fields)
    ensures ShowsAssignment(fields, collation, units, hash, a)
  {
    var values := AssignmentValues(collation, units, hash, a);
    text, fields := StableJson(collation, Record(ASSIGNMENT_KEYS, values)), Fields(Zip(ASSIGNMENT_KEYS, values));
    AssignmentKeysDiffer();
    AssignmentIsWellFormed(collation, units, hash, a);
    RecordReads(collation, ASSIGNMENT_KEYS, values);
    RecordFields(ASSIGNMENT_KEYS, values);
    ScalarsAreShown(fields, collation, units, hash, a);
    ListsAreShown(fields, collation, units, hash, a);
  }
}
