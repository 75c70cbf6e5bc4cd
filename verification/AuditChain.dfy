/**
 The hash-chained audit log: the writer that appends to it and the verifier that re-walks it.  The hash function is a parameter; where a result needs that two
 texts do not collide, it says so for the texts that were actually hashed.
 */
module AuditChain {
  import opened Results
  import opened Json
  import opened JsonPrinter
  import opened CanonicalJson

  type Hash = Text -> Text

  function Zeros(n: nat): (t: Text)
    ensures |t| == n
  {
    if n == 0 then [] else Zeros(n - 1) + [48]
  }

  /** The seed in front of the first record: 64 zeros. */
  const ZERO_HASH: Text := Zeros(64)

  /** Digests are 64 hexadecimal characters. */
  ghost predicate FixedLength(h: Hash) {
    forall t: Text :: |h(t)| == 64
  }

  /** A log record: prev_hash and hash (absent or any JSON value), and the other properties. */
  datatype AuditEvent = AuditEvent(prevHash: Option<Document>, hash: Option<Document>, rest: seq<Entry<Document>>)

  function ComputeHash(h: Hash, prev: Text, rest: seq<Entry<Document>>): Text {
    h(prev + CanonicalStringify(Obj(rest)))
  }

  // ---------------------------------------------------------------------------------------
  // Verifying a chain
  // ---------------------------------------------------------------------------------------

  /** The hash that record i has to refer back to. */
  ghost function ChainHash(h: Hash, events: seq<AuditEvent>, i: nat): Text
    requires i <= |events|
  {
    if i == 0 then ZERO_HASH else ComputeHash(h, ChainHash(h, events, i - 1), events[i - 1].rest)
  }

  ghost predicate LinkValid(h: Hash, events: seq<AuditEvent>, i: nat)
    requires i < |events|
  {
    && events[i].prevHash == Some(if i == 0 then Null else Str(ChainHash(h, events, i)))
    && events[i].hash == Some(Str(ChainHash(h, events, i + 1)))
  }

  ghost predicate ChainValid(h: Hash, events: seq<AuditEvent>) {
    forall i :: 0 <= i < |events| ==> LinkValid(h, events, i)
  }

  datatype ChainReason = PrevHashMismatch | HashMismatch

  datatype ChainVerifyResult = Intact(count: nat) | Broken(badIndex: nat, reason: ChainReason, count: nat)

  method VerifyEventChain(h: Hash, events: seq<AuditEvent>) returns (r: ChainVerifyResult)
    ensures r.count == |events|
    ensures r.Intact? <==> ChainValid(h, events)
    ensures r.Broken? ==> r.badIndex < |events| && !LinkValid(h, events, r.badIndex)
    ensures r.Broken? ==> forall i :: 0 <= i < r.badIndex ==> LinkValid(h, events, i)
    ensures r.Broken? ==> (r.reason.PrevHashMismatch? <==>
      events[r.badIndex].prevHash != Some(if r.badIndex == 0 then Null else Str(ChainHash(h, events, r.badIndex))))
  {
    hide CanonicalStringify;
    var expectedPrev := ZERO_HASH;
    for i := 0 to |events|
      invariant expectedPrev == ChainHash(h, events, i)
      invariant forall k :: 0 <= k < i ==> LinkValid(h, events, k)
    {
      var expectedField: Document := if i == 0 then Null else Str(expectedPrev);
      if events[i].prevHash != Some(expectedField) {
        assert !LinkValid(h, events, i);
        return Broken(i, PrevHashMismatch, |events|);
      }
      var recomputed := ComputeHash(h, expectedPrev, events[i].rest);
      if events[i].hash != Some(Str(recomputed)) {
        assert !LinkValid(h, events, i);
        return Broken(i, HashMismatch, |events|);
      }
      expectedPrev := recomputed;
    }
    return Intact(|events|);
  }

  // ---------------------------------------------------------------------------------------
  // Validating a run
  // ---------------------------------------------------------------------------------------

  const RUN_ID: Text := [114, 117, 110, 95, 105, 100]
  const SEQ: Text := [115, 101, 113]

  function Lookup(es: seq<Entry<Document>>, key: Text): (r: Option<Document>)
    ensures r.Some? ==> exists i :: 0 <= i < |es| && es[i] == Entry(key, r.value)
  {
    if es == [] then None else if es[0].key == key then Some(es[0].value) else Lookup(es[1..], key)
  }

  /** The decimal text of a counter. */
  function DecimalText(n: nat): (t: NumeralText)
    ensures forall i :: 0 <= i < |t| ==> 48 <= t[i] <= 57
  {
    if n < 10 then [48 + n] else DecimalText(n / 10) + [48 + n % 10]
  }

  lemma DecimalAppend(front: Text, digit: CodeUnit)
    ensures DecimalValue(front + [digit]) == 10 * DecimalValue(front) + digit - 48
  {
    assert (front + [digit])[..|front|] == front;
  }

  lemma {:induction false} DecimalTextValue(n: nat)
    ensures DecimalValue(DecimalText(n)) == n
  {
    if n < 10 {
      DecimalAppend([], 48 + n);
      assert [] + [48 + n] == DecimalText(n);
    } else {
      DecimalTextValue(n / 10);
      DecimalAppend(DecimalText(n / 10), 48 + n % 10);
    }
  }

  function Counter(n: nat): Document {
    Num(Numeral(DecimalText(n)))
  }

  ghost predicate RecordOfRun(e: AuditEvent, runId: Text, i: nat) {
    Lookup(e.rest, RUN_ID) == Some(Str(runId)) && Lookup(e.rest, SEQ) == Some(Counter(i))
  }

  ghost predicate ValidRun(h: Hash, events: seq<AuditEvent>, runId: Text) {
    && events != [] && runId != []
    && (forall i :: 0 <= i < |events| ==> RecordOfRun(events[i], runId, i))
    && ChainValid(h, events)
  }

  datatype RunError = EmptyLog | NoRunId | MixedRuns(at: nat) | SequenceGap(at: nat) | BrokenChain(why: ChainVerifyResult)

  method ValidateRun(h: Hash, events: seq<AuditEvent>) returns (r: Result<Text, RunError>)
    ensures r.Ok? ==> ValidRun(h, events, r.value)
    ensures r.Err? ==> forall runId :: !ValidRun(h, events, runId)
    ensures r.Err? && r.error.SequenceGap? ==> r.error.at < |events| && Lookup(events[r.error.at].rest, SEQ) != Some(Counter(r.error.at))
    ensures r.Err? && r.error.BrokenChain? ==> !ChainValid(h, events)
  {
    hide CanonicalStringify, DecimalText, Lookup, ChainValid;
    if |events| == 0 {
      return Err(EmptyLog);
    }
    var first := Lookup(events[0].rest, RUN_ID);
    if !(first.Some? && first.value.Str? && first.value.s != []) {
      assert forall runId :: RecordOfRun(events[0], runId, 0) ==> first == Some(Str(runId));
      return Err(NoRunId);
    }
    var runId := first.value.s;
    for index := 0 to |events|
      invariant forall i :: 0 <= i < index ==> RecordOfRun(events[i], runId, i)
    {
      if Lookup(events[index].rest, RUN_ID) != Some(Str(runId)) {
        assert forall other :: RecordOfRun(events[0], other, 0) ==> other == runId;
        assert !RecordOfRun(events[index], runId, index);
        return Err(MixedRuns(index));
      }
      if Lookup(events[index].rest, SEQ) != Some(Counter(index)) {
        assert forall other :: !RecordOfRun(events[index], other, index);
        return Err(SequenceGap(index));
      }
    }
    var chain := VerifyEventChain(h, events);
    if chain.Broken? {
      return Err(BrokenChain(chain));
    }
    return Ok(runId);
  }

  // ---------------------------------------------------------------------------------------
  // The head hash determines the log
  // ---------------------------------------------------------------------------------------

  /** The text whose digest is the hash of record i. */
  ghost function HashedText(h: Hash, events: seq<AuditEvent>, i: nat): Text
    requires i < |events|
  {
    ChainHash(h, events, i) + CanonicalStringify(Obj(events[i].rest))
  }

  /** No two different texts hashed while walking a and b have the same digest. */
  ghost predicate NoCollision(h: Hash, a: seq<AuditEvent>, b: seq<AuditEvent>) {
    forall i, j :: 0 <= i < |a| && 0 <= j < |b| && h(HashedText(h, a, i)) == h(HashedText(h, b, j)) ==> HashedText(h, a, i) == HashedText(h, b, j)
  }

  /** Every record is a JSON object. */
  ghost predicate WellFormedLog(events: seq<AuditEvent>) {
    forall i :: 0 <= i < |events| ==> WellFormed(Obj(events[i].rest))
  }

  ghost predicate SameEvent(a: AuditEvent, b: AuditEvent) {
    a.prevHash == b.prevHash && a.hash == b.hash && SameJson(Obj(a.rest), Obj(b.rest))
  }

  ghost predicate SameLog(a: seq<AuditEvent>, b: seq<AuditEvent>) {
    |a| == |b| && forall i :: 0 <= i < |a| ==> SameEvent(a[i], b[i])
  }

  lemma LookupSame(es: seq<Entry<Document>>, fs: seq<Entry<Document>>, key: Text, n: Numeral, m: Numeral)
    requires UniqueKeys(es) && UniqueKeys(fs) && SameJson(Obj(es), Obj(fs))
    requires Lookup(es, key) == Some(Num(n)) && Lookup(fs, key) == Some(Num(m))
    ensures n == m
  {
    hide Lookup;
    var i :| 0 <= i < |es| && es[i] == Entry(key, Num(n));
    var j :| 0 <= j < |fs| && fs[j] == Entry(key, Num(m));
    assert HoldsSame(fs, es[i]);
  }

  lemma HashIsFixedLength(h: Hash, events: seq<AuditEvent>, i: nat)
    requires FixedLength(h) && i <= |events|
    ensures |ChainHash(h, events, i)| == 64
  {
  }

  /** Two texts that agree as wholes agree on a common front part and on what follows it. */
  lemma SplitConcat(a: Text, r: Text, b: Text, s: Text)
    requires a + r == b + s && |a| == |b|
    ensures a == b && r == s
  {
    assert a == (a + r)[..|a|] && b == (b + s)[..|b|];
    assert r == (a + r)[|a|..] && s == (b + s)[|b|..];
  }

  /** Equal hashes of two valid records: their contents and positions are equal, and so are the hashes before them. */
  lemma EqualHashStepsBack(h: Hash, a: seq<AuditEvent>, b: seq<AuditEvent>, runA: Text, runB: Text, i: nat, j: nat)
    requires FixedLength(h) && ValidRun(h, a, runA) && ValidRun(h, b, runB) && WellFormedLog(a) && WellFormedLog(b)
    requires NoCollision(h, a, b) && i < |a| && j < |b|
    requires ChainHash(h, a, i + 1) == ChainHash(h, b, j + 1)
    ensures i == j && ChainHash(h, a, i) == ChainHash(h, b, j) && SameJson(Obj(a[i].rest), Obj(b[j].rest))
  {
    hide CanonicalStringify, SameJson, Lookup, ChainValid;
    assert h(HashedText(h, a, i)) == h(HashedText(h, b, j));
    HashIsFixedLength(h, a, i);
    HashIsFixedLength(h, b, j);
    SplitConcat(ChainHash(h, a, i), CanonicalStringify(Obj(a[i].rest)), ChainHash(h, b, j), CanonicalStringify(Obj(b[j].rest)));
    CanonicalIsInjective(Obj(a[i].rest), Obj(b[j].rest));
    assert RecordOfRun(a[i], runA, i) && RecordOfRun(b[j], runB, j);
    LookupSame(a[i].rest, b[j].rest, SEQ, Numeral(DecimalText(i)), Numeral(DecimalText(j)));
    DecimalTextValue(i);
    DecimalTextValue(j);
  }

  lemma {:induction false} EqualHashesEqualPrefixes(h: Hash, a: seq<AuditEvent>, b: seq<AuditEvent>, runA: Text, runB: Text, i: nat)
    requires FixedLength(h) && ValidRun(h, a, runA) && ValidRun(h, b, runB) && WellFormedLog(a) && WellFormedLog(b)
    requires NoCollision(h, a, b) && i < |a| && i < |b|
    requires ChainHash(h, a, i + 1) == ChainHash(h, b, i + 1)
    ensures forall k :: 0 <= k <= i ==> SameEvent(a[k], b[k])
  {
    hide CanonicalStringify, SameJson, Lookup, RecordOfRun, WellFormed;
    EqualHashStepsBack(h, a, b, runA, runB, i, i);
    assert LinkValid(h, a, i) && LinkValid(h, b, i);
    assert SameEvent(a[i], b[i]);
    if i > 0 {
      EqualHashesEqualPrefixes(h, a, b, runA, runB, i - 1);
    }
  }

  /** Two validated logs with the same head hash are the same log, length included. */
  lemma HeadHashDeterminesLog(h: Hash, a: seq<AuditEvent>, b: seq<AuditEvent>, runA: Text, runB: Text)
    requires FixedLength(h) && ValidRun(h, a, runA) && ValidRun(h, b, runB) && WellFormedLog(a) && WellFormedLog(b)
    requires NoCollision(h, a, b)
    requires a[|a| - 1].hash == b[|b| - 1].hash
    ensures SameLog(a, b)
  {
    hide CanonicalStringify, SameJson, Lookup, RecordOfRun, WellFormed;
    assert LinkValid(h, a, |a| - 1) && LinkValid(h, b, |b| - 1);
    EqualHashStepsBack(h, a, b, runA, runB, |a| - 1, |b| - 1);
    EqualHashesEqualPrefixes(h, a, b, runA, runB, |a| - 1);
  }

  // ---------------------------------------------------------------------------------------
  // The writer
  // ---------------------------------------------------------------------------------------

  datatype Actor = Actor(kind: Text, id: Text, model: Option<Text>)

  /** An event draft; payload is what redaction leaves of the draft's payload. */
  datatype Draft = Draft(ts: Text, runId: Text, kind: Text, actor: Actor, scenarioId: Option<Text>, findingId: Option<Text>,
                         payload: seq<Entry<Document>>)

  const SCHEMA_VERSION: Text := [115, 99, 104, 101, 109, 97, 95, 118, 101, 114, 115, 105, 111, 110]
  const TS: Text := [116, 115]
  const KIND: Text := [107, 105, 110, 100]
  const ACTOR: Text := [97, 99, 116, 111, 114]
  const SCENARIO_ID: Text := [115, 99, 101, 110, 97, 114, 105, 111, 95, 105, 100]
  const FINDING_ID: Text := [102, 105, 110, 100, 105, 110, 103, 95, 105, 100]
  const PAYLOAD: Text := [112, 97, 121, 108, 111, 97, 100]
  const TYPE: Text := [116, 121, 112, 101]
  const ID: Text := [105, 100]
  const MODEL: Text := [109, 111, 100, 101, 108]

  /** A property that JSON leaves out when its value is undefined. */
  function Optional(key: Text, value: Option<Text>): seq<Entry<Document>> {
    if value.Some? then [Entry(key, Str(value.value))] else []
  }

  function ActorEntries(a: Actor): seq<Entry<Document>> {
    [Entry(TYPE, Str(a.kind)), Entry(ID, Str(a.id))] + Optional(MODEL, a.model)
  }

  /** The properties of the record at position seqNo, without prev_hash and hash. */
  function DraftEntries(d: Draft, seqNo: nat): seq<Entry<Document>> {
    [Entry(SCHEMA_VERSION, Str([49])), Entry(SEQ, Counter(seqNo)), Entry(TS, Str(d.ts)), Entry(RUN_ID, Str(d.runId)),
     Entry(KIND, Str(d.kind)), Entry(ACTOR, Obj(ActorEntries(d.actor)))]
    + Optional(SCENARIO_ID, d.scenarioId) + Optional(FINDING_ID, d.findingId) + [Entry(PAYLOAD, Obj(d.payload))]
  }

  /** The code units of the property names, in readable form. */
  lemma KeysAreSpelled()
    ensures Spells(SCHEMA_VERSION, "schema_version") && Spells(SEQ, "seq") && Spells(TS, "ts") && Spells(RUN_ID, "run_id")
    ensures Spells(KIND, "kind") && Spells(ACTOR, "actor") && Spells(TYPE, "type") && Spells(ID, "id") && Spells(MODEL, "model")
    ensures Spells(SCENARIO_ID, "scenario_id") && Spells(FINDING_ID, "finding_id") && Spells(PAYLOAD, "payload")
  {
  }

  function TextOrNone(t: Option<Text>): Option<Document> {
    if t.Some? then Some(Str(t.value)) else None
  }

  lemma {:induction false} LookupAt(es: seq<Entry<Document>>, i: nat)
    requires UniqueKeys(es) && i < |es|
    ensures Lookup(es, es[i].key) == Some(es[i].value)
  {
    if i > 0 {
      LookupAt(es[1..], i - 1);
    }
  }

  lemma {:induction false} LookupMissing(es: seq<Entry<Document>>, key: Text)
    requires forall i :: 0 <= i < |es| ==> es[i].key != key
    ensures Lookup(es, key) == None
  {
    if es != [] {
      LookupMissing(es[1..], key);
    }
  }

  lemma RecordKeysDiffer(d: Draft, n: nat)
    requires WellFormedDraft(d)
    ensures UniqueKeys(DraftEntries(d, n))
  {
    RecordIsWellFormed(d, n);
  }

  /** Each part of the draft stands in the record under its own name. */
  lemma DraftFields(d: Draft, n: nat)
    requires WellFormedDraft(d)
    ensures var es := DraftEntries(d, n);
      && Lookup(es, SCHEMA_VERSION) == Some(Str([49])) && Lookup(es, SEQ) == Some(Counter(n))
      && Lookup(es, TS) == Some(Str(d.ts)) && Lookup(es, RUN_ID) == Some(Str(d.runId))
      && Lookup(es, KIND) == Some(Str(d.kind)) && Lookup(es, ACTOR) == Some(Obj(ActorEntries(d.actor)))
      && Lookup(es, PAYLOAD) == Some(Obj(d.payload))
  {
    RecordKeysDiffer(d, n);
    hide Lookup, Counter, WellFormedDraft, ActorEntries, UniqueKeys;
    var es := DraftEntries(d, n);
    LookupAt(es, 0);
    LookupAt(es, 1);
    LookupAt(es, 2);
    LookupAt(es, 3);
    LookupAt(es, 4);
    LookupAt(es, 5);
    LookupAt(es, |es| - 1);
  }

  /** Its scenario and finding do if there are any. */
  lemma DraftOptions(d: Draft, n: nat)
    requires WellFormedDraft(d)
    ensures Lookup(DraftEntries(d, n), SCENARIO_ID) == TextOrNone(d.scenarioId) && Lookup(DraftEntries(d, n), FINDING_ID) == TextOrNone(d.findingId)
  {
    RecordKeysDiffer(d, n);
    hide Lookup, Counter, WellFormedDraft, ActorEntries, UniqueKeys;
    var es := DraftEntries(d, n);
    if d.scenarioId.Some? {
      LookupAt(es, 6);
    } else {
      LookupMissing(es, SCENARIO_ID);
    }
    if d.findingId.Some? {
      LookupAt(es, |es| - 2);
    } else {
      LookupMissing(es, FINDING_ID);
    }
  }

  lemma ActorFields(a: Actor)
    ensures var es := ActorEntries(a);
      && Lookup(es, TYPE) == Some(Str(a.kind)) && Lookup(es, ID) == Some(Str(a.id)) && Lookup(es, MODEL) == TextOrNone(a.model)
  {
    hide Lookup;
    var es := ActorEntries(a);
    LookupAt(es, 0);
    LookupAt(es, 1);
    if a.model.Some? {
      LookupAt(es, 2);
    } else {
      LookupMissing(es, MODEL);
    }
  }

  /** The draft as the event schema's record type leaves it, which drops a key "__proto__" of the payload itself. */
  function Recorded(d: Draft): Draft {
    d.(payload := DropProto(d.payload))
  }

  /** The hash the writer holds after appending the drafts. */
  ghost function WriterHash(h: Hash, drafts: seq<Draft>): Text {
    if drafts == [] then ZERO_HASH
    else
      var n := |drafts| - 1;
      h(WriterHash(h, drafts[..n]) + Canonicalise(Obj(DraftEntries(drafts[n], n))))
  }

  /** The record at position n: the first one refers back to nothing. */
  function WriterEvent(n: nat, prev: Text, hash: Text, rest: seq<Entry<Document>>): AuditEvent {
    AuditEvent(Some(if n == 0 then Null else Str(prev)), Some(Str(hash)), rest)
  }

  /** The log that appending the drafts produces. */
  ghost function WriterLog(h: Hash, drafts: seq<Draft>): (log: seq<AuditEvent>)
    ensures |log| == |drafts|
  {
    if drafts == [] then []
    else
      var n := |drafts| - 1;
      var before := WriterHash(h, drafts[..n]);
      WriterLog(h, drafts[..n]) + [WriterEvent(n, before, WriterHash(h, drafts), DraftEntries(Recorded(drafts[n]), n))]
  }

  class EventChainWriter {
    const h: Hash
    var seqNo: nat
    var prevHash: Text
    var events: seq<AuditEvent>
    ghost var drafts: seq<Draft>

    ghost predicate Valid()
      reads this
    {
      seqNo == |drafts| && prevHash == WriterHash(h, drafts) && events == WriterLog(h, drafts)
    }

    constructor (h: Hash)
      ensures Valid() && drafts == [] && events == [] && this.h == h
    {
      this.h := h;
      seqNo, prevHash, events, drafts := 0, ZERO_HASH, [], [];
    }

    method Append(draft: Draft) returns (event: AuditEvent)
      requires Valid()
      modifies this
      ensures Valid() && drafts == old(drafts) + [draft]
      ensures events == old(events) + [event] && event.rest == DraftEntries(Recorded(draft), old(seqNo))
    {
      hide Canonicalise, DraftEntries;
      var rest := DraftEntries(draft, seqNo);
      var hash := h(prevHash + Canonicalise(Obj(rest)));
      event := WriterEvent(seqNo, prevHash, hash, DraftEntries(Recorded(draft), seqNo));
      ghost var before := drafts;
      events := events + [event];
      seqNo := seqNo + 1;
      prevHash := hash;
      drafts := drafts + [draft];
      assert drafts[..|drafts| - 1] == before;
    }
  }

  // ---------------------------------------------------------------------------------------
  // Which written logs verify
  // ---------------------------------------------------------------------------------------

  /** A property object that JavaScript can hold. */
  ghost predicate WellFormedDraft(d: Draft) {
    WellFormed(Obj(d.payload))
  }

  lemma RecordIsWellFormed(d: Draft, seqNo: nat)
    requires WellFormedDraft(d)
    ensures WellFormed(Obj(DraftEntries(d, seqNo)))
  {
    hide DecimalText;
    var es := DraftEntries(d, seqNo);
    forall i, j | 0 <= i < j < |es|
      ensures es[i].key != es[j].key
    {
    }
    assert UniqueKeys(ActorEntries(d.actor));
    forall i | 0 <= i < |es|
      ensures WellFormed(es[i].value)
    {
    }
  }

  lemma NotAnIndex(key: Text)
    requires key != [] && key[0] > 57 && key[0] != 95
    ensures !IsArrayIndex(key) && key != PROTO
  {
  }

  lemma FixedKeysAreOrderly(es: seq<Entry<Document>>)
    requires forall i :: 0 <= i < |es| ==> es[i].key != [] && es[i].key[0] > 57 && es[i].key[0] != 95
    ensures OrderlyKeys(es)
  {
    hide IsArrayIndex, TextLeq;
    forall i | 0 <= i < |es|
      ensures !IsArrayIndex(es[i].key) && es[i].key != PROTO
    {
      NotAnIndex(es[i].key);
    }
  }

  /** Only the payload can bring in keys on which the two canonical forms differ. */
  lemma RecordIsOrderlyIffPayloadIs(d: Draft, seqNo: nat)
    ensures Orderly(Obj(DraftEntries(d, seqNo))) <==> Orderly(Obj(d.payload))
  {
    hide OrderlyKeys, DecimalText;
    var es := DraftEntries(d, seqNo);
    FixedKeysAreOrderly(es);
    FixedKeysAreOrderly(ActorEntries(d.actor));
    assert Orderly(Obj(ActorEntries(d.actor)));
    assert es[|es| - 1].value == Obj(d.payload);
    forall i | 0 <= i < |es| - 1
      ensures Orderly(es[i].value)
    {
    }
  }

  lemma {:induction false} ChainHashOfPrefix(h: Hash, log: seq<AuditEvent>, e: AuditEvent, i: nat)
    requires i <= |log|
    ensures ChainHash(h, log + [e], i) == ChainHash(h, log, i)
  {
    hide CanonicalStringify;
    if i > 0 {
      ChainHashOfPrefix(h, log, e, i - 1);
    }
  }

  lemma ChainValidByLast(h: Hash, log: seq<AuditEvent>, e: AuditEvent)
    ensures ChainValid(h, log + [e]) <==> ChainValid(h, log) && LinkValid(h, log + [e], |log|)
  {
    hide CanonicalStringify;
    forall i | 0 <= i < |log|
      ensures LinkValid(h, log + [e], i) <==> LinkValid(h, log, i)
    {
      ChainHashOfPrefix(h, log, e, i);
      ChainHashOfPrefix(h, log, e, i + 1);
    }
    if ChainValid(h, log + [e]) {
      forall i | 0 <= i < |log|
        ensures LinkValid(h, log, i)
      {
        assert LinkValid(h, log + [e], i);
      }
    }
  }

  /** A record that refers back correctly is valid exactly when its hash is the one the verifier computes. */
  lemma LastLink(h: Hash, log: seq<AuditEvent>, prev: Text, hash: Text, rest: seq<Entry<Document>>)
    requires ChainHash(h, log, |log|) == prev
    ensures var e := WriterEvent(|log|, prev, hash, rest);
      && (LinkValid(h, log + [e], |log|) <==> hash == ComputeHash(h, prev, rest))
      && ChainHash(h, log + [e], |log| + 1) == ComputeHash(h, prev, rest)
  {
    hide ComputeHash;
    var e := WriterEvent(|log|, prev, hash, rest);
    ChainHashOfPrefix(h, log, e, |log|);
  }

  /** For no record do the writer's text and the verifier's text differ and yet have the same digest. */
  ghost predicate NoFormCollision(h: Hash, drafts: seq<Draft>) {
    forall k {:trigger drafts[k]} :: 0 <= k < |drafts| ==>
      DistinctForms(h, WriterHash(h, drafts[..k]), Obj(DraftEntries(Recorded(drafts[k]), k)))
  }

  ghost predicate DistinctForms(h: Hash, prev: Text, record: Document) {
    h(prev + Canonicalise(record)) == h(prev + CanonicalStringify(record)) ==> Canonicalise(record) == CanonicalStringify(record)
  }

  ghost predicate AllOrderly(drafts: seq<Draft>) {
    forall k :: 0 <= k < |drafts| ==> Orderly(Obj(Recorded(drafts[k]).payload))
  }

  /**
   A log written by any sequence of appends verifies exactly when every recorded payload is orderly:
   no key "__proto__" inside any of its values, and no array-index key that sorted order puts
   behind a key it belongs before.
   */
  lemma {:induction false} WrittenLogVerifies(h: Hash, drafts: seq<Draft>)
    requires forall k :: 0 <= k < |drafts| ==> WellFormedDraft(drafts[k])
    requires NoFormCollision(h, drafts)
    ensures ChainValid(h, WriterLog(h, drafts)) <==> AllOrderly(drafts)
    ensures ChainValid(h, WriterLog(h, drafts)) ==> ChainHash(h, WriterLog(h, drafts), |drafts|) == WriterHash(h, drafts)
  {
    hide *;
    if drafts == [] {
      NothingToVerify(h);
    } else {
      var n := |drafts| - 1;
      var init, d, log := drafts[..n], drafts[n], WriterLog(h, drafts[..n]);
      PrefixHasNoCollision(h, drafts);
      forall k | 0 <= k < n
        ensures WellFormedDraft(init[k])
      {
        assert init[k] == drafts[k];
      }
      WrittenLogVerifies(h, init);
      WriterStep(h, drafts);
      ChainValidByLast(h, log, WriterEvent(n, WriterHash(h, init), WriterHash(h, drafts), DraftEntries(Recorded(d), n)));
      if ChainValid(h, log) {
        LastLink(h, log, WriterHash(h, init), WriterHash(h, drafts), DraftEntries(Recorded(d), n));
        LastLinkValid(h, WriterHash(h, init), d, n);
      }
    }
  }

  lemma WriterStep(h: Hash, drafts: seq<Draft>)
    requires drafts != []
    ensures var n := |drafts| - 1;
      var init, rest := drafts[..n], DraftEntries(drafts[n], n);
      && WriterHash(h, drafts) == h(WriterHash(h, init) + Canonicalise(Obj(rest)))
      && WriterLog(h, drafts) == WriterLog(h, init) + [WriterEvent(n, WriterHash(h, init), WriterHash(h, drafts), DraftEntries(Recorded(drafts[n]), n))]
      && (AllOrderly(drafts) <==> AllOrderly(init) && Orderly(Obj(Recorded(drafts[n]).payload)))
  {
    hide DraftEntries, Canonicalise, Orderly, Recorded;
    var n := |drafts| - 1;
    assert forall k :: 0 <= k < n ==> drafts[..n][k] == drafts[k];
  }

  lemma NothingToVerify(h: Hash)
    ensures ChainValid(h, WriterLog(h, [])) && AllOrderly([]) && ChainHash(h, WriterLog(h, []), 0) == WriterHash(h, [])
  {
  }

  lemma PrefixHasNoCollision(h: Hash, drafts: seq<Draft>)
    requires drafts != [] && NoFormCollision(h, drafts)
    ensures NoFormCollision(h, drafts[..|drafts| - 1])
    ensures DistinctForms(h, WriterHash(h, drafts[..|drafts| - 1]), Obj(DraftEntries(Recorded(drafts[|drafts| - 1]), |drafts| - 1)))
  {
    hide DistinctForms, DraftEntries, WriterHash, Recorded;
    var init := drafts[..|drafts| - 1];
    forall k | 0 <= k < |init|
      ensures DistinctForms(h, WriterHash(h, init[..k]), Obj(DraftEntries(Recorded(init[k]), k)))
    {
      assert init[..k] == drafts[..k] && init[k] == drafts[k];
    }
  }

  /** What the writer hashes does not depend on the key that the schema drops. */
  lemma RecordedHashesAlike(d: Draft, n: nat)
    requires WellFormedDraft(d)
    ensures WellFormedDraft(Recorded(d)) && Canonicalise(Obj(DraftEntries(Recorded(d), n))) == Canonicalise(Obj(DraftEntries(d, n)))
  {
    hide Print, DecimalText, PropertyOrder, SortByKey;
    ProtoIsNotWritten(d.payload);
    RecordedIsWellFormed(d);
    var es, fs := DraftEntries(d, n), DraftEntries(Recorded(d), n);
    assert |es| == |fs| && es[..|es| - 1] == fs[..|es| - 1];
    hide DraftEntries, DropProto, Rebuild;
    forall i | 0 <= i < |es|
      ensures RebuildValues(es)[i] == RebuildValues(fs)[i]
    {
      assert i < |es| - 1 ==> es[i] == es[..|es| - 1][i] == fs[i];
    }
    assert RebuildValues(es) == RebuildValues(fs);
    SameRebuilt(es, fs);
  }

  lemma SameRebuilt(es: seq<Entry<Document>>, fs: seq<Entry<Document>>)
    requires RebuildValues(es) == RebuildValues(fs)
    ensures Canonicalise(Obj(es)) == Canonicalise(Obj(fs))
  {
    hide Print, PropertyOrder, SortByKey, DropProto, RebuildValues;
  }

  lemma RecordedIsWellFormed(d: Draft)
    requires WellFormedDraft(d)
    ensures WellFormedDraft(Recorded(d))
  {
    DropProtoKeepsUnique(d.payload);
    var r := DropProto(d.payload);
    hide DropProto;
    forall i | 0 <= i < |r|
      ensures WellFormed(r[i].value)
    {
      DropProtoHolds(d.payload, r[i]);
    }
  }

  lemma LastLinkValid(h: Hash, prev: Text, d: Draft, n: nat)
    requires WellFormedDraft(d) && DistinctForms(h, prev, Obj(DraftEntries(Recorded(d), n)))
    ensures h(prev + Canonicalise(Obj(DraftEntries(d, n)))) == ComputeHash(h, prev, DraftEntries(Recorded(d), n)) <==> Orderly(Obj(Recorded(d).payload))
  {
    hide CanonicalStringify, Canonicalise, DraftEntries, Orderly, WellFormedDraft, Recorded;
    RecordedHashesAlike(d, n);
    RecordIsWellFormed(Recorded(d), n);
    WriterAgreesWithVerifier(Obj(DraftEntries(Recorded(d), n)));
    RecordIsOrderlyIffPayloadIs(Recorded(d), n);
  }

  /** Every draft is of this run. */
  predicate AllOfRun(drafts: seq<Draft>, runId: Text) {
    forall k :: 0 <= k < |drafts| ==> drafts[k].runId == runId
  }

  lemma {:induction false} WrittenRecords(h: Hash, drafts: seq<Draft>, i: nat)
    requires i < |drafts|
    ensures WriterLog(h, drafts)[i].rest == DraftEntries(Recorded(drafts[i]), i)
  {
    hide DraftEntries, Recorded, WriterHash;
    if i < |drafts| - 1 {
      WrittenRecords(h, drafts[..|drafts| - 1], i);
    }
  }

  /**
   A written log is a valid run, as checkpoints ask for, exactly when it is not empty, all drafts
   name the one run, and every recorded payload is orderly: its positions are right by themselves.
   */
  lemma WrittenLogIsRun(h: Hash, drafts: seq<Draft>, runId: Text)
    requires forall k :: 0 <= k < |drafts| ==> WellFormedDraft(drafts[k])
    requires NoFormCollision(h, drafts)
    ensures ValidRun(h, WriterLog(h, drafts), runId) <==> drafts != [] && runId != [] && AllOfRun(drafts, runId) && AllOrderly(drafts)
  {
    hide ChainValid, AllOrderly, NoFormCollision, WellFormedDraft, ChainHash, WriterHash, RecordOfRun, WriterLog;
    WrittenLogVerifies(h, drafts);
    forall i | 0 <= i < |drafts|
      ensures RecordOfRun(WriterLog(h, drafts)[i], runId, i) <==> drafts[i].runId == runId
    {
      RecordIsOfRunIff(h, drafts, i, runId);
    }
  }

  lemma RecordIsOfRunIff(h: Hash, drafts: seq<Draft>, i: nat, runId: Text)
    requires i < |drafts| && WellFormedDraft(drafts[i])
    ensures RecordOfRun(WriterLog(h, drafts)[i], runId, i) <==> drafts[i].runId == runId
  {
    hide DraftEntries, Recorded, Lookup, WriterLog, WellFormedDraft, Counter;
    WrittenRecords(h, drafts, i);
    RecordedIsWellFormed(drafts[i]);
    DraftFields(Recorded(drafts[i]), i);
    SameRunRecorded(drafts[i]);
  }

  lemma SameRunRecorded(d: Draft)
    ensures Recorded(d).runId == d.runId
  {
  }

  /** Two keys on which the canonical forms differ: sorted order is "10", "9", property order is "9", "10". */
  lemma IndexKeysBreakAgreement(v: Document, w: Document)
    ensures !Orderly(Obj([Entry([57], v), Entry([49, 48], w)]))
  {
    var es := [Entry([57], v), Entry([49, 48], w)];
    assert es[0].key == [57] && es[1].key == [49, 48];
    assert [49, 48][..1] == [49] && [49][..0] == [] && [57][..0] == [];
    assert DecimalValue([49, 48]) == 10 && DecimalValue([57]) == 9;
    assert TextLeq(es[1].key, es[0].key) && !MayPrecede(es[1].key, es[0].key);
    assert !PairInOrder(es[1].key, es[0].key);
  }
}
