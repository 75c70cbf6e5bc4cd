/**
 Checkpoints of audit logs: the record that pins a log by its bounds, head hash and digest, its
 optional signature, and what a verified checkpoint and a signature determine.  The hash function
 and the signature scheme are parameters.
 */
module AuditCheckpoint {
  import opened Results
  import opened Json
  import opened JsonPrinter
  import opened JsonReader
  import opened CanonicalJson
  import opened AuditChain
  import Strings

  /** The algorithm's name, the id of the key and the signature text. */
  datatype Signature = Signature(algorithm: string, keyId: string, signature: Text)

  datatype Checkpoint = Checkpoint(schemaVersion: Text, runId: Text, firstSeq: int, lastSeq: int, eventCount: int,
                                   headHash: Option<Document>, eventsSha256: Text, createdAt: Text, signature: Option<Signature>)

  datatype Signer = Signer(keyId: string, privateKey: Text)

  /** The signature of a payload under a private key, or nothing when the key cannot be read. */
  type Sign = (Text, Text) -> Option<Text>

  /** Whether a payload, a public key and a signature match; a key that cannot be read matches nothing. */
  type Verify = (Text, Text, Text) -> bool

  const ED25519: string := "ed25519"

  const PREV_HASH: Text := [112, 114, 101, 118, 95, 104, 97, 115, 104]
  const HASH: Text := [104, 97, 115, 104]
  const FIRST_SEQ: Text := [102, 105, 114, 115, 116, 95, 115, 101, 113]
  const LAST_SEQ: Text := [108, 97, 115, 116, 95, 115, 101, 113]
  const EVENT_COUNT: Text := [101, 118, 101, 110, 116, 95, 99, 111, 117, 110, 116]
  const HEAD_HASH: Text := [104, 101, 97, 100, 95, 104, 97, 115, 104]
  const EVENTS_SHA256: Text := [101, 118, 101, 110, 116, 115, 95, 115, 104, 97, 50, 53, 54]
  const CREATED_AT: Text := [99, 114, 101, 97, 116, 101, 100, 95, 97, 116]

  // ---------------------------------------------------------------------------------------
  // The digest of a log and the payload of a checkpoint
  // ---------------------------------------------------------------------------------------

  function FullRecord(e: AuditEvent): Document {
    Obj(e.rest + (if e.prevHash.Some? then [Entry(PREV_HASH, e.prevHash.value)] else []) + (if e.hash.Some? then [Entry(HASH, e.hash.value)] else []))
  }

  /** The records as canonical lines. */
  function Lines(events: seq<AuditEvent>): Text {
    if events == [] then [] else CanonicalStringify(FullRecord(events[0])) + [10] + Lines(events[1..])
  }

  lemma FirstLine(a: seq<AuditEvent>, b: seq<AuditEvent>)
    requires a != [] && b != [] && Lines(a) == Lines(b)
    ensures SortKeys(FullRecord(a[0])) == SortKeys(FullRecord(b[0])) && Lines(a[1..]) == Lines(b[1..])
  {
    hide CanonicalStringify, FullRecord, SortKeys, ReadValue;
    var v, w, restA, restB := FullRecord(a[0]), FullRecord(b[0]), Lines(a[1..]), Lines(b[1..]);
    assert Lines(a) == CanonicalStringify(v) + ([10] + restA) && Lines(b) == CanonicalStringify(w) + ([10] + restB);
    hide Lines;
    LineReadsBack(v, restA);
    LineReadsBack(w, restB);
    assert ([10] + restA)[1..] == restA && ([10] + restB)[1..] == restB;
  }

  /** The digested text determines every record, prev_hash and hash included. */
  lemma {:induction false} LinesDetermineRecords(a: seq<AuditEvent>, b: seq<AuditEvent>)
    requires (forall i :: 0 <= i < |a| ==> WellFormed(FullRecord(a[i]))) && forall i :: 0 <= i < |b| ==> WellFormed(FullRecord(b[i]))
    requires Lines(a) == Lines(b)
    ensures |a| == |b| && forall i :: 0 <= i < |a| ==> SameJson(FullRecord(a[i]), FullRecord(b[i]))
  {
    hide FullRecord, WellFormed, SameJson, SortKeys, Lines;
    LinesStart(a);
    LinesStart(b);
    if a != [] {
      FirstLine(a, b);
      SortedIffSame(FullRecord(a[0]), FullRecord(b[0]));
      LinesDetermineRecords(a[1..], b[1..]);
    }
  }

  lemma LinesStart(events: seq<AuditEvent>)
    ensures events == [] <==> Lines(events) == []
  {
    hide CanonicalStringify, FullRecord;
  }

  lemma LineReadsBack(v: Document, r: Text)
    ensures ReadValue(CanonicalStringify(v) + ([10] + r)) == Some((SortKeys(v), [10] + r))
  {
    hide CanonicalStringify, SortKeys, Print, ReadValue;
    CanonicalPrintsSorted(v);
    ValueReadsBack(SortKeys(v), [10] + r);
  }

  method EventDigest(h: Hash, events: seq<AuditEvent>) returns (digest: Text)
    ensures digest == h(Lines(events))
  {
    hide CanonicalStringify, FullRecord;
    var bytes: Text := [];
    for i := 0 to |events|
      invariant bytes + Lines(events[i..]) == Lines(events)
    {
      assert events[i..][1..] == events[i + 1..];
      bytes := bytes + CanonicalStringify(FullRecord(events[i])) + [10];
    }
    assert bytes + Lines([]) == bytes;
    digest := h(bytes);
  }

  function Integer(n: int): Document {
    if n >= 0 then Counter(n) else Num(Numeral([45] + DecimalText(-n)))
  }

  /** And those of the names that only records and checkpoints have. */
  lemma CheckpointKeysAreSpelled()
    ensures Spells(PREV_HASH, "prev_hash") && Spells(HASH, "hash") && Spells(FIRST_SEQ, "first_seq") && Spells(LAST_SEQ, "last_seq")
    ensures Spells(EVENT_COUNT, "event_count") && Spells(HEAD_HASH, "head_hash") && Spells(EVENTS_SHA256, "events_sha256") && Spells(CREATED_AT, "created_at")
  {
  }

  /** The properties of the checkpoint other than its signature. */
  function UnsignedEntries(c: Checkpoint): seq<Entry<Document>> {
    [Entry(SCHEMA_VERSION, Str(c.schemaVersion)), Entry(RUN_ID, Str(c.runId)), Entry(FIRST_SEQ, Integer(c.firstSeq)),
     Entry(LAST_SEQ, Integer(c.lastSeq)), Entry(EVENT_COUNT, Integer(c.eventCount)), Entry(EVENTS_SHA256, Str(c.eventsSha256)),
     Entry(CREATED_AT, Str(c.createdAt))]
    + if c.headHash.Some? then [Entry(HEAD_HASH, c.headHash.value)] else []
  }

  /** The signed text. */
  function Payload(c: Checkpoint): Text {
    CanonicalStringify(Obj(UnsignedEntries(c)))
  }

  // ---------------------------------------------------------------------------------------
  // Creating and verifying
  // ---------------------------------------------------------------------------------------

  /** The checkpoint describes the log; its signature does not matter. */
  ghost predicate Describes(h: Hash, events: seq<AuditEvent>, c: Checkpoint) {
    && c.schemaVersion == [49]
    && ValidRun(h, events, c.runId)
    && c.firstSeq == 0 && c.lastSeq == |events| - 1 && c.eventCount == |events|
    && c.headHash == events[|events| - 1].hash
    && c.eventsSha256 == h(Lines(events))
  }

  ghost predicate SignedBy(sign: Sign, signer: Option<Signer>, c: Checkpoint) {
    if signer.None? then c.signature.None?
    else
      && !Strings.Blank(signer.value.keyId)
      && c.signature.Some? && c.signature.value.algorithm == ED25519 && c.signature.value.keyId == Strings.Trim(signer.value.keyId)
      && sign(Payload(c), signer.value.privateKey) == Some(c.signature.value.signature)
  }

  predicate SignatureAccepted(verify: Verify, c: Checkpoint, trustedKey: Option<Text>) {
    c.signature.Some? ==>
      && trustedKey.Some? && trustedKey.value != [] && c.signature.value.algorithm == ED25519
      && verify(Payload(c), trustedKey.value, c.signature.value.signature)
  }

  ghost predicate Accepted(h: Hash, verify: Verify, events: seq<AuditEvent>, c: Checkpoint, trustedKey: Option<Text>) {
    Describes(h, events, c) && SignatureAccepted(verify, c, trustedKey)
  }

  ghost predicate IsValidLog(h: Hash, events: seq<AuditEvent>) {
    exists runId :: ValidRun(h, events, runId)
  }

  datatype CreateError = InvalidLog(error: RunError) | KeyIdRequired | SigningFailed

  method CreateAuditCheckpoint(h: Hash, sign: Sign, events: seq<AuditEvent>, signer: Option<Signer>, createdAt: Text)
    returns (r: Result<Checkpoint, CreateError>)
    ensures r.Err? && r.error.InvalidLog? <==> !IsValidLog(h, events)
    ensures r == Err(KeyIdRequired) <==> IsValidLog(h, events) && signer.Some? && Strings.Blank(signer.value.keyId)
    ensures r == Err(SigningFailed) ==>
      signer.Some? && exists c :: Describes(h, events, c) && c.createdAt == createdAt && sign(Payload(c), signer.value.privateKey).None?
    ensures r.Ok? ==> Describes(h, events, r.value) && r.value.createdAt == createdAt && SignedBy(sign, signer, r.value)
  {
    hide CanonicalStringify, RecordOfRun, ChainValid, UnsignedEntries;
    var run := ValidateRun(h, events);
    if run.Err? {
      return Err(InvalidLog(run.error));
    }
    assert IsValidLog(h, events);
    if signer.Some? && Strings.Trim(signer.value.keyId) == "" {
      return Err(KeyIdRequired);
    }
    var digest := EventDigest(h, events);
    var c := Checkpoint([49], run.value, 0, |events| - 1, |events|, events[|events| - 1].hash, digest, createdAt, None);
    assert Describes(h, events, c);
    if signer.None? {
      return Ok(c);
    }
    var signature := sign(Payload(c), signer.value.privateKey);
    if signature.None? {
      return Err(SigningFailed);
    }
    r := Ok(c.(signature := Some(Signature(ED25519, Strings.Trim(signer.value.keyId), signature.value))));
    SignatureIsNotSigned(c, r.value);
  }

  lemma SignatureIsNotSigned(c: Checkpoint, d: Checkpoint)
    requires d == c.(signature := d.signature)
    ensures Payload(d) == Payload(c)
  {
  }

  datatype CheckpointError =
    | InvalidRun(error: RunError) | UnsupportedSchema | RunIdMismatch | BoundsMismatch | CountMismatch | HeadMismatch | DigestMismatch
    | NoTrustedKey | UnsupportedSignature | SignatureMismatch

  predicate AboutSignature(e: CheckpointError) {
    e.NoTrustedKey? || e.UnsupportedSignature? || e.SignatureMismatch?
  }

  method VerifyAuditCheckpoint(h: Hash, verify: Verify, events: seq<AuditEvent>, c: Checkpoint, trustedKey: Option<Text>)
    returns (error: Option<CheckpointError>)
    ensures error.None? <==> Accepted(h, verify, events, c, trustedKey)
    ensures error.Some? ==> (AboutSignature(error.value) <==> Describes(h, events, c))
  {
    hide CanonicalStringify, ChainValid, Lookup, Payload;
    var run := ValidateRun(h, events);
    if run.Err? {
      return Some(InvalidRun(run.error));
    }
    if c.schemaVersion != [49] {
      return Some(UnsupportedSchema);
    }
    if c.runId != run.value {
      assert RecordOfRun(events[0], run.value, 0) && !RecordOfRun(events[0], c.runId, 0);
      return Some(RunIdMismatch);
    }
    if c.firstSeq != 0 || c.lastSeq != |events| - 1 {
      return Some(BoundsMismatch);
    }
    if c.eventCount != |events| {
      return Some(CountMismatch);
    }
    if c.headHash != events[|events| - 1].hash {
      return Some(HeadMismatch);
    }
    var digest := EventDigest(h, events);
    if c.eventsSha256 != digest {
      return Some(DigestMismatch);
    }
    if c.signature.Some? {
      if trustedKey.None? || trustedKey.value == [] {
        return Some(NoTrustedKey);
      }
      if c.signature.value.algorithm != ED25519 {
        return Some(UnsupportedSignature);
      }
      if !verify(Payload(c), trustedKey.value, c.signature.value.signature) {
        return Some(SignatureMismatch);
      }
    }
    return None;
  }

  // ---------------------------------------------------------------------------------------
  // What a checkpoint and a signature determine
  // ---------------------------------------------------------------------------------------

  /** What the private key signs, the public key accepts. */
  ghost predicate KeyPair(sign: Sign, verify: Verify, privateKey: Text, publicKey: Text) {
    forall payload, signature :: sign(payload, privateKey) == Some(signature) ==> verify(payload, publicKey, signature)
  }

  /** A created checkpoint verifies: unsigned with any key or none, signed with the signer's public key. */
  lemma CreatedIsAccepted(h: Hash, sign: Sign, verify: Verify, events: seq<AuditEvent>, signer: Option<Signer>, c: Checkpoint, trustedKey: Option<Text>)
    requires Describes(h, events, c) && SignedBy(sign, signer, c)
    requires signer.Some? ==> trustedKey.Some? && trustedKey.value != [] && KeyPair(sign, verify, signer.value.privateKey, trustedKey.value)
    ensures Accepted(h, verify, events, c, trustedKey)
  {
    hide Describes, Payload;
  }

  /** A checkpoint describes one log only. */
  lemma CheckpointDeterminesLog(h: Hash, a: seq<AuditEvent>, b: seq<AuditEvent>, c: Checkpoint)
    requires FixedLength(h) && WellFormedLog(a) && WellFormedLog(b) && NoCollision(h, a, b)
    requires Describes(h, a, c) && Describes(h, b, c)
    ensures SameLog(a, b)
  {
    hide Lines, SameLog, WellFormedLog, NoCollision;
    HeadHashDeterminesLog(h, a, b, c.runId, c.runId);
  }

  /** The head hash is a text, as in every validated log. */
  predicate HeadIsText(c: Checkpoint) {
    c.headHash.Some? && c.headHash.value.Str?
  }

  lemma DescribedHeadIsText(h: Hash, events: seq<AuditEvent>, c: Checkpoint)
    requires Describes(h, events, c)
    ensures HeadIsText(c)
  {
    hide ValidRun, ChainHash;
    LastIsLinked(h, events, c.runId);
  }

  lemma LastIsLinked(h: Hash, events: seq<AuditEvent>, runId: Text)
    requires ValidRun(h, events, runId)
    ensures events != [] && events[|events| - 1].hash == Some(Str(ChainHash(h, events, |events|)))
  {
    assert LinkValid(h, events, |events| - 1);
  }

  lemma UnsignedIsWellFormed(c: Checkpoint)
    requires HeadIsText(c)
    ensures WellFormed(Obj(UnsignedEntries(c)))
  {
    hide DecimalText;
    var es := UnsignedEntries(c);
    forall i, j | 0 <= i < j < |es|
      ensures es[i].key != es[j].key
    {
    }
  }

  /** Two objects that are the same JSON hold the same texts under the same key. */
  lemma SameUnderKey(es: seq<Entry<Document>>, fs: seq<Entry<Document>>, i: nat, j: nat)
    requires UniqueKeys(fs) && SameJson(Obj(es), Obj(fs))
    requires i < |es| && j < |fs| && es[i].key == fs[j].key && IsText(es[i].value)
    ensures es[i].value == fs[j].value
  {
    assert HoldsSame(fs, es[i]);
  }

  predicate IsText(v: Document) {
    v.Str?
  }

  /** The signed text determines the run, the digest, the head and the time of the checkpoint. */
  lemma PayloadDetermines(c: Checkpoint, d: Checkpoint)
    requires HeadIsText(c) && HeadIsText(d) && Payload(c) == Payload(d)
    ensures c.schemaVersion == d.schemaVersion && c.runId == d.runId && c.headHash == d.headHash
    ensures c.eventsSha256 == d.eventsSha256 && c.createdAt == d.createdAt
  {
    hide CanonicalStringify, SameJson, WellFormed, DecimalText;
    UnsignedIsWellFormed(c);
    UnsignedIsWellFormed(d);
    var es, fs := UnsignedEntries(c), UnsignedEntries(d);
    CanonicalIsInjective(Obj(es), Obj(fs));
    assert UniqueKeys(fs) by { KeysAreUnique(fs); }
    SameUnderKey(es, fs, 0, 0);
    SameUnderKey(es, fs, 1, 1);
    SameUnderKey(es, fs, 5, 5);
    SameUnderKey(es, fs, 6, 6);
    SameUnderKey(es, fs, 7, 7);
  }

  lemma KeysAreUnique(es: seq<Entry<Document>>)
    requires WellFormed(Obj(es))
    ensures UniqueKeys(es)
  {
  }

  /** No two of these checkpoints' payloads go with one signature. */
  ghost predicate Binding(verify: Verify, c: Checkpoint, d: Checkpoint, publicKey: Text, signature: Text) {
    verify(Payload(c), publicKey, signature) && verify(Payload(d), publicKey, signature) ==> Payload(c) == Payload(d)
  }

  lemma SameLogSameLength(a: seq<AuditEvent>, b: seq<AuditEvent>)
    requires SameLog(a, b)
    ensures |a| == |b|
  {
  }

  /** A signature that is accepted on two checkpoints belongs to one checkpoint of one log. */
  lemma SignatureDeterminesCheckpointAndLog(
    h: Hash, verify: Verify, a: seq<AuditEvent>, b: seq<AuditEvent>, c: Checkpoint, d: Checkpoint, publicKey: Text)
    requires FixedLength(h) && WellFormedLog(a) && WellFormedLog(b) && NoCollision(h, a, b)
    requires Accepted(h, verify, a, c, Some(publicKey)) && Accepted(h, verify, b, d, Some(publicKey))
    requires c.signature.Some? && c.signature == d.signature && Binding(verify, c, d, publicKey, c.signature.value.signature)
    ensures c == d && SameLog(a, b)
  {
    hide Lines, SameLog, WellFormedLog, NoCollision, Payload, ValidRun, FixedLength;
    DescribedHeadIsText(h, a, c);
    DescribedHeadIsText(h, b, d);
    PayloadDetermines(c, d);
    HeadHashDeterminesLog(h, a, b, c.runId, d.runId);
    assert |a| == |b| by { SameLogSameLength(a, b); }
  }
}
