/**
 Sealed JSON documents that embed other documents
 (tools/hk_v1_admission_operational_evidence.py:244-291, 985-1007, 1351-1363).

 A document's bytes are the canonical form of its value (RFC 8785, section 3.2), so they are
 that value. A JSON string that spells bytes in hexadecimal, or that is the digest of some
 bytes, is written with the constructor that says so; `Text` is every other string.
 */
module GateDocuments {
  import opened Wrappers
  import opened Text

  datatype Field =
    | AcceptanceResult | Activation | ActiveStateId | ApprovalFingerprint | ApprovalId | Artifacts | AttemptOperationId
    | BackupFingerprint | BaselineServingStateId | BlockerCodes | BootIdFingerprint | ByteLength | Candidate
    | CandidateServingStateFingerprint | CandidateServingStateId | CommandFingerprint | ContentHex | CoverageFingerprint
    | CurrentServingStateId | DesiredInventoryFingerprint | EmbeddingProfileFingerprint | EmbeddingProfileId
    | ExecutionLineageId | Families | Fingerprint | HostFactsFingerprint | HostFactsHex | Kind | LogicalKey
    | ObservationCutoff | Operation | OperationId | Outcome | Owner | PredecessorServingStateFingerprint
    | PredecessorServingStateId | PredecessorStateId | PredecessorTargetFingerprint | PredecessorTargetName
    | ProposalFingerprint | ProposalReference | ReadbackFingerprint | ReceiptId | Rollback | RootOperationId
    | ScheduleKind | ScheduleStateFingerprint | ScheduleStateHex | SchedulerOutputFingerprint | SchedulerOutputHex
    | SchemaId | SchemaVersion | ScopeIds | ServingStateContentFingerprint | ServingStateFingerprint | ServingStateHex
    | ServingStateId | TargetFingerprint | TargetName | Vault | VersionId | OtherField(name: string)

  /** Spelling 0 of a hexadecimal string is the one that `hex()` gives; `fromhex` also reads the others. */
  datatype Json =
    | Null
    | Boolean(value: bool)
    | Number(number: int)
    | Text(text: string)
    | Hex(content: Bytes, spelling: nat)
    | Sha256(content: Bytes)
    | Array(items: seq<Json>)
    | Object(fields: map<Field, Json>)

  datatype Bytes = Canonical(json: Json) | Raw(bytes: string)

  type Fields = map<Field, Json>

  const EMPTY := Raw("")
  const VERSION := Json.Text("1.0.0")
  const COMPLETE := Json.Text("COMPLETE")
  const MAX_BYTES: nat := 10_000_000

  datatype GateError =
    | CompositeInvalid | SourceInvalid | SupervisionInvalid | RestartInvalid | ServingStateInvalid
    | CycleInvalid | PromotionInvalid | ScheduledCycleInvalid | LineageInvalid

  predicate IsDigest(value: Json) {
    value.Sha256? || (value.Text? && IsFingerprint(value.text))
  }

  predicate IsIdentity(value: Json, tag: string) {
    value.Text? && IsTagged(value.text, tag, 48)
  }

  /** `type(value) is str and value` */
  predicate IsText(value: Json) {
    value.Sha256? || (value.Text? && value.text != "") || (value.Hex? && value.content != EMPTY)
  }

  /** `document.get(field)` */
  function Get(fields: Fields, field: Field): Json {
    if field in fields then fields[field] else Null
  }

  /** `_document`: the fields of an object's canonical bytes within the size bound. */
  function Document(size: Bytes -> nat, raw: Bytes): Option<Fields> {
    if raw.Canonical? && raw.json.Object? && size(raw) <= MAX_BYTES then Some(raw.json.fields) else None
  }

  function DigestOf(body: Fields): Json {
    Json.Sha256(Canonical(Object(body)))
  }

  /** A body with its own fingerprint beside it. */
  function Seal(body: Fields): Bytes {
    Canonical(Object(body[Fingerprint := DigestOf(body)]))
  }

  predicate IsSealed(fields: Fields) {
    Get(fields, Fingerprint) == DigestOf(fields - {Fingerprint})
  }

  /** What was sealed is sealed, and its body is recovered; and what is sealed is the seal of its body. */
  lemma SealOpens(body: Fields)
    requires Fingerprint !in body
    ensures var fields := body[Fingerprint := DigestOf(body)];
            fields - {Fingerprint} == body && IsSealed(fields) && fields.Keys == body.Keys + {Fingerprint}
  {
    assert body[Fingerprint := DigestOf(body)] - {Fingerprint} == body;
  }

  lemma SealedIsSeal(raw: Bytes)
    requires raw.Canonical? && raw.json.Object? && IsSealed(raw.json.fields) && Fingerprint in raw.json.fields
    ensures raw == Seal(raw.json.fields - {Fingerprint})
  {
    var fields := raw.json.fields;
    assert (fields - {Fingerprint})[Fingerprint := DigestOf(fields - {Fingerprint})] == fields;
  }

  /** `_sealed` */
  function OpenSealed(size: Bytes -> nat, raw: Bytes, schema: string, names: set<Field>): Option<Fields> {
    var document := Document(size, raw);
    if document.None? || document.value.Keys != names + {SchemaId, SchemaVersion, Fingerprint}
       || document.value[SchemaId] != Json.Text(schema) || document.value[SchemaVersion] != VERSION
       || !IsSealed(document.value) then None
    else document
  }

  /** A sealed body opens again exactly when its bytes fit. */
  lemma SealedOpens(size: Bytes -> nat, body: Fields, schema: string, names: set<Field>)
    requires body.Keys == names + {SchemaId, SchemaVersion} && Fingerprint !in names
    requires body[SchemaId] == Json.Text(schema) && body[SchemaVersion] == VERSION
    ensures OpenSealed(size, Seal(body), schema, names)
         == if size(Seal(body)) <= MAX_BYTES then Some(body[Fingerprint := DigestOf(body)]) else None
  {
    SealOpens(body);
    assert body.Keys + {Fingerprint} == names + {SchemaId, SchemaVersion, Fingerprint};
  }

  // ----- embedded bytes ----------------------------------------------------------------

  /** `_hex_artifact` */
  function HexArtifact(fields: Fields, field: Field, fingerprintField: Field): Option<Bytes> {
    var encoded := Get(fields, field);
    if !encoded.Hex? || encoded.content == EMPTY || Get(fields, fingerprintField) != Json.Sha256(encoded.content) then None
    else Some(encoded.content)
  }

  /** `_artifact` */
  function Artifact(kind: string, owner: string, content: Bytes): Json {
    Object(map[ContentHex := Hex(content, 0), Fingerprint := Json.Sha256(content), Kind := Json.Text(kind), Owner := Json.Text(owner)])
  }

  /** `_artifact_bytes` */
  function ArtifactBytes(value: Json, kind: string, owner: string): Option<Bytes> {
    if !value.Object? || value.fields.Keys != {ContentHex, Fingerprint, Kind, Owner} then None
    else
      var encoded := value.fields[ContentHex];
      if !encoded.Hex? || value.fields[Kind] != Json.Text(kind) || value.fields[Owner] != Json.Text(owner)
         || encoded.content == EMPTY || value.fields[Fingerprint] != Json.Sha256(encoded.content) then None
      else Some(encoded.content)
  }

  /** A slot names what kind of artifact it holds and which component owns it. */
  datatype Slot = Slot(kind: string, owner: string)

  function ArtifactsOf(slots: seq<Slot>, contents: seq<Bytes>): seq<Json>
    requires |slots| == |contents|
  {
    seq(|slots|, i requires 0 <= i < |slots| => Artifact(slots[i].kind, slots[i].owner, contents[i]))
  }

  /** Every slot's bytes, in slot order. */
  function OpenArtifacts(slots: seq<Slot>, values: seq<Json>): (r: Option<seq<Bytes>>)
    requires |slots| == |values|
    ensures r.Some? ==> |r.value| == |slots|
  {
    if slots == [] then Some([])
    else
      var first := ArtifactBytes(values[0], slots[0].kind, slots[0].owner);
      var rest := OpenArtifacts(slots[1..], values[1..]);
      if first.None? || rest.None? then None else Some([first.value] + rest.value)
  }

  predicate NoneEmpty(contents: seq<Bytes>) {
    forall i | 0 <= i < |contents| :: contents[i] != EMPTY
  }

  lemma ArtifactRoundTrip(kind: string, owner: string, content: Bytes)
    ensures ArtifactBytes(Artifact(kind, owner, content), kind, owner) == if content != EMPTY then Some(content) else None
  {
  }

  /** Embedded artifacts come back byte for byte, each from its own slot, unless one is empty. */
  lemma {:induction false} ArtifactsRoundTrip(slots: seq<Slot>, contents: seq<Bytes>)
    requires |slots| == |contents|
    ensures OpenArtifacts(slots, ArtifactsOf(slots, contents)) == if NoneEmpty(contents) then Some(contents) else None
  {
    hide ArtifactBytes, Artifact;
    if slots != [] {
      ArtifactRoundTrip(slots[0].kind, slots[0].owner, contents[0]);
      ArtifactsRoundTrip(slots[1..], contents[1..]);
      assert ArtifactsOf(slots, contents)[1..] == ArtifactsOf(slots[1..], contents[1..]);
      assert [contents[0]] + contents[1..] == contents;
      assert NoneEmpty(contents) <==> contents[0] != EMPTY && NoneEmpty(contents[1..]);
    }
  }

  /** Each artifact is spelt as `hex()` spells it. */
  predicate PlainArtifacts(values: seq<Json>) {
    forall i | 0 <= i < |values| ::
      values[i].Object? && Get(values[i].fields, ContentHex).Hex? && Get(values[i].fields, ContentHex).spelling == 0
  }

  lemma PlainArtifactIs(value: Json, kind: string, owner: string)
    requires ArtifactBytes(value, kind, owner).Some? && Get(value.fields, ContentHex).spelling == 0
    ensures value == Artifact(kind, owner, ArtifactBytes(value, kind, owner).value)
  {
    var again := Artifact(kind, owner, ArtifactBytes(value, kind, owner).value);
    assert value.fields == again.fields;
  }

  /** Plainly spelt artifacts that open are the artifacts of what they open to. */
  lemma {:induction false} OpenedArtifactsAre(slots: seq<Slot>, values: seq<Json>)
    requires |slots| == |values| && OpenArtifacts(slots, values).Some? && PlainArtifacts(values)
    ensures values == ArtifactsOf(slots, OpenArtifacts(slots, values).value)
  {
    if slots != [] {
      forall i | 0 <= i < |values[1..]|
        ensures values[1..][i].Object? && Get(values[1..][i].fields, ContentHex).Hex? && Get(values[1..][i].fields, ContentHex).spelling == 0
      {
        assert values[1..][i] == values[i + 1];
      }
      OpenedArtifactsAre(slots[1..], values[1..]);
      PlainArtifactIs(values[0], slots[0].kind, slots[0].owner);
      var contents := OpenArtifacts(slots, values).value;
      assert contents[1..] == OpenArtifacts(slots[1..], values[1..]).value;
      assert ArtifactsOf(slots, contents) == [Artifact(slots[0].kind, slots[0].owner, contents[0])] + ArtifactsOf(slots[1..], contents[1..]);
    }
  }
}
