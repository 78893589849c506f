/** The payload pipeline: serialise, run an ordered chain of codecs, store externally, and
    hand back a reference; and the way back, possibly by a later pipeline. */
module Pipeline {
  import opened Prelude
  import opened Storage

  // ---------- Data ----------

  datatype Payload = Payload(data: Bytes, metadata: map<string, Bytes>)

  datatype CodecUse = CodecUse(id: string, version: nat)

  datatype Reference = Reference(
    version: nat,
    storageId: string,
    objectId: ObjectId,
    encodedSize: nat,
    sha256: string,
    codecs: seq<CodecUse>,
    fingerprint: string)

  datatype CodecOutcome = Applied(bytes: Bytes) | NotHandled

  datatype Codec = Codec(
    id: string,
    encodeVersion: nat,
    decodeVersions: set<nat>,
    encode: Bytes -> Result<CodecOutcome, PayloadError>,
    decode: (nat, Bytes, nat) -> Result<Bytes, PayloadError>)
  {
    /** `CodecDescriptor::new`: what a codec writes it must also read. */
    predicate HasDescriptor() {
      encodeVersion in decodeVersions
    }

    predicate Owns(use: CodecUse) {
      HasDescriptor() && id == use.id && use.version in decodeVersions
    }
  }

  datatype Limits = Limits(decodedPayloadBytes: nat, batchBytes: nat)

  /** The serialisers and the hash, as the pipeline relies on them. */
  datatype Formats = Formats(
    payloadToBytes: Payload -> Bytes,
    bytesToPayload: Bytes -> Option<Payload>,
    referenceToBytes: Reference -> Bytes,
    bytesToReference: Bytes -> Option<Reference>,
    sha256: Bytes -> string)
  {
    ghost predicate Lawful() {
      && (forall p :: bytesToPayload(payloadToBytes(p)) == Some(p))
      && (forall r :: bytesToReference(referenceToBytes(r)) == Some(r))
      && (forall b :: IsSha256(sha256(b)))
    }
  }

  predicate IsSha256(text: string) {
    |text| == 64 && forall i :: 0 <= i < |text| ==> '0' <= text[i] <= '9' || 'a' <= text[i] <= 'f'
  }

  datatype Config = Config(
    formats: Formats,
    defaultStorage: string,
    codecs: seq<Codec>,
    limits: Limits,
    fingerprint: string,
    accepted: set<string>)

  const REFERENCE_MARKER := "agentive.io/external-storage-v1"
  const REFERENCE_MARKER_PREFIX := "agentive.io/external-storage-"
  const REFERENCE_VERSION: nat := 1

  function Ascii(text: string): Bytes {
    seq(|text|, i requires 0 <= i < |text| => text[i] as int)
  }

  predicate IsExternalReference(p: Payload) {
    "encoding" in p.metadata && p.metadata["encoding"] == Ascii(REFERENCE_MARKER)
  }

  predicate ClaimsExternalReference(p: Payload) {
    "encoding" in p.metadata && Ascii(REFERENCE_MARKER_PREFIX) <= p.metadata["encoding"]
  }

  // ---------- Encoding ----------

  datatype Encoded = Encoded(bytes: Bytes, uses: seq<CodecUse>)

  /** The forward chain: each codec in order may transform the bytes and sign its use. */
  function EncodeChain(codecs: seq<Codec>, bytes: Bytes): Result<Encoded, PayloadError> {
    if codecs == [] then Ok(Encoded(bytes, []))
    else
      var last := codecs[|codecs| - 1];
      var before := EncodeChain(codecs[..|codecs| - 1], bytes);
      if before.Err? then before
      else
        var outcome := last.encode(before.value.bytes);
        if outcome.Err? then Err(outcome.error)
        else if outcome.value.NotHandled? then before
        else if !last.HasDescriptor() then Err(InvalidInput)
        else
          Ok(Encoded(outcome.value.bytes, before.value.uses + [CodecUse(last.id, last.encodeVersion)]))
  }

  datatype Prepared = Prepared(bytes: Bytes, uses: seq<CodecUse>, decodedSize: nat)

  function Prepare(c: Config, p: Payload): Result<Prepared, PayloadError> {
    var plain := c.formats.payloadToBytes(p);
    if |plain| > c.limits.decodedPayloadBytes then Err(SizeLimit)
    else
      var encoded := EncodeChain(c.codecs, plain);
      if encoded.Err? then Err(encoded.error)
      else if |encoded.value.bytes| > c.limits.batchBytes then Err(SizeLimit)
      else Ok(Prepared(encoded.value.bytes, encoded.value.uses, |plain|))
  }

  function ReferenceFor(c: Config, id: ObjectId, prepared: Prepared): Reference {
    Reference(REFERENCE_VERSION, c.defaultStorage, id, |prepared.bytes|, c.formats.sha256(prepared.bytes),
              prepared.uses, c.fingerprint)
  }

  function ReferencePayload(c: Config, id: ObjectId, prepared: Prepared): Payload {
    Payload(c.formats.referenceToBytes(ReferenceFor(c, id, prepared)), map["encoding" := Ascii(REFERENCE_MARKER)])
  }

  // ---------- Decoding ----------

  /** The first codec that claims the recorded use. */
  function FindCodec(codecs: seq<Codec>, use: CodecUse): Option<Codec> {
    if codecs == [] then None
    else if codecs[0].Owns(use) then Some(codecs[0])
    else FindCodec(codecs[1..], use)
  }

  /** The backward chain, last use first, each form bounded by the decoded-payload limit. */
  function DecodeChain(c: Config, uses: seq<CodecUse>, bytes: Bytes): Result<Bytes, PayloadError> {
    if uses == [] then Ok(bytes)
    else
      var use := uses[|uses| - 1];
      var codec := FindCodec(c.codecs, use);
      if codec.None? then Err(UnknownCodec)
      else
        var decoded := codec.value.decode(use.version, bytes, c.limits.decodedPayloadBytes);
        if decoded.Err? then decoded
        else if |decoded.value| > c.limits.decodedPayloadBytes then Err(SizeLimit)
        else DecodeChain(c, uses[..|uses| - 1], decoded.value)
  }

  function ValidateReference(c: Config, r: Reference): Result<(), PayloadError> {
    if r.version != REFERENCE_VERSION || (r.encodedSize == 0 && r.codecs != []) then Err(MalformedReference)
    else if r.encodedSize > c.limits.batchBytes then Err(SizeLimit)
    else if !IsSha256(r.sha256) then Err(MalformedReference)
    else if r.fingerprint !in c.accepted then Err(PipelineMismatch)
    else Ok(())
  }

  function Decode(c: Config, stores: map<string, Objects>, p: Payload): Result<Payload, PayloadError> {
    if !IsExternalReference(p) then
      if ClaimsExternalReference(p) then Err(MalformedReference) else Ok(p)
    else
      var reference := c.formats.bytesToReference(p.data);
      if reference.None? then Err(MalformedReference)
      else
        var r := reference.value;
        var valid := ValidateReference(c, r);
        if valid.Err? then Err(valid.error)
        else if r.storageId !in stores then Err(UnknownStorage)
        else
          var stored := Read(stores[r.storageId], KeyFor(r.objectId), r.encodedSize);
          if stored.Err? then Err(stored.error)
          else if |stored.value| != r.encodedSize || c.formats.sha256(stored.value) != r.sha256 then
            Err(IntegrityMismatch)
          else
            var plain := DecodeChain(c, r.codecs, stored.value);
            if plain.Err? then Err(plain.error)
            else
              var payload := c.formats.bytesToPayload(plain.value);
              if payload.None? then Err(MalformedReference) else Ok(payload.value)
  }

  // ---------- Ownership ----------

  /** No two codecs read the same version of the same codec id. */
  ghost predicate DisjointOwners(codecs: seq<Codec>) {
    forall i, j, use :: 0 <= i < j < |codecs| && codecs[i].Owns(use) ==> !codecs[j].Owns(use)
  }

  lemma {:induction false} FirstMatchIsTheOwner(codecs: seq<Codec>, use: CodecUse, k: nat)
    requires DisjointOwners(codecs) && k < |codecs| && codecs[k].Owns(use)
    ensures FindCodec(codecs, use) == Some(codecs[k])
    decreases |codecs|
  {
    if k > 0 {
      assert !codecs[0].Owns(use);
      var rest := codecs[1..];
      forall i, j, u | 0 <= i < j < |rest| && rest[i].Owns(u) ensures !rest[j].Owns(u) {
        assert codecs[i + 1].Owns(u);
      }
      FirstMatchIsTheOwner(rest, use, k - 1);
    }
  }

  // ---------- Round trip and migration ----------

  /** The reader undoes whatever the writer applied; given too small a limit it may also
      fail, but never produces something else. */
  ghost predicate Inverts(reader: Codec, writer: Codec) {
    forall input, limit ::
      var outcome := writer.encode(input);
      outcome.Ok? && outcome.value.Applied? ==>
        var back := reader.decode(writer.encodeVersion, outcome.value.bytes, limit);
        if |input| <= limit then back == Ok(input) else back.Err? || back == Ok(input)
  }

  /** `c` still reads everything the given codecs write: some codec of `c` owns each
      written version and undoes it, and ownership is unambiguous. */
  ghost predicate CanRead(c: Config, writers: seq<Codec>) {
    && DisjointOwners(c.codecs)
    && forall i :: 0 <= i < |writers| ==> HasReader(c, writers[i])
  }

  ghost predicate HasReader(c: Config, writer: Codec) {
    exists k :: 0 <= k < |c.codecs|
      && c.codecs[k].Owns(CodecUse(writer.id, writer.encodeVersion)) && Inverts(c.codecs[k], writer)
  }

  /** Every form a codec transformed on the way out fits the decoded-payload limit. */
  predicate InputsFit(codecs: seq<Codec>, bytes: Bytes, limit: nat) {
    codecs == [] ||
    (var before := EncodeChain(codecs[..|codecs| - 1], bytes);
     && InputsFit(codecs[..|codecs| - 1], bytes, limit)
     && (before.Ok? ==>
           var outcome := codecs[|codecs| - 1].encode(before.value.bytes);
           outcome.Ok? && outcome.value.Applied? ==> |before.value.bytes| <= limit))
  }

  /** Undoing the last applied codec goes back to the form before it if that form fits, and
      fails otherwise. */
  lemma LastCodecRoundTrip(c: Config, writer: Codec, before: Encoded, after: Bytes)
    requires DisjointOwners(c.codecs) && HasReader(c, writer)
    requires writer.encode(before.bytes) == Ok(Applied(after))
    ensures var uses := before.uses + [CodecUse(writer.id, writer.encodeVersion)];
      if |before.bytes| <= c.limits.decodedPayloadBytes then
        DecodeChain(c, uses, after) == DecodeChain(c, before.uses, before.bytes)
      else DecodeChain(c, uses, after).Err?
  {
    var use := CodecUse(writer.id, writer.encodeVersion);
    var k :| 0 <= k < |c.codecs| && c.codecs[k].Owns(use) && Inverts(c.codecs[k], writer);
    FirstMatchIsTheOwner(c.codecs, use, k);
    assert (before.uses + [use])[..|before.uses|] == before.uses;
  }

  /** The backward chain undoes the forward chain exactly when the intermediate forms fit,
      and fails when they do not. */
  lemma {:induction false} ChainRoundTrip(c: Config, writers: seq<Codec>, bytes: Bytes)
    requires CanRead(c, writers) && EncodeChain(writers, bytes).Ok?
    ensures var encoded := EncodeChain(writers, bytes).value;
      if InputsFit(writers, bytes, c.limits.decodedPayloadBytes) then
        DecodeChain(c, encoded.uses, encoded.bytes) == Ok(bytes)
      else DecodeChain(c, encoded.uses, encoded.bytes).Err?
    decreases |writers|
  {
    if writers != [] {
      var n := |writers| - 1;
      var before := EncodeChain(writers[..n], bytes).value;
      assert CanRead(c, writers[..n]) by {
        forall i | 0 <= i < n ensures HasReader(c, writers[..n][i]) {
          assert HasReader(c, writers[i]);
        }
      }
      ChainRoundTrip(c, writers[..n], bytes);
      var outcome := writers[n].encode(before.bytes).value;
      if outcome.Applied? {
        assert HasReader(c, writers[n]);
        LastCodecRoundTrip(c, writers[n], before, outcome.bytes);
      }
    }
  }

  /** What decides whether a prepared payload can be read back: its intermediate forms fit
      the reader's limit, and a transformed payload did not vanish altogether. */
  predicate Decodable(c: Config, writers: seq<Codec>, p: Payload, prepared: Prepared) {
    && InputsFit(writers, c.formats.payloadToBytes(p), c.limits.decodedPayloadBytes)
    && (prepared.uses == [] || prepared.bytes != [])
  }

  /** `later` accepts what `earlier` wrote. */
  ghost predicate Succeeds(later: Config, earlier: Config) {
    && later.formats == earlier.formats && later.formats.Lawful()
    && earlier.fingerprint in later.accepted
    && later.limits.batchBytes >= earlier.limits.batchBytes
    && later.limits.decodedPayloadBytes >= earlier.limits.decodedPayloadBytes
    && CanRead(later, earlier.codecs)
  }

  predicate Stored(stores: map<string, Objects>, storage: string, id: ObjectId, bytes: Bytes) {
    && storage in stores
    && KeyFor(id) in stores[storage]
    && stores[storage][KeyFor(id)] == bytes
  }

  lemma MarkerIsRecognised(c: Config, id: ObjectId, prepared: Prepared)
    ensures IsExternalReference(ReferencePayload(c, id, prepared))
  {
  }

  /** A later pipeline decodes an earlier one's reference to the original payload exactly
      when the payload is decodable under the later limits; otherwise it reports an error. */
  lemma OldReferencesStillDecode(
    earlier: Config, later: Config, stores: map<string, Objects>, p: Payload, prepared: Prepared, id: ObjectId)
    requires Succeeds(later, earlier) && Prepare(earlier, p) == Ok(prepared)
    requires Stored(stores, earlier.defaultStorage, id, prepared.bytes)
    ensures Decode(later, stores, ReferencePayload(earlier, id, prepared)) == Ok(p) <==>
            Decodable(later, earlier.codecs, p, prepared)
    ensures Decodable(later, earlier.codecs, p, prepared) ||
            Decode(later, stores, ReferencePayload(earlier, id, prepared)).Err?
  {
    var r := ReferenceFor(earlier, id, prepared);
    MarkerIsRecognised(earlier, id, prepared);
    assert later.formats.bytesToReference(later.formats.referenceToBytes(r)) == Some(r);
    var plain := later.formats.payloadToBytes(p);
    assert later.formats.bytesToPayload(plain) == Some(p);
    assert IsSha256(later.formats.sha256(prepared.bytes));
    ChainRoundTrip(later, earlier.codecs, plain);
  }

  /** A chain none of whose codecs ever expands its input keeps every form decodable. */
  lemma {:induction false} NonExpandingFits(codecs: seq<Codec>, bytes: Bytes, limit: nat)
    requires |bytes| <= limit
    requires forall i, input :: 0 <= i < |codecs| && codecs[i].encode(input).Ok? && codecs[i].encode(input).value.Applied? ==>
      |codecs[i].encode(input).value.bytes| <= |input|
    ensures InputsFit(codecs, bytes, limit)
    ensures EncodeChain(codecs, bytes).Ok? ==> |EncodeChain(codecs, bytes).value.bytes| <= |bytes|
    decreases |codecs|
  {
    if codecs != [] {
      NonExpandingFits(codecs[..|codecs| - 1], bytes, limit);
    }
  }

  // ---------- Payloads that are accepted and lost ----------

  /** A codec that takes one form to another and back. */
  function Swap(id: string, from: Bytes, to: Bytes): Codec {
    Codec.Codec(id, 1, {1},
          (input: Bytes) => Ok(if input == from then Applied(to) else NotHandled),
          (version: nat, input: Bytes, limit: nat) => Ok(from))
  }

  function PlainConfig(formats: Formats, codecs: seq<Codec>, limits: Limits): Config {
    Config(formats, "store", codecs, limits, "fingerprint", {"fingerprint"})
  }

  lemma SwapsReadThemselves(c: Config, from: Bytes, to: Bytes, id: string, k: nat)
    requires k < |c.codecs| && c.codecs[k] == Swap(id, from, to)
    ensures HasReader(c, c.codecs[k])
  {
    assert c.codecs[k].Owns(CodecUse(id, 1)) && Inverts(c.codecs[k], c.codecs[k]);
  }

  lemma OneSwapEncodes(id: string, from: Bytes, to: Bytes)
    ensures EncodeChain([Swap(id, from, to)], from) == Ok(Encoded(to, [CodecUse(id, 1)]))
    ensures InputsFit([Swap(id, from, to)], from, |from|)
  {
    var codecs := [Swap(id, from, to)];
    assert codecs[..0] == [] && EncodeChain([], from) == Ok(Encoded(from, []));
    assert [] + [CodecUse(id, 1)] == [CodecUse(id, 1)];
  }

  /** For any payload: a codec that reverses perfectly but writes nothing, so that the encoded
      payload is accepted and no store can give it back. */
  lemma EmptyFormsAreLost(formats: Formats, p: Payload) returns (c: Config, prepared: Prepared)
    requires formats.Lawful()
    ensures c.formats == formats && Succeeds(c, c) && Prepare(c, p) == Ok(prepared)
    ensures prepared.bytes == [] && InputsFit(c.codecs, formats.payloadToBytes(p), c.limits.decodedPayloadBytes)
    ensures !Decodable(c, c.codecs, p, prepared)
    ensures forall stores, id :: Stored(stores, c.defaultStorage, id, prepared.bytes) ==>
      Decode(c, stores, ReferencePayload(c, id, prepared)).Err?
  {
    var plain := formats.payloadToBytes(p);
    c := PlainConfig(formats, [Swap("vanish", plain, [])], Limits(|plain|, |plain|));
    SwapsReadThemselves(c, plain, [], "vanish", 0);
    OneSwapEncodes("vanish", plain, []);
    prepared := Prepare(c, p).value;
    LostPayloadsErr(c, p, prepared);
  }

  /** Two codecs that reverse perfectly, by way of a form one byte beyond the limit. */
  function LongFormConfig(formats: Formats, plain: Bytes): Config {
    PlainConfig(
      formats, [Swap("grow", plain, plain + [0])] + [Swap("shrink", plain + [0], [0])], Limits(|plain|, |plain| + 1))
  }

  lemma LongFormConfigReadsItself(formats: Formats, plain: Bytes)
    requires formats.Lawful()
    ensures Succeeds(LongFormConfig(formats, plain), LongFormConfig(formats, plain))
  {
    var c := LongFormConfig(formats, plain);
    SwapsReadThemselves(c, plain, plain + [0], "grow", 0);
    SwapsReadThemselves(c, plain + [0], [0], "shrink", 1);
  }

  lemma LastApplies(codecs: seq<Codec>, last: Codec, bytes: Bytes, form: Bytes, after: Bytes)
    requires EncodeChain(codecs, bytes).Ok? && EncodeChain(codecs, bytes).value.bytes == form
    requires last.encode(form) == Ok(Applied(after)) && last.HasDescriptor()
    ensures EncodeChain(codecs + [last], bytes) ==
            Ok(Encoded(after, EncodeChain(codecs, bytes).value.uses + [CodecUse(last.id, last.encodeVersion)]))
    ensures forall limit :: InputsFit(codecs + [last], bytes, limit) ==> |form| <= limit
  {
    assert (codecs + [last])[..|codecs|] == codecs;
  }

  /** For any payload: two codecs that reverse perfectly, the first expanding beyond the
      decoded-payload limit and the second shrinking again, with the same consequence. */
  lemma LongFormsAreLost(formats: Formats, p: Payload) returns (c: Config, prepared: Prepared)
    requires formats.Lawful()
    ensures c.formats == formats && Succeeds(c, c) && Prepare(c, p) == Ok(prepared)
    ensures prepared.bytes != [] && !Decodable(c, c.codecs, p, prepared)
    ensures forall stores, id :: Stored(stores, c.defaultStorage, id, prepared.bytes) ==>
      Decode(c, stores, ReferencePayload(c, id, prepared)).Err?
  {
    var plain := formats.payloadToBytes(p);
    c := LongFormConfig(formats, plain);
    LongFormConfigReadsItself(formats, plain);
    OneSwapEncodes("grow", plain, plain + [0]);
    LastApplies([Swap("grow", plain, plain + [0])], Swap("shrink", plain + [0], [0]), plain, plain + [0], [0]);
    prepared := Prepare(c, p).value;
    LostPayloadsErr(c, p, prepared);
  }

  lemma LostPayloadsErr(c: Config, p: Payload, prepared: Prepared)
    requires Succeeds(c, c) && Prepare(c, p) == Ok(prepared) && !Decodable(c, c.codecs, p, prepared)
    ensures forall stores, id :: Stored(stores, c.defaultStorage, id, prepared.bytes) ==>
      Decode(c, stores, ReferencePayload(c, id, prepared)).Err?
  {
    forall stores, id | Stored(stores, c.defaultStorage, id, prepared.bytes)
      ensures Decode(c, stores, ReferencePayload(c, id, prepared)).Err?
    {
      OldReferencesStillDecode(c, c, stores, p, prepared, id);
    }
  }

  // ---------- Batches ----------

  /** A batch result, given what its first payloads and then the rest came to. */
  function Resume<T>(done: seq<T>, rest: Result<seq<T>, PayloadError>): Result<seq<T>, PayloadError> {
    if rest.Err? then rest else Ok(done + rest.value)
  }

  lemma ResumeNext<T>(done: seq<T>, next: T, rest: Result<seq<T>, PayloadError>)
    ensures Resume(done, Resume([next], rest)) == Resume(done + [next], rest)
    ensures Resume([], rest) == rest
  {
    if rest.Ok? {
      assert done + ([next] + rest.value) == done + [next] + rest.value;
      assert [] + rest.value == rest.value;
    }
  }

  datatype Totals = Totals(decoded: U64, stored: U64)

  /** The admission pass of `encode_batch`, payload by payload. */
  function PrepareAll(c: Config, payloads: seq<Payload>, totals: Totals): Result<seq<Prepared>, PayloadError>
    decreases |payloads|
  {
    if payloads == [] then Ok([])
    else
      var first := Prepare(c, payloads[0]);
      if first.Err? then Err(first.error)
      else
        var after := AddTotals(totals, first.value);
        if after.decoded > c.limits.batchBytes || after.stored > c.limits.batchBytes then Err(SizeLimit)
        else
          Resume([first.value], PrepareAll(c, payloads[1..], after))
  }

  function AddTotals(totals: Totals, prepared: Prepared): Totals {
    Totals(SatAdd64(totals.decoded, prepared.decodedSize), SatAdd64(totals.stored, |prepared.bytes|))
  }

  function References(c: Config, ids: nat -> ObjectId, from: nat, prepared: seq<Prepared>): seq<Payload> {
    seq(|prepared|, i requires 0 <= i < |prepared| => ReferencePayload(c, ids(from + i), prepared[i]))
  }

  /** The bytes one payload counts for in the first pass of `decode_batch`. */
  function ClaimedSize(c: Config, p: Payload): Result<nat, PayloadError> {
    if IsExternalReference(p) then
      var r := c.formats.bytesToReference(p.data);
      if r.None? then Err(MalformedReference) else Ok(r.value.encodedSize)
    else Ok(|p.data|)
  }

  function CheckClaims(c: Config, payloads: seq<Payload>, total: U64): Result<(), PayloadError>
    decreases |payloads|
  {
    if payloads == [] then Ok(())
    else
      var size := ClaimedSize(c, payloads[0]);
      if size.Err? then Err(size.error)
      else if SatAdd64(total, size.value) > c.limits.batchBytes then Err(SizeLimit)
      else CheckClaims(c, payloads[1..], SatAdd64(total, size.value))
  }

  function DecodeEach(
    c: Config, stores: map<string, Objects>, payloads: seq<Payload>, total: U64): Result<seq<Payload>, PayloadError>
    decreases |payloads|
  {
    if payloads == [] then Ok([])
    else
      var first := Decode(c, stores, payloads[0]);
      if first.Err? then Err(first.error)
      else
        var after := SatAdd64(total, |c.formats.payloadToBytes(first.value)|);
        if after > c.limits.batchBytes then Err(SizeLimit)
        else
          Resume([first.value], DecodeEach(c, stores, payloads[1..], after))
  }

  function DecodeBatch(
    c: Config, stores: map<string, Objects>, payloads: seq<Payload>): Result<seq<Payload>, PayloadError>
  {
    var claims := CheckClaims(c, payloads, 0);
    if claims.Err? then Err(claims.error) else DecodeEach(c, stores, payloads, 0)
  }

  lemma ReferencesCons(c: Config, ids: nat -> ObjectId, from: nat, prepared: seq<Prepared>)
    requires prepared != []
    ensures var all := References(c, ids, from, prepared);
      && all[0] == ReferencePayload(c, ids(from), prepared[0])
      && all[1..] == References(c, ids, from + 1, prepared[1..])
  {
  }

  lemma ClaimOfReference(c: Config, id: ObjectId, prepared: Prepared)
    requires c.formats.Lawful()
    ensures ClaimedSize(c, ReferencePayload(c, id, prepared)) == Ok(|prepared.bytes|)
  {
    var r := ReferenceFor(c, id, prepared);
    assert c.formats.bytesToReference(c.formats.referenceToBytes(r)) == Some(r);
  }

  lemma {:induction false} PreparedClaimsFit(
    c: Config, ids: nat -> ObjectId, from: nat, payloads: seq<Payload>, totals: Totals)
    requires c.formats.Lawful() && PrepareAll(c, payloads, totals).Ok?
    ensures CheckClaims(c, References(c, ids, from, PrepareAll(c, payloads, totals).value), totals.stored).Ok?
    decreases |payloads|
  {
    if payloads != [] {
      var prepared := PrepareAll(c, payloads, totals).value;
      var after := AddTotals(totals, prepared[0]);
      assert prepared[1..] == PrepareAll(c, payloads[1..], after).value;
      PreparedClaimsFit(c, ids, from + 1, payloads[1..], after);
      ClaimOfReference(c, ids(from), prepared[0]);
      ReferencesCons(c, ids, from, prepared);
    }
  }

  /** Item `i` of a batch is stored under its id and can be read back. */
  predicate ItemReady(
    c: Config, stores: map<string, Objects>, ids: nat -> ObjectId, from: nat, payloads: seq<Payload>,
    prepared: seq<Prepared>, i: nat)
    requires i < |payloads| == |prepared|
  {
    && Stored(stores, c.defaultStorage, ids(from + i), prepared[i].bytes)
    && Decodable(c, c.codecs, payloads[i], prepared[i])
  }

  predicate AllReady(
    c: Config, stores: map<string, Objects>, ids: nat -> ObjectId, from: nat, payloads: seq<Payload>,
    prepared: seq<Prepared>)
  {
    && |payloads| == |prepared|
    && forall i :: 0 <= i < |prepared| ==> ItemReady(c, stores, ids, from, payloads, prepared, i)
  }

  /** Each of these references decodes to the payload in its place. */
  predicate AllDecode(c: Config, stores: map<string, Objects>, references: seq<Payload>, payloads: seq<Payload>) {
    && |references| == |payloads|
    && forall i :: 0 <= i < |payloads| ==> Decode(c, stores, references[i]) == Ok(payloads[i])
  }

  lemma AdmittedFirst(c: Config, payloads: seq<Payload>, totals: Totals, prepared: seq<Prepared>)
    requires PrepareAll(c, payloads, totals) == Ok(prepared) && payloads != []
    ensures prepared != []
    ensures var after := AddTotals(totals, prepared[0]);
      && after.decoded <= c.limits.batchBytes
      && after.decoded == SatAdd64(totals.decoded, |c.formats.payloadToBytes(payloads[0])|)
      && PrepareAll(c, payloads[1..], after) == Ok(prepared[1..])
  {
    var first := Prepare(c, payloads[0]).value;
    var rest := PrepareAll(c, payloads[1..], AddTotals(totals, first));
    assert ([first] + rest.value)[1..] == rest.value;
  }

  lemma DecodeEachFirst(
    c: Config, stores: map<string, Objects>, references: seq<Payload>, total: U64, first: Payload)
    requires references != [] && Decode(c, stores, references[0]) == Ok(first)
    requires SatAdd64(total, |c.formats.payloadToBytes(first)|) <= c.limits.batchBytes
    ensures DecodeEach(c, stores, references, total) ==
            Resume([first],
                   DecodeEach(c, stores, references[1..], SatAdd64(total, |c.formats.payloadToBytes(first)|)))
  {
  }

  /** Decoding admitted payloads one by one never exceeds the limit they were admitted under. */
  lemma {:induction false} AdmittedDecodeEach(
    c: Config, stores: map<string, Objects>, references: seq<Payload>, payloads: seq<Payload>, totals: Totals,
    prepared: seq<Prepared>)
    requires PrepareAll(c, payloads, totals) == Ok(prepared)
    requires AllDecode(c, stores, references, payloads)
    ensures DecodeEach(c, stores, references, totals.decoded) == Ok(payloads)
    decreases |payloads|
  {
    if payloads != [] {
      AdmittedFirst(c, payloads, totals, prepared);
      assert Decode(c, stores, references[0]) == Ok(payloads[0]);
      DecodeEachFirst(c, stores, references, totals.decoded, payloads[0]);
      AdmittedDecodeEach(
        c, stores, references[1..], payloads[1..], AddTotals(totals, prepared[0]), prepared[1..]);
      assert [payloads[0]] + payloads[1..] == payloads;
    }
  }

  lemma ReadyItemsDecode(
    c: Config, stores: map<string, Objects>, ids: nat -> ObjectId, payloads: seq<Payload>, prepared: seq<Prepared>)
    requires Succeeds(c, c) && PrepareAll(c, payloads, Totals(0, 0)) == Ok(prepared)
    requires AllReady(c, stores, ids, 0, payloads, prepared)
    ensures AllDecode(c, stores, References(c, ids, 0, prepared), payloads)
  {
    PrepareAllLength(c, payloads, Totals(0, 0));
    forall i | 0 <= i < |payloads|
      ensures Decode(c, stores, References(c, ids, 0, prepared)[i]) == Ok(payloads[i])
    {
      assert ItemReady(c, stores, ids, 0, payloads, prepared, i);
      OldReferencesStillDecode(c, c, stores, payloads[i], prepared[i], ids(0 + i));
    }
  }

  lemma {:induction false} PrepareAllLength(c: Config, payloads: seq<Payload>, totals: Totals)
    requires PrepareAll(c, payloads, totals).Ok?
    ensures |PrepareAll(c, payloads, totals).value| == |payloads|
    ensures forall i :: 0 <= i < |payloads| ==> Prepare(c, payloads[i]) == Ok(PrepareAll(c, payloads, totals).value[i])
    decreases |payloads|
  {
    if payloads != [] {
      PrepareAllLength(c, payloads[1..], AddTotals(totals, Prepare(c, payloads[0]).value));
    }
  }

  /** Whatever a pipeline's batch admission lets through, its batch decoding lets through
      too: no size limit strikes on the way back, and the payloads return in order. */
  lemma BatchesClose(
    c: Config, stores: map<string, Objects>, ids: nat -> ObjectId, payloads: seq<Payload>, prepared: seq<Prepared>)
    requires Succeeds(c, c) && PrepareAll(c, payloads, Totals(0, 0)) == Ok(prepared)
    requires AllReady(c, stores, ids, 0, payloads, prepared)
    ensures DecodeBatch(c, stores, References(c, ids, 0, prepared)) == Ok(payloads)
  {
    PreparedClaimsFit(c, ids, 0, payloads, Totals(0, 0));
    ReadyItemsDecode(c, stores, ids, payloads, prepared);
    AdmittedDecodeEach(c, stores, References(c, ids, 0, prepared), payloads, Totals(0, 0), prepared);
  }

  predicate AllDecodable(c: Config, payloads: seq<Payload>, prepared: seq<Prepared>) {
    && |payloads| == |prepared|
    && forall i :: 0 <= i < |prepared| ==> Decodable(c, c.codecs, payloads[i], prepared[i])
  }

  lemma StoredBatchIsReady(
    c: Config, stores: map<string, Objects>, ids: nat -> ObjectId, payloads: seq<Payload>, prepared: seq<Prepared>)
    requires AllDecodable(c, payloads, prepared)
    requires forall i :: 0 <= i < |prepared| ==> Stored(stores, c.defaultStorage, ids(i), prepared[i].bytes)
    ensures AllReady(c, stores, ids, 0, payloads, prepared)
  {
    forall i | 0 <= i < |prepared| ensures ItemReady(c, stores, ids, 0, payloads, prepared, i) {
      assert ids(0 + i) == ids(i);
    }
  }

  // ---------- Storing a batch ----------

  /** Nothing else is stored under the id. */
  predicate MayHold(objects: Objects, id: ObjectId, bytes: Bytes) {
    KeyFor(id) in objects ==> objects[KeyFor(id)] == bytes
  }

  /** No id of the batch names an object with other bytes, old or of the same batch. */
  predicate Storable(before: Objects, ids: nat -> ObjectId, prepared: seq<Prepared>) {
    && (forall i :: 0 <= i < |prepared| ==> MayHold(before, ids(i), prepared[i].bytes))
    && (forall i, j :: 0 <= i < j < |prepared| && ids(i) == ids(j) ==> prepared[i].bytes == prepared[j].bytes)
  }

  /** Exactly the first `n` of the batch have been added. */
  ghost predicate StoredUpTo(before: Objects, now: Objects, ids: nat -> ObjectId, prepared: seq<Prepared>, n: nat) {
    && n <= |prepared|
    && Retains(before, now)
    && (forall i :: 0 <= i < n ==> KeyFor(ids(i)) in now && now[KeyFor(ids(i))] == prepared[i].bytes)
    && (forall key :: key in now && key !in before ==> exists i :: 0 <= i < n && key == KeyFor(ids(i)))
  }

  lemma StoredNext(before: Objects, now: Objects, ids: nat -> ObjectId, prepared: seq<Prepared>, n: nat)
    requires StoredUpTo(before, now, ids, prepared, n) && n < |prepared|
    requires MayHold(now, ids(n), prepared[n].bytes)
    ensures StoredUpTo(before, now[KeyFor(ids(n)) := prepared[n].bytes], ids, prepared, n + 1)
  {
    var next := now[KeyFor(ids(n)) := prepared[n].bytes];
    forall key | key in next && key !in before ensures exists i :: 0 <= i < n + 1 && key == KeyFor(ids(i)) {
      if key == KeyFor(ids(n)) {
      } else {
        var i :| 0 <= i < n && key == KeyFor(ids(i));
        assert 0 <= i < n + 1;
      }
    }
  }

  lemma ConflictsAreNotStorable(before: Objects, now: Objects, ids: nat -> ObjectId, prepared: seq<Prepared>, n: nat)
    requires StoredUpTo(before, now, ids, prepared, n) && n < |prepared|
    requires !MayHold(now, ids(n), prepared[n].bytes)
    ensures !Storable(before, ids, prepared)
  {
    if KeyFor(ids(n)) in before {
      assert !MayHold(before, ids(n), prepared[n].bytes);
    } else {
      var i :| 0 <= i < n && KeyFor(ids(n)) == KeyFor(ids(i));
      KeysAreInjective(ids(n), ids(i));
      assert prepared[i].bytes != prepared[n].bytes;
    }
  }

  lemma StoredBatchesAreStorable(before: Objects, now: Objects, ids: nat -> ObjectId, prepared: seq<Prepared>)
    requires StoredUpTo(before, now, ids, prepared, |prepared|)
    ensures Storable(before, ids, prepared)
  {
  }

  /** Fresh distinct ids, as random ones are, never conflict. */
  lemma FreshIdsAreStorable(before: Objects, ids: nat -> ObjectId, prepared: seq<Prepared>)
    requires forall i, j :: 0 <= i < j < |prepared| ==> ids(i) != ids(j)
    requires forall i :: 0 <= i < |prepared| ==> KeyFor(ids(i)) !in before
    ensures Storable(before, ids, prepared)
  {
  }

  // ---------- The pipeline in place ----------

  class PayloadPipeline {
    const config: Config
    const storages: map<string, InMemoryStorage>

    constructor (config: Config, storages: map<string, InMemoryStorage>)
      ensures this.config == config && this.storages == storages
    {
      this.config := config;
      this.storages := storages;
    }

    predicate Valid() {
      config.defaultStorage in storages
    }

    function Stores(): map<string, Objects>
      reads storages.Values
    {
      map id | id in storages :: storages[id].objects
    }

    method RunCodecs(plain: Bytes) returns (r: Result<Encoded, PayloadError>)
      ensures r == EncodeChain(config.codecs, plain)
    {
      var bytes, uses := plain, [];
      for i := 0 to |config.codecs|
        invariant EncodeChain(config.codecs[..i], plain) == Ok(Encoded(bytes, uses))
      {
        var codec := config.codecs[i];
        assert config.codecs[..i + 1][..i] == config.codecs[..i];
        var outcome := codec.encode(bytes);
        if outcome.Err? {
          ChainErrorsPersist(config.codecs, i + 1, plain);
          return Err(outcome.error);
        }
        if outcome.value.Applied? {
          if !codec.HasDescriptor() {
            ChainErrorsPersist(config.codecs, i + 1, plain);
            return Err(InvalidInput);
          }
          bytes := outcome.value.bytes;
          uses := uses + [CodecUse(codec.id, codec.encodeVersion)];
        }
      }
      assert config.codecs[..|config.codecs|] == config.codecs;
      return Ok(Encoded(bytes, uses));
    }

    method PreparePayload(p: Payload) returns (r: Result<Prepared, PayloadError>)
      ensures r == Prepare(config, p)
    {
      var plain := config.formats.payloadToBytes(p);
      if |plain| > config.limits.decodedPayloadBytes {
        return Err(SizeLimit);
      }
      var encoded := RunCodecs(plain);
      if encoded.Err? {
        return Err(encoded.error);
      }
      if |encoded.value.bytes| > config.limits.batchBytes {
        return Err(SizeLimit);
      }
      return Ok(Prepared(encoded.value.bytes, encoded.value.uses, |plain|));
    }

    method StorePrepared(prepared: Prepared, id: ObjectId) returns (r: Result<Payload, PayloadError>)
      requires Valid()
      modifies storages[config.defaultStorage]
      ensures r.Ok? <==> MayHold(old(storages[config.defaultStorage].objects), id, prepared.bytes)
      ensures r.Ok? ==>
        && r.value == ReferencePayload(config, id, prepared)
        && storages[config.defaultStorage].objects ==
             old(storages[config.defaultStorage].objects)[KeyFor(id) := prepared.bytes]
      ensures r.Err? ==> r.error == ImmutableConflict
      ensures r.Err? ==> storages[config.defaultStorage].objects == old(storages[config.defaultStorage].objects)
      ensures Retains(old(storages[config.defaultStorage].objects), storages[config.defaultStorage].objects)
    {
      var created := storages[config.defaultStorage].CreateImmutable(KeyFor(id), prepared.bytes);
      if created.Err? {
        return Err(created.error);
      }
      return Ok(ReferencePayload(config, id, prepared));
    }

    /** Serialise, transform and always externalise one payload under a fresh random id. */
    method Encode(p: Payload, id: ObjectId) returns (r: Result<Payload, PayloadError>)
      requires Valid()
      modifies storages[config.defaultStorage]
      ensures Retains(old(storages[config.defaultStorage].objects), storages[config.defaultStorage].objects)
      ensures r.Ok? ==>
        && Prepare(config, p).Ok?
        && r.value == ReferencePayload(config, id, Prepare(config, p).value)
        && Stored(Stores(), config.defaultStorage, id, Prepare(config, p).value.bytes)
      ensures r.Ok? <==>
        Prepare(config, p).Ok? && MayHold(old(storages[config.defaultStorage].objects), id, Prepare(config, p).value.bytes)
      ensures Prepare(config, p).Err? ==>
        r == Err(Prepare(config, p).error) && storages[config.defaultStorage].objects == old(storages[config.defaultStorage].objects)
    {
      var prepared := PreparePayload(p);
      if prepared.Err? {
        return Err(prepared.error);
      }
      r := StorePrepared(prepared.value, id);
    }

    /** Encode a batch. Nothing is stored unless every payload was admitted. */
    method EncodeBatch(payloads: seq<Payload>, ids: nat -> ObjectId) returns (r: Result<seq<Payload>, PayloadError>)
      requires Valid()
      modifies storages[config.defaultStorage]
      ensures Retains(old(storages[config.defaultStorage].objects), storages[config.defaultStorage].objects)
      ensures var all := PrepareAll(config, payloads, Totals(0, 0));
        if all.Err? then
          && r == Err(all.error)
          && storages[config.defaultStorage].objects == old(storages[config.defaultStorage].objects)
        else if Storable(old(storages[config.defaultStorage].objects), ids, all.value) then
          && r == Ok(References(config, ids, 0, all.value))
          && StoredUpTo(old(storages[config.defaultStorage].objects), storages[config.defaultStorage].objects,
                        ids, all.value, |all.value|)
        else r == Err(ImmutableConflict)
    {
      var totals := Totals(0, 0);
      var prepared: seq<Prepared> := [];
      ResumeNext([], Prepared([], [], 0), PrepareAll(config, payloads, totals));
      for i := 0 to |payloads|
        invariant |prepared| == i
        invariant storages[config.defaultStorage].objects == old(storages[config.defaultStorage].objects)
        invariant PrepareAll(config, payloads, Totals(0, 0)) == Resume(prepared, PrepareAll(config, payloads[i..], totals))
      {
        var next := PreparePayload(payloads[i]);
        if next.Err? {
          return Err(next.error);
        }
        totals := AddTotals(totals, next.value);
        if totals.decoded > config.limits.batchBytes || totals.stored > config.limits.batchBytes {
          return Err(SizeLimit);
        }
        ResumeNext(prepared, next.value, PrepareAll(config, payloads[i + 1..], totals));
        prepared := prepared + [next.value];
      }
      assert prepared + [] == prepared;
      r := StoreAll(prepared, ids);
    }

    method StoreAll(prepared: seq<Prepared>, ids: nat -> ObjectId) returns (r: Result<seq<Payload>, PayloadError>)
      requires Valid()
      modifies storages[config.defaultStorage]
      ensures Retains(old(storages[config.defaultStorage].objects), storages[config.defaultStorage].objects)
      ensures if Storable(old(storages[config.defaultStorage].objects), ids, prepared) then
          && r == Ok(References(config, ids, 0, prepared))
          && StoredUpTo(old(storages[config.defaultStorage].objects), storages[config.defaultStorage].objects,
                        ids, prepared, |prepared|)
        else r == Err(ImmutableConflict)
    {
      var references: seq<Payload> := [];
      var store := storages[config.defaultStorage];
      for i := 0 to |prepared|
        invariant references == References(config, ids, 0, prepared[..i])
        invariant StoredUpTo(old(store.objects), store.objects, ids, prepared, i)
      {
        ghost var now := store.objects;
        var stored := StorePrepared(prepared[i], ids(i));
        if stored.Err? {
          ConflictsAreNotStorable(old(store.objects), now, ids, prepared, i);
          return Err(stored.error);
        }
        StoredNext(old(store.objects), now, ids, prepared, i);
        assert prepared[..i + 1][..i] == prepared[..i];
        references := references + [stored.value];
      }
      assert prepared[..|prepared|] == prepared;
      StoredBatchesAreStorable(old(store.objects), store.objects, ids, prepared);
      return Ok(references);
    }

    /** A batch out and back: whatever is admitted, storable and decodable returns whole and
        in order, through the store. */
    method EncodeThenDecode(payloads: seq<Payload>, ids: nat -> ObjectId) returns (r: Result<seq<Payload>, PayloadError>)
      requires Valid() && Succeeds(config, config)
      modifies storages[config.defaultStorage]
      ensures var all := PrepareAll(config, payloads, Totals(0, 0));
        if all.Err? then r == Err(all.error)
        else if !Storable(old(storages[config.defaultStorage].objects), ids, all.value) then r == Err(ImmutableConflict)
        else AllDecodable(config, payloads, all.value) ==> r == Ok(payloads)
    {
      var encoded := EncodeBatch(payloads, ids);
      if encoded.Err? {
        return encoded;
      }
      r := DecodeAll(encoded.value);
      ghost var all := PrepareAll(config, payloads, Totals(0, 0));
      if AllDecodable(config, payloads, all.value) {
        StoredBatchIsReady(config, Stores(), ids, payloads, all.value);
        BatchesClose(config, Stores(), ids, payloads, all.value);
      }
    }

    /** Undo the recorded uses, last first. */
    method UndoCodecs(uses: seq<CodecUse>, stored: Bytes) returns (r: Result<Bytes, PayloadError>)
      ensures r == DecodeChain(config, uses, stored)
    {
      var bytes := stored;
      var i := |uses|;
      assert uses[..i] == uses;
      while i > 0
        invariant 0 <= i <= |uses|
        invariant DecodeChain(config, uses, stored) == DecodeChain(config, uses[..i], bytes)
      {
        i := i - 1;
        assert uses[..i + 1][..i] == uses[..i];
        var codec := FindCodec(config.codecs, uses[i]);
        if codec.None? {
          return Err(UnknownCodec);
        }
        var decoded := codec.value.decode(uses[i].version, bytes, config.limits.decodedPayloadBytes);
        if decoded.Err? {
          return decoded;
        }
        bytes := decoded.value;
        if |bytes| > config.limits.decodedPayloadBytes {
          return Err(SizeLimit);
        }
      }
      return Ok(bytes);
    }

    method DecodePayload(p: Payload) returns (r: Result<Payload, PayloadError>)
      ensures r == Decode(config, Stores(), p)
    {
      if !IsExternalReference(p) {
        return if ClaimsExternalReference(p) then Err(MalformedReference) else Ok(p);
      }
      var reference := config.formats.bytesToReference(p.data);
      if reference.None? {
        return Err(MalformedReference);
      }
      var valid := ValidateReference(config, reference.value);
      if valid.Err? {
        return Err(valid.error);
      }
      if reference.value.storageId !in storages {
        return Err(UnknownStorage);
      }
      var stored := storages[reference.value.storageId].ReadObject(
        KeyFor(reference.value.objectId), reference.value.encodedSize);
      if stored.Err? {
        return Err(stored.error);
      }
      if |stored.value| != reference.value.encodedSize
         || config.formats.sha256(stored.value) != reference.value.sha256 {
        return Err(IntegrityMismatch);
      }
      var plain := UndoCodecs(reference.value.codecs, stored.value);
      if plain.Err? {
        return Err(plain.error);
      }
      var payload := config.formats.bytesToPayload(plain.value);
      return if payload.None? then Err(MalformedReference) else Ok(payload.value);
    }

    method DecodeAll(payloads: seq<Payload>) returns (r: Result<seq<Payload>, PayloadError>)
      ensures r == DecodeBatch(config, Stores(), payloads)
    {
      var stored: U64 := 0;
      for i := 0 to |payloads|
        invariant CheckClaims(config, payloads, 0) == CheckClaims(config, payloads[i..], stored)
      {
        var size := ClaimedSize(config, payloads[i]);
        if size.Err? {
          return Err(size.error);
        }
        stored := SatAdd64(stored, size.value);
        if stored > config.limits.batchBytes {
          return Err(SizeLimit);
        }
      }
      var total: U64 := 0;
      var decoded: seq<Payload> := [];
      ResumeNext([], Payload([], map[]), DecodeEach(config, Stores(), payloads, 0));
      for i := 0 to |payloads|
        invariant DecodeEach(config, Stores(), payloads, 0) == Resume(decoded, DecodeEach(config, Stores(), payloads[i..], total))
      {
        var next := DecodePayload(payloads[i]);
        if next.Err? {
          return Err(next.error);
        }
        total := SatAdd64(total, |config.formats.payloadToBytes(next.value)|);
        if total > config.limits.batchBytes {
          return Err(SizeLimit);
        }
        ResumeNext(decoded, next.value, DecodeEach(config, Stores(), payloads[i + 1..], total));
        decoded := decoded + [next.value];
      }
      assert decoded + [] == decoded;
      return Ok(decoded);
    }
  }

  lemma {:induction false} ChainErrorsPersist(codecs: seq<Codec>, i: nat, bytes: Bytes)
    requires i <= |codecs| && EncodeChain(codecs[..i], bytes).Err?
    ensures EncodeChain(codecs, bytes) == EncodeChain(codecs[..i], bytes)
    decreases |codecs|
  {
    if i == |codecs| {
      assert codecs[..i] == codecs;
    } else {
      assert codecs[..|codecs| - 1][..i] == codecs[..i];
      ChainErrorsPersist(codecs[..|codecs| - 1], i, bytes);
    }
  }

  // ---------- Building a pipeline ----------

  datatype Builder = Builder(
    formats: Formats,
    storages: map<string, InMemoryStorage>,
    defaultStorage: Option<string>,
    codecs: seq<Codec>,
    historicalFingerprints: set<string>,
    limits: Limits,
    fingerprintOf: (string, seq<Codec>) -> string)
  {
    ghost predicate Buildable() {
      && defaultStorage.Some? && defaultStorage.value in storages
      && (forall i :: 0 <= i < |codecs| ==> codecs[i].HasDescriptor())
      && DisjointOwners(codecs)
    }

    function Result(): Config
      requires defaultStorage.Some?
    {
      var fingerprint := fingerprintOf(defaultStorage.value, codecs);
      Config(formats, defaultStorage.value, codecs, limits, fingerprint, historicalFingerprints + {fingerprint})
    }
  }

  ghost predicate OwnedBy(codecs: seq<Codec>, owner: (string, nat)) {
    exists i :: 0 <= i < |codecs| && codecs[i].Owns(CodecUse(owner.0, owner.1))
  }

  /** `build` accepts exactly the configurations with a registered default store, valid
      descriptors and no version owned twice. */
  method Build(b: Builder) returns (r: Result<PayloadPipeline, PayloadError>)
    ensures r.Ok? <==> b.Buildable()
    ensures r.Ok? ==> fresh(r.value) && r.value.config == b.Result() && r.value.storages == b.storages && r.value.Valid()
    ensures r.Err? ==> r.error == InvalidInput
  {
    if b.defaultStorage.None? || b.defaultStorage.value !in b.storages {
      return Err(InvalidInput);
    }
    var owners: set<(string, nat)> := {};
    for i := 0 to |b.codecs|
      invariant forall k :: 0 <= k < i ==> b.codecs[k].HasDescriptor()
      invariant forall owner :: owner in owners <==> OwnedBy(b.codecs[..i], owner)
      invariant DisjointOwners(b.codecs[..i])
    {
      var codec := b.codecs[i];
      if !codec.HasDescriptor() {
        return Err(InvalidInput);
      }
      ghost var before := owners;
      var versions := codec.decodeVersions;
      while versions != {}
        invariant versions <= codec.decodeVersions
        invariant forall owner :: owner in owners <==>
          owner in before || (owner.0 == codec.id && owner.1 in codec.decodeVersions - versions)
        invariant forall v :: v in codec.decodeVersions - versions ==> (codec.id, v) !in before
        decreases |versions|
      {
        var version :| version in versions;
        if (codec.id, version) in owners {
          assert OwnedBy(b.codecs[..i], (codec.id, version));
          OverlapFound(b.codecs, i, CodecUse(codec.id, version));
          return Err(InvalidInput);
        }
        owners := owners + {(codec.id, version)};
        versions := versions - {version};
      }
      OwnersExtend(b.codecs, i, before, owners);
    }
    assert b.codecs[..|b.codecs|] == b.codecs;
    var pipeline := new PayloadPipeline(b.Result(), b.storages);
    return Ok(pipeline);
  }

  lemma OverlapFound(codecs: seq<Codec>, i: nat, use: CodecUse)
    requires i < |codecs| && codecs[i].Owns(use) && OwnedBy(codecs[..i], (use.id, use.version))
    ensures !DisjointOwners(codecs)
  {
    var k :| 0 <= k < i && codecs[..i][k].Owns(use);
    assert codecs[k].Owns(use);
  }

  lemma OwnersExtend(codecs: seq<Codec>, i: nat, before: set<(string, nat)>, after: set<(string, nat)>)
    requires i < |codecs| && codecs[i].HasDescriptor() && DisjointOwners(codecs[..i])
    requires forall owner :: owner in before <==> OwnedBy(codecs[..i], owner)
    requires forall owner :: owner in after <==>
      owner in before || (owner.0 == codecs[i].id && owner.1 in codecs[i].decodeVersions)
    requires forall v :: v in codecs[i].decodeVersions ==> (codecs[i].id, v) !in before
    ensures DisjointOwners(codecs[..i + 1])
    ensures forall owner :: owner in after <==> OwnedBy(codecs[..i + 1], owner)
  {
    var next := codecs[..i + 1];
    forall j, k, use | 0 <= j < k < |next| && next[j].Owns(use) ensures !next[k].Owns(use) {
      if k == i {
        assert codecs[..i][j].Owns(use);
        assert OwnedBy(codecs[..i], (use.id, use.version));
      } else {
        assert codecs[..i][j].Owns(use) && codecs[..i][k] == next[k];
      }
    }
    forall owner ensures owner in after <==> OwnedBy(next, owner) {
      var use := CodecUse(owner.0, owner.1);
      if OwnedBy(codecs[..i], owner) {
        var k :| 0 <= k < i && codecs[..i][k].Owns(use);
        assert next[k].Owns(use);
      }
      if owner.0 == codecs[i].id && owner.1 in codecs[i].decodeVersions {
        assert next[i].Owns(use);
      }
      if OwnedBy(next, owner) {
        var k :| 0 <= k < |next| && next[k].Owns(use);
        if k < i {
          assert codecs[..i][k].Owns(use);
        }
      }
    }
  }

  /** A built pipeline whose codecs undo themselves reads what it writes, so its own
      references and batches round-trip. */
  lemma BuiltPipelinesReadThemselves(b: Builder)
    requires b.Buildable() && b.formats.Lawful()
    requires forall i :: 0 <= i < |b.codecs| ==> Inverts(b.codecs[i], b.codecs[i])
    ensures Succeeds(b.Result(), b.Result())
  {
    var c := b.Result();
    forall i | 0 <= i < |c.codecs| ensures HasReader(c, c.codecs[i]) {
      assert c.codecs[i].Owns(CodecUse(c.codecs[i].id, c.codecs[i].encodeVersion)) && Inverts(c.codecs[i], c.codecs[i]);
    }
  }
}
