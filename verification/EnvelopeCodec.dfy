/**
 The queue envelope's wire format: a byte-exact printer and parser.

 Floating-point fields travel as their 64-bit patterns and the load-artifact
 section as an opaque blob, so both are plain data here.
 */
module EnvelopeCodec {
  import opened Wrappers

  type Byte = b: int | 0 <= b < 256
  type Bytes = seq<Byte>

  const TWO_TO_31: int := 0x8000_0000
  const TWO_TO_32: int := 0x1_0000_0000
  const TWO_TO_64: int := 0x1_0000_0000_0000_0000

  type Bits64 = n: int | 0 <= n < TWO_TO_64
  type Int32 = n: int | -TWO_TO_31 <= n < TWO_TO_31

  const HEADER_BYTES := 1 + 1 + 8 + 8 + 4

  datatype Envelope = Envelope(
    priority: int,
    attempts: Byte,
    costBits: Bits64,
    queuedBits: Bits64,
    headroomPct: Int32,
    runtimeName: Bytes,
    modelID: Bytes,
    source: Bytes,
    requestID: Bytes,
    globalMsgID: Bytes,
    loadArtifacts: Bytes,
    payload: Bytes)

  datatype Field = RuntimeName | ModelID | Source | RequestID | GlobalMsgID | LoadArtifacts

  datatype DecodeError =
    | ShortHeader
    | ShortLength(field: Field)
    | ShortBody(field: Field, need: nat)
    | BadArtifacts

  /** An identity field over 255 bytes: the printer panics. */
  datatype Panic = OversizeField(field: Field, length: nat)

  // --- Little-endian integers ---

  function LittleEndian(n: nat, width: nat): (bs: Bytes)
    ensures |bs| == width
  {
    if width == 0 then [] else [n % 256] + LittleEndian(n / 256, width - 1)
  }

  function FromLittleEndian(bs: Bytes): nat {
    if bs == [] then 0 else bs[0] + 256 * FromLittleEndian(bs[1..])
  }

  function Pow256(width: nat): (p: nat)
    ensures p >= 1
  {
    if width == 0 then 1 else 256 * Pow256(width - 1)
  }

  lemma Pow256Widths()
    ensures Pow256(4) == TWO_TO_32
    ensures Pow256(8) == TWO_TO_64
  {
    assert Pow256(4) == 256 * (256 * (256 * (256 * Pow256(0))));
    assert Pow256(8) == 256 * (256 * (256 * (256 * Pow256(4))));
  }

  lemma {:induction false} LittleEndianReads(n: nat, width: nat)
    requires n < Pow256(width)
    ensures FromLittleEndian(LittleEndian(n, width)) == n
  {
    if width > 0 {
      LittleEndianReads(n / 256, width - 1);
      assert LittleEndian(n, width)[1..] == LittleEndian(n / 256, width - 1);
    }
  }

  lemma {:induction false} LittleEndianPrints(bs: Bytes)
    ensures FromLittleEndian(bs) < Pow256(|bs|)
    ensures LittleEndian(FromLittleEndian(bs), |bs|) == bs
  {
    if bs != [] {
      LittleEndianPrints(bs[1..]);
      var n := FromLittleEndian(bs);
      assert n % 256 == bs[0] && n / 256 == FromLittleEndian(bs[1..]);
      assert bs == [bs[0]] + bs[1..];
    }
  }

  // --- The format ---

  /** Go's `byte(x)`: the low eight bits. */
  function TruncatedByte(x: int): Byte { x % 256 }

  /** Go's `uint32(x)` of an int32 or of a length. */
  function TruncatedU32(x: int): (n: nat) { x % TWO_TO_32 }

  /** Go's `int32(x)` of a uint32. */
  function SignedOf(n: nat): Int32
    requires n < TWO_TO_32
  {
    if n < TWO_TO_31 then n else n - TWO_TO_32
  }

  predicate FitsPrefix(s: Bytes) { |s| <= 255 }

  function Prefixed(s: Bytes): Bytes
    requires FitsPrefix(s)
  {
    [|s|] + s
  }

  function PrefixedU32(s: Bytes): Bytes {
    LittleEndian(TruncatedU32(|s|), 4) + s
  }

  /** Every identity field fits its one-byte length: the printer does not panic. */
  predicate Marshalable(e: Envelope) {
    && FitsPrefix(e.runtimeName)
    && FitsPrefix(e.modelID)
    && FitsPrefix(e.source)
    && FitsPrefix(e.requestID)
    && FitsPrefix(e.globalMsgID)
  }

  /** The values the format can carry without truncation. */
  predicate Representable(e: Envelope) {
    && Marshalable(e)
    && 0 <= e.priority < 256
    && |e.loadArtifacts| < TWO_TO_32
  }

  function HeaderOf(e: Envelope): (h: Bytes)
    ensures |h| == HEADER_BYTES
  {
    [TruncatedByte(e.priority)] + [e.attempts] + LittleEndian(e.costBits, 8) + LittleEndian(e.queuedBits, 8)
    + LittleEndian(TruncatedU32(e.headroomPct), 4)
  }

  // The body, as nested suffixes in field order.
  function FromBlob(e: Envelope): Bytes { PrefixedU32(e.loadArtifacts) + e.payload }

  function FromGlobalMsgID(e: Envelope): Bytes
    requires Marshalable(e)
  {
    Prefixed(e.globalMsgID) + FromBlob(e)
  }

  function FromRequestID(e: Envelope): Bytes
    requires Marshalable(e)
  {
    Prefixed(e.requestID) + FromGlobalMsgID(e)
  }

  function FromSource(e: Envelope): Bytes
    requires Marshalable(e)
  {
    Prefixed(e.source) + FromRequestID(e)
  }

  function FromModelID(e: Envelope): Bytes
    requires Marshalable(e)
  {
    Prefixed(e.modelID) + FromSource(e)
  }

  function Encode(e: Envelope): Bytes
    requires Marshalable(e)
  {
    HeaderOf(e) + (Prefixed(e.runtimeName) + FromModelID(e))
  }

  // --- Reading, suffix by suffix ---

  /** One length-prefixed field off the front of `data`, and what follows it. */
  function ReadField(data: Bytes, field: Field): Result<(Bytes, Bytes), DecodeError> {
    if |data| < 1 then Failure(ShortLength(field))
    else
      var n: nat := data[0];
      if |data| < 1 + n then Failure(ShortBody(field, n))
      else Success((data[1..1 + n], data[1 + n..]))
  }

  function ReadBlob(data: Bytes, field: Field): Result<(Bytes, Bytes), DecodeError> {
    if |data| < 4 then Failure(ShortLength(field))
    else
      var n := FromLittleEndian(data[..4]);
      if |data| < 4 + n then Failure(ShortBody(field, n)) else Success((data[4..4 + n], data[4 + n..]))
  }

  /** A field that was read is the prefixed field in front of what is left. */
  lemma ReadFieldPrintsBack(data: Bytes, field: Field)
    requires ReadField(data, field).Success?
    ensures var (s, rest) := ReadField(data, field).value; FitsPrefix(s) && data == Prefixed(s) + rest
  {
  }

  lemma ReadBlobPrintsBack(data: Bytes, field: Field)
    requires ReadBlob(data, field).Success?
    ensures var (s, rest) := ReadBlob(data, field).value; |s| < TWO_TO_32 && data == PrefixedU32(s) + rest
  {
    var n := FromLittleEndian(data[..4]);
    LittleEndianPrints(data[..4]);
    Pow256Widths();
    assert data == data[..4] + data[4..4 + n] + data[4 + n..];
  }

  /** The fixed-width fields in front. */
  datatype Header = Header(priority: Byte, attempts: Byte, costBits: Bits64, queuedBits: Bits64, headroomPct: Int32)

  function HeaderAt(data: Bytes): Header
    requires |data| >= HEADER_BYTES
  {
    HeaderRanges(data);
    Header(data[0], data[1], FromLittleEndian(data[2..10]), FromLittleEndian(data[10..18]), SignedOf(FromLittleEndian(data[18..22])))
  }

  function HeaderIn(e: Envelope): Header
    requires 0 <= e.priority < 256
  {
    Header(e.priority, e.attempts, e.costBits, e.queuedBits, e.headroomPct)
  }

  /**
   What the parser answers. `accepts` is the protobuf decoder's verdict on a
   non-empty load-artifact blob.
   */
  function Decode(data: Bytes, accepts: Bytes -> bool): (r: Result<Envelope, DecodeError>) {
    if |data| < HEADER_BYTES then Failure(ShortHeader) else DecodeBody(HeaderAt(data), data[HEADER_BYTES..], accepts)
  }

  function DecodeBody(h: Header, body: Bytes, accepts: Bytes -> bool): Result<Envelope, DecodeError> {
    var rn := ReadField(body, RuntimeName);
    if rn.Failure? then Failure(rn.error) else
    var mid := ReadField(rn.value.1, ModelID);
    if mid.Failure? then Failure(mid.error) else
    var src := ReadField(mid.value.1, Source);
    if src.Failure? then Failure(src.error) else
    DecodeRest(h, rn.value.0, mid.value.0, src.value.0, src.value.1, accepts)
  }

  /** The parser past the source field, with `rest` left to read. */
  function DecodeRest(h: Header, runtimeName: Bytes, modelID: Bytes, source: Bytes, rest: Bytes, accepts: Bytes -> bool):
    Result<Envelope, DecodeError>
  {
    var rid := ReadField(rest, RequestID);
    if rid.Failure? then Failure(rid.error) else
    var gmid := ReadField(rid.value.1, GlobalMsgID);
    if gmid.Failure? then Failure(gmid.error) else
    var blob := ReadBlob(gmid.value.1, LoadArtifacts);
    if blob.Failure? then Failure(blob.error) else
    if blob.value.0 != [] && !accepts(blob.value.0) then Failure(BadArtifacts) else
    Success(Envelope(
      h.priority, h.attempts, h.costBits, h.queuedBits, h.headroomPct,
      runtimeName, modelID, source, rid.value.0, gmid.value.0,
      blob.value.0, blob.value.1))
  }

  lemma HeaderRanges(data: Bytes)
    requires |data| >= HEADER_BYTES
    ensures FromLittleEndian(data[2..10]) < TWO_TO_64
    ensures FromLittleEndian(data[10..18]) < TWO_TO_64
    ensures FromLittleEndian(data[18..22]) < TWO_TO_32
  {
    LittleEndianPrints(data[2..10]);
    LittleEndianPrints(data[10..18]);
    LittleEndianPrints(data[18..22]);
    Pow256Widths();
  }

  predicate BlobAccepted(e: Envelope, accepts: Bytes -> bool) {
    e.loadArtifacts == [] || accepts(e.loadArtifacts)
  }

  // --- The layout, byte by byte ---

  /** Byte `k` of the little-endian form, counted from the least. */
  lemma {:induction false} LittleEndianByte(n: nat, width: nat, k: nat)
    requires k < width
    ensures LittleEndian(n, width)[k] == (n / Pow256(k)) % 256
  {
    if k > 0 {
      LittleEndianByte(n / 256, width - 1, k - 1);
      DivideTwice(n, 256, Pow256(k - 1));
    }
  }

  lemma DivideTwice(n: nat, a: nat, b: nat)
    requires a >= 1 && b >= 1
    ensures a * b >= 1 && n / a / b == n / (a * b)
  {
    var q := n / a / b;
    var r := n - q * (a * b);
    assert n == (n / a) * a + n % a;
    assert n / a == q * b + (n / a) % b;
    assert r == ((n / a) % b) * a + n % a;
    Below((n / a) % b, b, n % a, a);
    DivisionIs(n, a * b, q, r);
  }

  lemma Below(x: nat, b: nat, y: nat, a: nat)
    requires x < b && y < a
    ensures x * a + y < a * b
  {
    assert x * a + y < (x + 1) * a <= b * a;
  }

  lemma NextMultiple(p: nat, q: nat, d: nat)
    requires p < q
    ensures (p + 1) * d <= q * d
  {
  }

  lemma DivisionIs(n: nat, d: nat, q: nat, r: nat)
    requires d >= 1 && n == q * d + r && r < d
    ensures n / d == q
  {
    var p := n / d;
    assert p * d <= n < (p + 1) * d;
    if p < q {
      NextMultiple(p, q, d);
    } else if p > q {
      NextMultiple(q, p, d);
    }
  }

  /** A length byte at `at`, and the field after it. */
  predicate FieldAt(data: Bytes, at: nat, field: Bytes) {
    at + 1 + |field| <= |data| && data[at] == |field| && data[at + 1..at + 1 + |field|] == field
  }

  /** The low byte of the priority, the attempts, two 64-bit patterns and the headroom's 32 bits, least byte first. */
  predicate FixedAtFront(data: Bytes, e: Envelope) {
    && |data| >= 22
    && data[0] == e.priority % 256 && data[1] == e.attempts
    && data[2..10] == LittleEndian(e.costBits, 8) && data[10..18] == LittleEndian(e.queuedBits, 8)
    && data[18..22] == LittleEndian(if e.headroomPct >= 0 then e.headroomPct else e.headroomPct + 4294967296, 4)
  }

  /** Four length bytes at `at`, least first, and the blob after them. */
  predicate BlobAt(data: Bytes, at: nat, blob: Bytes) {
    && at + 4 + |blob| <= |data|
    && data[at..at + 4] == LittleEndian(|blob| % 4294967296, 4)
    && data[at + 4..at + 4 + |blob|] == blob
  }

  /** The offset of the request id, past the three names. */
  function RequestAt(e: Envelope): nat { 25 + |e.runtimeName| + |e.modelID| + |e.source| }

  /** The offset of the blob, past the two ids. */
  function BlobStart(e: Envelope): nat { RequestAt(e) + 2 + |e.requestID| + |e.globalMsgID| }

  predicate NamesAt(data: Bytes, e: Envelope) {
    && FieldAt(data, 22, e.runtimeName)
    && FieldAt(data, 23 + |e.runtimeName|, e.modelID)
    && FieldAt(data, 24 + |e.runtimeName| + |e.modelID|, e.source)
  }

  predicate IdsAt(data: Bytes, e: Envelope) {
    FieldAt(data, RequestAt(e), e.requestID) && FieldAt(data, RequestAt(e) + 1 + |e.requestID|, e.globalMsgID)
  }

  /** Where each field lies in a printed envelope, and what its length bytes say. */
  lemma LayoutExactly(e: Envelope)
    requires Marshalable(e)
    ensures var data := Encode(e);
            && FixedAtFront(data, e) && NamesAt(data, e) && IdsAt(data, e) && BlobAt(data, BlobStart(e), e.loadArtifacts)
            && data[BlobStart(e) + 4 + |e.loadArtifacts|..] == e.payload
  {
    HeaderLies(e, Prefixed(e.runtimeName) + FromModelID(e));
    BodyLies(e, Encode(e));
  }

  lemma BodyLies(e: Envelope, data: Bytes)
    requires Marshalable(e) && |data| >= 22 && data[22..] == Prefixed(e.runtimeName) + FromModelID(e)
    ensures NamesAt(data, e) && IdsAt(data, e) && BlobAt(data, BlobStart(e), e.loadArtifacts)
    ensures data[BlobStart(e) + 4 + |e.loadArtifacts|..] == e.payload
  {
    NamesLie(e, data);
    IdsLie(e, data);
    BlobLies(data, BlobStart(e), e.loadArtifacts, e.payload);
  }

  lemma HeaderLies(e: Envelope, rest: Bytes)
    ensures FixedAtFront(HeaderOf(e) + rest, e) && (HeaderOf(e) + rest)[22..] == rest
  {
    var data := HeaderOf(e) + rest;
    assert TruncatedU32(e.headroomPct) == if e.headroomPct >= 0 then e.headroomPct else e.headroomPct + 4294967296;
    assert data[2..10] == LittleEndian(e.costBits, 8);
    assert data[10..18] == LittleEndian(e.queuedBits, 8);
    assert data[18..22] == LittleEndian(TruncatedU32(e.headroomPct), 4);
  }

  lemma NamesLie(e: Envelope, data: Bytes)
    requires Marshalable(e) && |data| >= 22 && data[22..] == Prefixed(e.runtimeName) + FromModelID(e)
    ensures NamesAt(data, e) && RequestAt(e) <= |data| && data[RequestAt(e)..] == FromRequestID(e)
  {
    FieldLies(data, 22, e.runtimeName, FromModelID(e));
    FieldLies(data, 23 + |e.runtimeName|, e.modelID, FromSource(e));
    FieldLies(data, 24 + |e.runtimeName| + |e.modelID|, e.source, FromRequestID(e));
  }

  lemma IdsLie(e: Envelope, data: Bytes)
    requires Marshalable(e) && RequestAt(e) <= |data| && data[RequestAt(e)..] == FromRequestID(e)
    ensures IdsAt(data, e) && BlobStart(e) <= |data| && data[BlobStart(e)..] == FromBlob(e)
  {
    FieldLies(data, RequestAt(e), e.requestID, FromGlobalMsgID(e));
    FieldLies(data, RequestAt(e) + 1 + |e.requestID|, e.globalMsgID, FromBlob(e));
  }

  lemma Shifted(data: Bytes, at: nat, i: nat, j: nat)
    requires at <= |data| && i <= j <= |data| - at
    ensures data[at..][i..j] == data[at + i..at + j]
    ensures data[at..][j..] == data[at + j..]
  {
  }

  lemma FieldLies(data: Bytes, at: nat, field: Bytes, rest: Bytes)
    requires at <= |data| && FitsPrefix(field) && data[at..] == Prefixed(field) + rest
    ensures FieldAt(data, at, field) && data[at + 1 + |field|..] == rest
  {
    var d := Prefixed(field) + rest;
    assert |d| == |data| - at && data[at..][0] == data[at];
    Shifted(data, at, 1, 1 + |field|);
    assert d[1..1 + |field|] == field && d[1 + |field|..] == rest;
  }

  lemma BlobLies(data: Bytes, at: nat, blob: Bytes, payload: Bytes)
    requires at <= |data| && data[at..] == PrefixedU32(blob) + payload
    ensures |data| == at + 4 + |blob| + |payload|
    ensures BlobAt(data, at, blob) && data[at + 4 + |blob|..] == payload
  {
    var prefix := LittleEndian(TruncatedU32(|blob|), 4);
    assert PrefixedU32(blob) + payload == prefix + blob + payload;
    PrefixLies(data, at, prefix, blob, payload);
  }

  lemma PrefixLies(data: Bytes, at: nat, prefix: Bytes, blob: Bytes, payload: Bytes)
    requires at <= |data| && |prefix| == 4 && data[at..] == prefix + blob + payload
    ensures |data| == at + 4 + |blob| + |payload|
    ensures data[at..at + 4] == prefix && data[at + 4..at + 4 + |blob|] == blob && data[at + 4 + |blob|..] == payload
  {
    var d := prefix + blob + payload;
    Shifted(data, at, 0, 4);
    Shifted(data, at, 4, 4 + |blob|);
    assert d[0..4] == prefix && d[4..4 + |blob|] == blob && d[4 + |blob|..] == payload;
  }

  // --- Round trips ---

  lemma ReadFieldUndoesPrefix(s: Bytes, rest: Bytes, field: Field)
    requires FitsPrefix(s)
    ensures ReadField(Prefixed(s) + rest, field) == Success((s, rest))
  {
    var d := Prefixed(s) + rest;
    assert d[1..1 + |s|] == s;
    assert d[1 + |s|..] == rest;
  }

  // --- Cut short ---

  /** One field cut off `k` bytes in. */
  function CutIn(field: Field, length: nat, k: int): DecodeError { if k < 1 then ShortLength(field) else ShortBody(field, length) }

  /** The error a printed envelope gives when it ends after `n` bytes, somewhere before its payload. */
  function CutError(e: Envelope, n: nat): DecodeError {
    if n < 22 then ShortHeader
    else if n < 23 + |e.runtimeName| then CutIn(RuntimeName, |e.runtimeName|, n - 22)
    else if n < 24 + |e.runtimeName| + |e.modelID| then CutIn(ModelID, |e.modelID|, n - 23 - |e.runtimeName|)
    else if n < RequestAt(e) then CutIn(Source, |e.source|, n - 24 - |e.runtimeName| - |e.modelID|)
    else if n < RequestAt(e) + 1 + |e.requestID| then CutIn(RequestID, |e.requestID|, n - RequestAt(e))
    else if n < BlobStart(e) then CutIn(GlobalMsgID, |e.globalMsgID|, n - RequestAt(e) - 1 - |e.requestID|)
    else if n < BlobStart(e) + 4 then ShortLength(LoadArtifacts)
    else ShortBody(LoadArtifacts, |e.loadArtifacts|)
  }

  lemma ReadFieldOfCut(s: Bytes, rest: Bytes, k: nat, field: Field)
    requires FitsPrefix(s) && k <= 1 + |s| + |rest|
    ensures ReadField((Prefixed(s) + rest)[..k], field)
            == if k < 1 + |s| then Failure(CutIn(field, |s|, k)) else Success((s, rest[..k - 1 - |s|]))
  {
    var d := (Prefixed(s) + rest)[..k];
    if k >= 1 + |s| {
      assert d == Prefixed(s) + rest[..k - 1 - |s|];
      ReadFieldUndoesPrefix(s, rest[..k - 1 - |s|], field);
    }
  }

  lemma ReadBlobOfCut(s: Bytes, payload: Bytes, k: nat, field: Field)
    requires |s| < TWO_TO_32 && k < 4 + |s|
    ensures k <= |PrefixedU32(s) + payload|
    ensures ReadBlob((PrefixedU32(s) + payload)[..k], field) == Failure(if k < 4 then ShortLength(field) else ShortBody(field, |s|))
  {
    var prefix := LittleEndian(TruncatedU32(|s|), 4);
    var d := (PrefixedU32(s) + payload)[..k];
    LengthReadsBack(|s|);
    assert PrefixedU32(s) + payload == prefix + (s + payload);
    if k >= 4 { assert d[..4] == prefix; }
  }

  lemma RestOfCut(e: Envelope, h: Header, rn: Bytes, mid: Bytes, src: Bytes, k: nat, accepts: Bytes -> bool)
    requires Representable(e) && k < 6 + |e.requestID| + |e.globalMsgID| + |e.loadArtifacts|
    ensures k <= |FromRequestID(e)|
    ensures DecodeRest(h, rn, mid, src, FromRequestID(e)[..k], accepts) == Failure(CutError(e, RequestAt(e) + k))
  {
    ReadFieldOfCut(e.requestID, FromGlobalMsgID(e), k, RequestID);
    if k >= 1 + |e.requestID| {
      var j := k - 1 - |e.requestID|;
      ReadFieldOfCut(e.globalMsgID, FromBlob(e), j, GlobalMsgID);
      if j >= 1 + |e.globalMsgID| {
        ReadBlobOfCut(e.loadArtifacts, e.payload, j - 1 - |e.globalMsgID|, LoadArtifacts);
      }
    }
  }

  lemma BodyLength(e: Envelope)
    requires Marshalable(e)
    ensures |FromRequestID(e)| == 6 + |e.requestID| + |e.globalMsgID| + |e.loadArtifacts| + |e.payload|
    ensures |FromSource(e)| == 1 + |e.source| + |FromRequestID(e)| && |FromModelID(e)| == 1 + |e.modelID| + |FromSource(e)|
  {
  }

  /** The parser from the model id on, on the field's suffix cut `k` bytes in. */
  lemma NamesOfCut(e: Envelope, h: Header, rn: Bytes, k: nat, accepts: Bytes -> bool)
    requires Representable(e) && k < RequestAt(e) - 23 - |e.runtimeName|
    ensures k <= |FromModelID(e)|
    ensures var mid := ReadField(FromModelID(e)[..k], ModelID);
            if mid.Failure? then mid.error == CutError(e, 23 + |e.runtimeName| + k)
            else ReadField(mid.value.1, Source) == Failure(CutError(e, 23 + |e.runtimeName| + k))
  {
    BodyLength(e);
    ReadFieldOfCut(e.modelID, FromSource(e), k, ModelID);
    if k >= 1 + |e.modelID| {
      ReadFieldOfCut(e.source, FromRequestID(e), k - 1 - |e.modelID|, Source);
    }
  }

  lemma PastNamesOfCut(e: Envelope, k: nat)
    requires Marshalable(e) && k <= |FromRequestID(e)|
    ensures var all := 2 + |e.modelID| + |e.source| + k;
            && all <= |FromModelID(e)|
            && var mid := ReadField(FromModelID(e)[..all], ModelID);
            && mid.Success? && mid.value.0 == e.modelID
            && ReadField(mid.value.1, Source) == Success((e.source, FromRequestID(e)[..k]))
  {
    BodyLength(e);
    ReadFieldOfCut(e.modelID, FromSource(e), 2 + |e.modelID| + |e.source| + k, ModelID);
    ReadFieldOfCut(e.source, FromRequestID(e), 1 + |e.source| + k, Source);
  }

  lemma BodyCutInNames(e: Envelope, h: Header, k: nat, accepts: Bytes -> bool)
    requires Representable(e) && 22 + k < RequestAt(e)
    ensures k <= |Prefixed(e.runtimeName) + FromModelID(e)|
    ensures DecodeBody(h, (Prefixed(e.runtimeName) + FromModelID(e))[..k], accepts) == Failure(CutError(e, 22 + k))
  {
    BodyLength(e);
    ReadFieldOfCut(e.runtimeName, FromModelID(e), k, RuntimeName);
    if k >= 1 + |e.runtimeName| {
      NamesOfCut(e, h, e.runtimeName, k - 1 - |e.runtimeName|, accepts);
    }
  }

  lemma DecodesPastNames(h: Header, body: Bytes, rn: Bytes, b1: Bytes, mid: Bytes, b2: Bytes, src: Bytes, rest: Bytes, accepts: Bytes -> bool)
    requires ReadField(body, RuntimeName) == Success((rn, b1)) && ReadField(b1, ModelID) == Success((mid, b2))
    requires ReadField(b2, Source) == Success((src, rest))
    ensures DecodeBody(h, body, accepts) == DecodeRest(h, rn, mid, src, rest, accepts)
  {
  }

  lemma BodyCutPastNames(e: Envelope, h: Header, k: nat, all: nat, accepts: Bytes -> bool)
    requires Representable(e) && k <= |FromRequestID(e)| && 22 + all == RequestAt(e) + k
    requires all <= |Prefixed(e.runtimeName) + FromModelID(e)|
    ensures DecodeBody(h, (Prefixed(e.runtimeName) + FromModelID(e))[..all], accepts)
            == DecodeRest(h, e.runtimeName, e.modelID, e.source, FromRequestID(e)[..k], accepts)
  {
    PastNamesOfCut(e, k);
    ReadFieldOfCut(e.runtimeName, FromModelID(e), all, RuntimeName);
    var b1 := FromModelID(e)[..2 + |e.modelID| + |e.source| + k];
    assert ReadField((Prefixed(e.runtimeName) + FromModelID(e))[..all], RuntimeName) == Success((e.runtimeName, b1));
    DecodesPastNames(h, (Prefixed(e.runtimeName) + FromModelID(e))[..all], e.runtimeName, b1, e.modelID,
                     ReadField(b1, ModelID).value.1, e.source, FromRequestID(e)[..k], accepts);
  }

  lemma CutPastNames(e: Envelope, h: Header, j: nat, k: nat, accepts: Bytes -> bool)
    requires Representable(e) && 22 + k == RequestAt(e) + j && j < 6 + |e.requestID| + |e.globalMsgID| + |e.loadArtifacts|
    ensures k <= |Prefixed(e.runtimeName) + FromModelID(e)|
    ensures DecodeBody(h, (Prefixed(e.runtimeName) + FromModelID(e))[..k], accepts) == Failure(CutError(e, 22 + k))
  {
    BodyLength(e);
    RestOfCut(e, h, e.runtimeName, e.modelID, e.source, j, accepts);
    BodyCutPastNames(e, h, j, k, accepts);
  }

  lemma BodyOfCut(e: Envelope, h: Header, k: nat, accepts: Bytes -> bool)
    requires Representable(e) && 22 + k < BlobStart(e) + 4 + |e.loadArtifacts|
    ensures k <= |Prefixed(e.runtimeName) + FromModelID(e)|
    ensures DecodeBody(h, (Prefixed(e.runtimeName) + FromModelID(e))[..k], accepts) == Failure(CutError(e, 22 + k))
  {
    if 22 + k < RequestAt(e) {
      BodyCutInNames(e, h, k, accepts);
    } else {
      CutPastNames(e, h, k + 22 - RequestAt(e), k, accepts);
    }
  }

  lemma CutAfterHeader(e: Envelope, body: Bytes, n: nat, accepts: Bytes -> bool)
    requires 0 <= e.priority < 256 && 22 <= n <= 22 + |body|
    ensures Decode((HeaderOf(e) + body)[..n], accepts) == DecodeBody(HeaderIn(e), body[..n - 22], accepts)
  {
    var cut := HeaderOf(e) + body[..n - 22];
    assert (HeaderOf(e) + body)[..n] == cut;
    HeaderReadsBack(e, body[..n - 22]);
    assert cut[HEADER_BYTES..] == body[..n - 22];
  }

  lemma CutInHeader(e: Envelope, body: Bytes, n: nat, accepts: Bytes -> bool)
    requires n < 22
    ensures Decode((HeaderOf(e) + body)[..n], accepts) == Failure(ShortHeader)
  {
  }

  /** A printed envelope that ends anywhere before its payload is refused, with the field it ends in and that field's length. */
  lemma CutShortExactly(e: Envelope, n: nat, accepts: Bytes -> bool)
    requires Representable(e) && n < BlobStart(e) + 4 + |e.loadArtifacts|
    ensures n <= |Encode(e)| && Decode(Encode(e)[..n], accepts) == Failure(CutError(e, n))
  {
    var body := Prefixed(e.runtimeName) + FromModelID(e);
    if n >= 22 {
      BodyOfCut(e, HeaderIn(e), n - 22, accepts);
      CutAfterHeader(e, body, n, accepts);
    } else {
      CutInHeader(e, body, n, accepts);
    }
  }

  lemma LengthReadsBack(n: nat)
    requires n < TWO_TO_32
    ensures FromLittleEndian(LittleEndian(TruncatedU32(n), 4)) == n
  {
    FitsFourBytes(n);
    LittleEndianReads(TruncatedU32(n), 4);
  }

  lemma FitsFourBytes(n: nat)
    requires n < TWO_TO_32
    ensures TruncatedU32(n) == n && n < Pow256(4)
  {
    Pow256Widths();
  }

  lemma ReadBlobUndoesPrefix(s: Bytes, rest: Bytes, field: Field)
    requires |s| < TWO_TO_32
    ensures ReadBlob(PrefixedU32(s) + rest, field) == Success((s, rest))
  {
    var d, prefix := PrefixedU32(s) + rest, LittleEndian(TruncatedU32(|s|), 4);
    LengthReadsBack(|s|);
    assert d == prefix + s + rest;
    assert d[..4] == prefix;
    assert d[4..4 + |s|] == s;
    assert d[4 + |s|..] == rest;
  }

  lemma HeaderReadsBack(e: Envelope, rest: Bytes)
    requires 0 <= e.priority < 256
    ensures |HeaderOf(e) + rest| >= HEADER_BYTES && HeaderAt(HeaderOf(e) + rest) == HeaderIn(e)
  {
    var d := HeaderOf(e) + rest;
    Pow256Widths();
    LittleEndianReads(e.costBits, 8);
    LittleEndianReads(e.queuedBits, 8);
    LittleEndianReads(TruncatedU32(e.headroomPct), 4);
    assert d[2..10] == LittleEndian(e.costBits, 8);
    assert d[10..18] == LittleEndian(e.queuedBits, 8);
    assert d[18..22] == LittleEndian(TruncatedU32(e.headroomPct), 4);
  }

  /** Each field of a printed body reads back, leaving the sections after it. */
  lemma SectionsRead(e: Envelope)
    requires Representable(e)
    ensures ReadField(Prefixed(e.runtimeName) + FromModelID(e), RuntimeName) == Success((e.runtimeName, FromModelID(e)))
    ensures ReadField(FromModelID(e), ModelID) == Success((e.modelID, FromSource(e)))
    ensures ReadField(FromSource(e), Source) == Success((e.source, FromRequestID(e)))
    ensures ReadField(FromRequestID(e), RequestID) == Success((e.requestID, FromGlobalMsgID(e)))
    ensures ReadField(FromGlobalMsgID(e), GlobalMsgID) == Success((e.globalMsgID, FromBlob(e)))
    ensures ReadBlob(FromBlob(e), LoadArtifacts) == Success((e.loadArtifacts, e.payload))
  {
    ReadFieldUndoesPrefix(e.runtimeName, FromModelID(e), RuntimeName);
    ReadFieldUndoesPrefix(e.modelID, FromSource(e), ModelID);
    ReadFieldUndoesPrefix(e.source, FromRequestID(e), Source);
    ReadFieldUndoesPrefix(e.requestID, FromGlobalMsgID(e), RequestID);
    ReadFieldUndoesPrefix(e.globalMsgID, FromBlob(e), GlobalMsgID);
    ReadBlobUndoesPrefix(e.loadArtifacts, e.payload, LoadArtifacts);
  }

  lemma BodyReadsBack(e: Envelope, accepts: Bytes -> bool)
    requires Representable(e) && BlobAccepted(e, accepts)
    ensures DecodeBody(HeaderIn(e), Prefixed(e.runtimeName) + FromModelID(e), accepts) == Success(e)
  {
    SectionsRead(e);
  }

  lemma BodyFollowsHeader(e: Envelope, body: Bytes)
    ensures |HeaderOf(e) + body| >= HEADER_BYTES && (HeaderOf(e) + body)[HEADER_BYTES..] == body
  {
  }

  /** Parsing what was printed gives the envelope back. */
  lemma DecodeUndoesEncode(e: Envelope, accepts: Bytes -> bool)
    requires Representable(e) && BlobAccepted(e, accepts)
    ensures Decode(Encode(e), accepts) == Success(e)
  {
    var body := Prefixed(e.runtimeName) + FromModelID(e);
    HeaderReadsBack(e, body);
    BodyFollowsHeader(e, body);
    BodyReadsBack(e, accepts);
  }

  lemma HeaderPrintsBack(data: Bytes, e: Envelope)
    requires |data| >= HEADER_BYTES && 0 <= e.priority < 256 && HeaderAt(data) == HeaderIn(e)
    ensures HeaderOf(e) == data[..HEADER_BYTES]
  {
    HeaderRanges(data);
    LittleEndianPrints(data[2..10]);
    LittleEndianPrints(data[10..18]);
    LittleEndianPrints(data[18..22]);
    assert TruncatedU32(e.headroomPct) == FromLittleEndian(data[18..22]);
    assert data[..HEADER_BYTES] == [data[0]] + [data[1]] + data[2..10] + data[10..18] + data[18..22];
  }

  /** What is left after each field that was read, from the first to the last. */
  lemma DecodedFields(h: Header, body: Bytes, e: Envelope, accepts: Bytes -> bool)
    returns (s1: Bytes, s2: Bytes, s3: Bytes, s4: Bytes)
    requires DecodeBody(h, body, accepts) == Success(e)
    ensures Representable(e) && BlobAccepted(e, accepts) && h == HeaderIn(e)
    ensures body == Prefixed(e.runtimeName) + s1
    ensures s1 == Prefixed(e.modelID) + s2 && s2 == Prefixed(e.source) + s3
    ensures s3 == Prefixed(e.requestID) + s4 && s4 == Prefixed(e.globalMsgID) + FromBlob(e)
  {
    s1 := ReadField(body, RuntimeName).value.1;
    s2 := ReadField(s1, ModelID).value.1;
    s3 := ReadField(s2, Source).value.1;
    s4 := ReadField(s3, RequestID).value.1;
    ReadFieldPrintsBack(body, RuntimeName);
    ReadFieldPrintsBack(s1, ModelID);
    ReadFieldPrintsBack(s2, Source);
    ReadFieldPrintsBack(s3, RequestID);
    ReadFieldPrintsBack(s4, GlobalMsgID);
    ReadBlobPrintsBack(ReadField(s4, GlobalMsgID).value.1, LoadArtifacts);
  }

  lemma SectionsEncode(data: Bytes, e: Envelope, s1: Bytes, s2: Bytes, s3: Bytes, s4: Bytes)
    requires Marshalable(e) && |data| >= HEADER_BYTES && HeaderOf(e) == data[..HEADER_BYTES]
    requires data[HEADER_BYTES..] == Prefixed(e.runtimeName) + s1
    requires s1 == Prefixed(e.modelID) + s2 && s2 == Prefixed(e.source) + s3
    requires s3 == Prefixed(e.requestID) + s4 && s4 == Prefixed(e.globalMsgID) + FromBlob(e)
    ensures Encode(e) == data
  {
    assert s4 == FromGlobalMsgID(e);
    assert s3 == FromRequestID(e);
    assert s2 == FromSource(e);
    assert s1 == FromModelID(e);
    assert data == data[..HEADER_BYTES] + data[HEADER_BYTES..];
  }

  /** Printing what was parsed gives the bytes back, for every accepted input. */
  lemma EncodeUndoesDecode(data: Bytes, accepts: Bytes -> bool)
    requires Decode(data, accepts).Success?
    ensures var e := Decode(data, accepts).value;
            Representable(e) && BlobAccepted(e, accepts) && Encode(e) == data
  {
    var e := Decode(data, accepts).value;
    var s1, s2, s3, s4 := DecodedFields(HeaderAt(data), data[HEADER_BYTES..], e, accepts);
    HeaderPrintsBack(data, e);
    SectionsEncode(data, e, s1, s2, s3, s4);
  }

  /** The parser accepts exactly the printed forms, and answers the one envelope each came from. */
  lemma CodecIsBijective(data: Bytes, e: Envelope, accepts: Bytes -> bool)
    ensures Decode(data, accepts) == Success(e)
            <==> Representable(e) && BlobAccepted(e, accepts) && Encode(e) == data
  {
    if Decode(data, accepts) == Success(e) {
      EncodeUndoesDecode(data, accepts);
    } else if Representable(e) && BlobAccepted(e, accepts) && Encode(e) == data {
      DecodeUndoesEncode(e, accepts);
    }
  }

  /**
   Of the envelopes the printer does not panic on, exactly those with a
   byte-sized priority and a blob under 4 GiB survive the trip: the priority and
   the blob's length are truncated without a check.
   */
  lemma SurvivesExactlyWhenRepresentable(e: Envelope, accepts: Bytes -> bool)
    requires Marshalable(e) && BlobAccepted(e, accepts)
    ensures Decode(Encode(e), accepts) == Success(e) <==> 0 <= e.priority < 256 && |e.loadArtifacts| < TWO_TO_32
  {
    RepresentableExactly(e);
    CodecIsBijective(Encode(e), e, accepts);
  }

  lemma RepresentableExactly(e: Envelope)
    requires Marshalable(e)
    ensures Representable(e) <==> 0 <= e.priority < 256 && |e.loadArtifacts| < TWO_TO_32
  {
  }

  /** Distinct envelopes never share a printed form. */
  lemma EncodeIsInjective(a: Envelope, b: Envelope)
    requires Representable(a) && Representable(b) && Encode(a) == Encode(b)
    ensures a == b
  {
    DecodeUndoesEncode(a, _ => true);
    DecodeUndoesEncode(b, _ => true);
  }

  // --- The printer: fills one buffer by offset ---

  method CopyAt(buf: array<Byte>, off: nat, s: Bytes)
    requires off + |s| <= buf.Length
    modifies buf
    ensures buf[..] == old(buf[..off]) + s + old(buf[off + |s|..])
  {
    forall i | 0 <= i < |s| {
      buf[off + i] := s[i];
    }
    assert buf[..off] == old(buf[..off]);
    assert buf[off..off + |s|] == s;
    assert buf[off + |s|..] == old(buf[off + |s|..]);
    assert buf[..] == buf[..off] + buf[off..off + |s|] + buf[off + |s|..];
  }

  method WriteLenPrefixed(buf: array<Byte>, off: nat, s: Bytes) returns (next: nat)
    requires FitsPrefix(s) && off + 1 + |s| <= buf.Length
    modifies buf
    ensures next == off + 1 + |s|
    ensures buf[..next] == old(buf[..off]) + Prefixed(s) && buf[next..] == old(buf[off + 1 + |s|..])
  {
    CopyAt(buf, off, [|s|]);
    assert buf[..off + 1] == old(buf[..off]) + [|s|];
    CopyAt(buf, off + 1, s);
    next := off + 1 + |s|;
    assert buf[..next] == old(buf[..off]) + [|s|] + s;
  }

  method WriteLenPrefixedU32(buf: array<Byte>, off: nat, s: Bytes) returns (next: nat)
    requires off + 4 + |s| <= buf.Length
    modifies buf
    ensures next == off + 4 + |s|
    ensures buf[..next] == old(buf[..off]) + PrefixedU32(s) && buf[next..] == old(buf[off + 4 + |s|..])
  {
    var n := LittleEndian(TruncatedU32(|s|), 4);
    CopyAt(buf, off, n);
    assert buf[..off + 4] == old(buf[..off]) + n;
    CopyAt(buf, off + 4, s);
    next := off + 4 + |s|;
    assert buf[..next] == old(buf[..off]) + n + s;
  }

  function Oversize(e: Envelope): (p: Option<Panic>)
    ensures p.None? <==> Marshalable(e)
  {
    if !FitsPrefix(e.runtimeName) then Some(OversizeField(RuntimeName, |e.runtimeName|))
    else if !FitsPrefix(e.modelID) then Some(OversizeField(ModelID, |e.modelID|))
    else if !FitsPrefix(e.source) then Some(OversizeField(Source, |e.source|))
    else if !FitsPrefix(e.requestID) then Some(OversizeField(RequestID, |e.requestID|))
    else if !FitsPrefix(e.globalMsgID) then Some(OversizeField(GlobalMsgID, |e.globalMsgID|))
    else None
  }

  /** Writing the sections left to right yields the format. */
  lemma SectionsInOrder(e: Envelope)
    requires Marshalable(e)
    ensures HeaderOf(e) + Prefixed(e.runtimeName) + Prefixed(e.modelID) + Prefixed(e.source) + Prefixed(e.requestID)
            + Prefixed(e.globalMsgID) + PrefixedU32(e.loadArtifacts) + e.payload == Encode(e)
  {
    RightNested(HeaderOf(e), Prefixed(e.runtimeName), Prefixed(e.modelID), Prefixed(e.source),
                Prefixed(e.requestID), Prefixed(e.globalMsgID), PrefixedU32(e.loadArtifacts), e.payload);
  }

  lemma RightNested(a: Bytes, b: Bytes, c: Bytes, d: Bytes, e: Bytes, f: Bytes, g: Bytes, h: Bytes)
    ensures a + b + c + d + e + f + g + h == a + (b + (c + (d + (e + (f + (g + h))))))
  {
  }

  method Marshal(e: Envelope) returns (r: Result<array<Byte>, Panic>)
    ensures r.Success? <==> Marshalable(e)
    ensures r.Success? ==> r.value[..] == Encode(e)
    ensures r.Failure? ==> Oversize(e) == Some(r.error)
  {
    var p := Oversize(e);
    if p.Some? {
      return Failure(p.value);
    }
    var buf := new Byte[HEADER_BYTES + 5 + |e.runtimeName| + |e.modelID| + |e.source| + |e.requestID|
                        + |e.globalMsgID| + 4 + |e.loadArtifacts| + |e.payload|];
    CopyAt(buf, 0, HeaderOf(e));
    var off := HEADER_BYTES;
    assert buf[..off] == HeaderOf(e);
    off := WriteLenPrefixed(buf, off, e.runtimeName);
    off := WriteLenPrefixed(buf, off, e.modelID);
    off := WriteLenPrefixed(buf, off, e.source);
    off := WriteLenPrefixed(buf, off, e.requestID);
    off := WriteLenPrefixed(buf, off, e.globalMsgID);
    off := WriteLenPrefixedU32(buf, off, e.loadArtifacts);
    SectionsInOrder(e);
    CopyAt(buf, off, e.payload);
    return Success(buf);
  }

  // --- The parser: advances one offset ---

  method ReadLenPrefixed(data: Bytes, off: nat, field: Field) returns (r: Result<(Bytes, nat), DecodeError>)
    requires off <= |data|
    ensures r.Success? ==> off < r.value.1 <= |data|
                           && ReadField(data[off..], field) == Success((r.value.0, data[r.value.1..]))
    ensures r.Failure? ==> ReadField(data[off..], field) == Failure(r.error)
  {
    if |data| < off + 1 {
      return Failure(ShortLength(field));
    }
    var n: nat := data[off];
    if |data| < off + 1 + n {
      return Failure(ShortBody(field, n));
    }
    assert data[off..][1..1 + n] == data[off + 1..off + 1 + n];
    assert data[off..][1 + n..] == data[off + 1 + n..];
    return Success((data[off + 1..off + 1 + n], off + 1 + n));
  }

  method ReadLenPrefixedU32(data: Bytes, off: nat, field: Field) returns (r: Result<(Bytes, nat), DecodeError>)
    requires off <= |data|
    ensures r.Success? ==> off < r.value.1 <= |data|
                           && ReadBlob(data[off..], field) == Success((r.value.0, data[r.value.1..]))
    ensures r.Failure? ==> ReadBlob(data[off..], field) == Failure(r.error)
  {
    if |data| < off + 4 {
      return Failure(ShortLength(field));
    }
    assert data[off..][..4] == data[off..off + 4];
    var n := FromLittleEndian(data[off..off + 4]);
    if |data| < off + 4 + n {
      return Failure(ShortBody(field, n));
    }
    assert data[off..][4..4 + n] == data[off + 4..off + 4 + n];
    assert data[off..][4 + n..] == data[off + 4 + n..];
    return Success((data[off + 4..off + 4 + n], off + 4 + n));
  }

  method UnmarshalEnvelope(data: Bytes, accepts: Bytes -> bool) returns (r: Result<Envelope, DecodeError>)
    ensures r == Decode(data, accepts)
  {
    if |data| < HEADER_BYTES {
      return Failure(ShortHeader);
    }
    var header := HeaderAt(data);
    var off := HEADER_BYTES;
    var rn := ReadLenPrefixed(data, off, RuntimeName);
    if rn.Failure? { return Failure(rn.error); }
    off := rn.value.1;
    var mid := ReadLenPrefixed(data, off, ModelID);
    if mid.Failure? { return Failure(mid.error); }
    off := mid.value.1;
    var src := ReadLenPrefixed(data, off, Source);
    if src.Failure? { return Failure(src.error); }
    r := UnmarshalRest(header, data, src.value.1, rn.value.0, mid.value.0, src.value.0, accepts);
  }

  /** The second half of the parser. */
  method UnmarshalRest(
    h: Header, data: Bytes, start: nat, runtimeName: Bytes, modelID: Bytes, source: Bytes, accepts: Bytes -> bool)
    returns (r: Result<Envelope, DecodeError>)
    requires start <= |data|
    ensures r == DecodeRest(h, runtimeName, modelID, source, data[start..], accepts)
  {
    var off := start;
    var rid := ReadLenPrefixed(data, off, RequestID);
    if rid.Failure? { return Failure(rid.error); }
    off := rid.value.1;
    var gmid := ReadLenPrefixed(data, off, GlobalMsgID);
    if gmid.Failure? { return Failure(gmid.error); }
    off := gmid.value.1;
    var blob := ReadLenPrefixedU32(data, off, LoadArtifacts);
    if blob.Failure? { return Failure(blob.error); }
    off := blob.value.1;
    if blob.value.0 != [] && !accepts(blob.value.0) {
      return Failure(BadArtifacts);
    }
    return Success(Envelope(
      h.priority, h.attempts, h.costBits, h.queuedBits, h.headroomPct,
      runtimeName, modelID, source, rid.value.0, gmid.value.0,
      blob.value.0, data[off..]));
  }
}
