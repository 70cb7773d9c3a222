/** The signed query states a consumer and an indexer exchange, and their Base64 form. */
module SignedStates {
  import opened Outcomes
  import opened Words
  import opened Encoding
  import Base64

  type Address = b: Bytes | |b| == 20 witness seq(20, _ => 0)

  datatype Signature = Signature(r: u256, s: u256, v: u64)

  datatype QueryState = QueryState(
    channelId: u256, indexer: Address, consumer: Address, spent: u256, remote: u256,
    isFinal: bool, indexerSign: Signature, consumerSign: Signature)

  datatype Active = Active | Inactive1 | Inactive2 {
    predicate IsInactive() {
      Inactive2?
    }
  }

  datatype MultipleQueryState = MultipleQueryState(
    active: Active, channelId: u256, start: u256, end: u256, sign: Signature)

  const QUERY_STATE_BYTES := 267
  const MULTIPLE_QUERY_STATE_BYTES := 162

  // Signatures

  // The byte stored for `v`: 27 plus the recovery id.
  function StoredV(v: u64): (b: byte)
    ensures 27 <= b <= 61
  {
    27 + if v == 27 then 0 else if v == 28 then 1 else if v >= 35 then (v - 1) % 2 else v
  }

  function SignBytes(sign: Signature): (b: Bytes)
    ensures |b| == 65
  {
    ToBigEndian(sign.r, 32) + ToBigEndian(sign.s, 32) + [StoredV(sign.v)]
  }

  /** Bytes missing from a short input are taken as zero. */
  function BytesToSign(bytes: Bytes): Signature {
    var b := bytes + seq(if |bytes| < 65 then 65 - |bytes| else 0, _ => 0);
    Signature(WordAt(b[0..32]), WordAt(b[32..64]), b[64])
  }

  function WordAt(b: Bytes): u256
    requires |b| == 32
  {
    BigEndianEncodes(b);
    WordSizes();
    FromBigEndian(b)
  }

  function Normalised(sign: Signature): Signature {
    sign.(v := StoredV(sign.v))
  }

  // The values of `v` that denote a recovery id: 0 and 1, 27 and 28, and the
  // form of EIP-155, which starts at 35.
  predicate StandardV(v: u64) {
    v in {0, 1, 27, 28} || v >= 35
  }

  function RecoveryId(v: u64): nat
    requires StandardV(v)
  {
    if v < 27 then v else if v < 35 then v - 27 else (v - 35) % 2
  }

  lemma SignParts(sign: Signature)
    ensures var b := SignBytes(sign);
      && b[0..32] == ToBigEndian(sign.r, 32) && b[32..64] == ToBigEndian(sign.s, 32)
      && (StandardV(sign.v) ==> b[64] == 27 + RecoveryId(sign.v))
  {
  }

  lemma WordDecodes(n: u256)
    ensures |ToBigEndian(n, 32)| == 32 && WordAt(ToBigEndian(n, 32)) == n
  {
    WordSizes();
    BigEndianDecodes(n, 32);
  }

  lemma WordEncodes(b: Bytes)
    requires |b| == 32
    ensures ToBigEndian(WordAt(b), 32) == b
  {
    BigEndianEncodes(b);
  }

  lemma SignDecodes(sign: Signature)
    ensures BytesToSign(SignBytes(sign)) == Normalised(sign)
  {
    var b := SignBytes(sign);
    assert b + seq(0, _ => 0) == b;
    assert b[0..32] == ToBigEndian(sign.r, 32) && b[32..64] == ToBigEndian(sign.s, 32);
    WordDecodes(sign.r);
    WordDecodes(sign.s);
  }

  lemma SignEncodes(b: Bytes)
    requires |b| == 65
    ensures SignBytes(BytesToSign(b)) == b[..64] + [StoredV(b[64])]
  {
    assert b + seq(0, _ => 0) == b;
    WordEncodes(b[0..32]);
    WordEncodes(b[32..64]);
    assert b[..64] == b[0..32] + b[32..64];
  }

  /** Normalising keeps the recovery id of every standard `v`, and normalising once
      more changes nothing exactly for those values. */
  lemma NormalisationIsStable(v: u64)
    ensures StandardV(v) ==> StandardV(StoredV(v)) && RecoveryId(StoredV(v)) == RecoveryId(v)
    ensures StoredV(StoredV(v)) == StoredV(v) <==> StandardV(v)
    ensures StoredV(v) == v <==> v in {27, 28}
  {
  }

  lemma NormalisedSignBytes(sign: Signature)
    ensures SignBytes(Normalised(sign)) == SignBytes(sign) <==> StandardV(sign.v)
  {
    NormalisationIsStable(sign.v);
    assert SignBytes(sign)[64] == StoredV(sign.v);
    assert SignBytes(Normalised(sign))[64] == StoredV(StoredV(sign.v));
  }

  // Query states of the single mode

  function QueryHead(q: QueryState): (b: Bytes)
    ensures |b| == 137
  {
    ToBigEndian(q.channelId, 32) + q.indexer + q.consumer
    + ToBigEndian(q.spent, 32) + ToBigEndian(q.remote, 32) + [if q.isFinal then 1 else 0]
  }

  function QueryLayout(q: QueryState): (b: Bytes)
    ensures |b| == QUERY_STATE_BYTES
  {
    QueryHead(q) + SignBytes(q.indexerSign) + SignBytes(q.consumerSign)
  }

  function QueryFromBytes(raw: Bytes): QueryState
    requires |raw| == QUERY_STATE_BYTES
  {
    QueryState(WordAt(raw[0..32]), raw[32..52], raw[52..72], WordAt(raw[72..104]), WordAt(raw[104..136]),
               raw[136] != 0, BytesToSign(raw[137..202]), BytesToSign(raw[202..267]))
  }

  function QueryToBs64(q: QueryState): string {
    Base64.Encode(QueryLayout(q))
  }

  function QueryFromBs64(params: string): Result<QueryState> {
    var raw := Base64.Decode(params);
    if raw.None? || |raw.value| != QUERY_STATE_BYTES then Err(Serialize(1116))
    else Ok(QueryFromBytes(raw.value))
  }

  lemma QueryLayoutParts(q: QueryState)
    ensures var raw := QueryLayout(q);
      && raw[0..32] == ToBigEndian(q.channelId, 32)
      && raw[32..52] == q.indexer && raw[52..72] == q.consumer
      && raw[72..104] == ToBigEndian(q.spent, 32) && raw[104..136] == ToBigEndian(q.remote, 32)
      && raw[136] == (if q.isFinal then 1 else 0)
      && raw[137..202] == SignBytes(q.indexerSign) && raw[202..267] == SignBytes(q.consumerSign)
  {
  }

  /** Decoding an encoded state gives the state back with both `v` normalised. */
  lemma QueryRoundTrip(q: QueryState)
    ensures QueryFromBs64(QueryToBs64(q))
         == Ok(q.(indexerSign := Normalised(q.indexerSign), consumerSign := Normalised(q.consumerSign)))
  {
    Base64.DecodeAfterEncode(QueryLayout(q));
    QueryBytesDecode(q);
  }

  lemma QueryBytesDecode(q: QueryState)
    ensures QueryFromBytes(QueryLayout(q))
         == q.(indexerSign := Normalised(q.indexerSign), consumerSign := Normalised(q.consumerSign))
  {
    QueryLayoutParts(q);
    WordDecodes(q.channelId);
    WordDecodes(q.spent);
    WordDecodes(q.remote);
    SignDecodes(q.indexerSign);
    SignDecodes(q.consumerSign);
  }

  /** A second encoding yields the same text exactly when both `v` are standard. */
  lemma QueryReencodes(q: QueryState)
    ensures var again := QueryFromBs64(QueryToBs64(q));
      && again.Ok?
      && (QueryToBs64(again.value) == QueryToBs64(q)
          <==> StandardV(q.indexerSign.v) && StandardV(q.consumerSign.v))
  {
    QueryRoundTrip(q);
    var q' := q.(indexerSign := Normalised(q.indexerSign), consumerSign := Normalised(q.consumerSign));
    Base64.EncodeInjective(QueryLayout(q'), QueryLayout(q));
    NormalisedSignBytes(q.indexerSign);
    NormalisedSignBytes(q.consumerSign);
    QueryLayoutParts(q);
    QueryLayoutParts(q');
  }

  // Query states of the multiple mode

  function ActiveToByte(a: Active): byte {
    match a
    case Active => 0
    case Inactive1 => 1
    case Inactive2 => 2
  }

  function ActiveFromByte(b: byte): (a: Active)
    ensures ActiveToByte(a) == b <==> b <= 2
  {
    if b == 0 then Active else if b == 1 then Inactive1 else Inactive2
  }

  function MultipleLayout(m: MultipleQueryState): (b: Bytes)
    ensures |b| == MULTIPLE_QUERY_STATE_BYTES
  {
    [ActiveToByte(m.active)] + ToBigEndian(m.channelId, 32) + ToBigEndian(m.start, 32)
    + ToBigEndian(m.end, 32) + SignBytes(m.sign)
  }

  function MultipleFromBytes(raw: Bytes): MultipleQueryState
    requires |raw| == MULTIPLE_QUERY_STATE_BYTES
  {
    MultipleQueryState(ActiveFromByte(raw[0]), WordAt(raw[1..33]), WordAt(raw[33..65]), WordAt(raw[65..97]),
                       BytesToSign(raw[97..]))
  }

  function MultipleToBs64(m: MultipleQueryState): string {
    Base64.Encode(MultipleLayout(m))
  }

  function MultipleFromBs64(params: string): Result<MultipleQueryState> {
    var raw := Base64.Decode(params);
    if raw.None? || |raw.value| != MULTIPLE_QUERY_STATE_BYTES then Err(Serialize(1116))
    else Ok(MultipleFromBytes(raw.value))
  }

  lemma MultipleLayoutParts(m: MultipleQueryState)
    ensures var raw := MultipleLayout(m);
      && raw[0] == (if m.active.Active? then 0 else if m.active.Inactive1? then 1 else 2)
      && raw[1..33] == ToBigEndian(m.channelId, 32) && raw[33..65] == ToBigEndian(m.start, 32)
      && raw[65..97] == ToBigEndian(m.end, 32) && raw[97..] == SignBytes(m.sign)
  {
  }

  /** Decoding an encoded state gives the state back with `v` normalised. */
  lemma MultipleRoundTrip(m: MultipleQueryState)
    ensures MultipleFromBs64(MultipleToBs64(m)) == Ok(m.(sign := Normalised(m.sign)))
  {
    Base64.DecodeAfterEncode(MultipleLayout(m));
    MultipleBytesDecode(m);
  }

  lemma MultipleBytesDecode(m: MultipleQueryState)
    ensures MultipleFromBytes(MultipleLayout(m)) == m.(sign := Normalised(m.sign))
  {
    MultipleLayoutParts(m);
    WordDecodes(m.channelId);
    WordDecodes(m.start);
    WordDecodes(m.end);
    SignDecodes(m.sign);
  }

  lemma MultipleReencodes(m: MultipleQueryState)
    ensures var again := MultipleFromBs64(MultipleToBs64(m));
      && again.Ok?
      && (MultipleToBs64(again.value) == MultipleToBs64(m) <==> StandardV(m.sign.v))
  {
    MultipleRoundTrip(m);
    var m' := m.(sign := Normalised(m.sign));
    Base64.EncodeInjective(MultipleLayout(m'), MultipleLayout(m));
    NormalisedSignBytes(m.sign);
    MultipleLayoutParts(m);
    MultipleLayoutParts(m');
  }

  /** The accepted texts are those of 267 and of 162 bytes; any other is one error. */
  lemma TextsOfTheRightLength(params: string)
    ensures QueryFromBs64(params).Ok? <==> exists raw :: |raw| == 267 && Base64.Encode(raw) == params
    ensures MultipleFromBs64(params).Ok? <==> exists raw :: |raw| == 162 && Base64.Encode(raw) == params
    ensures QueryFromBs64(params).Err? ==> QueryFromBs64(params) == Err(Serialize(1116))
    ensures MultipleFromBs64(params).Err? ==> MultipleFromBs64(params) == Err(Serialize(1116))
  {
    if Base64.Decode(params).Some? {
      Base64.EncodeAfterDecode(params);
    }
    forall raw | Base64.Encode(raw) == params ensures Base64.Decode(params) == Some(raw) {
      Base64.DecodeAfterEncode(raw);
    }
  }

  /** Exactly the texts a well-formed encoder would have written survive being decoded
      and encoded again: a known activity byte and a `v` of 27 or 28. */
  lemma MultipleTextIsCanonical(params: string)
    requires MultipleFromBs64(params).Ok?
    ensures var raw := Base64.Decode(params).value;
      MultipleToBs64(MultipleFromBs64(params).value) == params <==> raw[0] <= 2 && raw[161] in {27, 28}
  {
    var raw := Base64.Decode(params).value;
    var m := MultipleFromBytes(raw);
    Base64.EncodeAfterDecode(params);
    Base64.EncodeInjective(MultipleLayout(m), raw);
    MultipleLayoutOfDecoded(raw);
    NormalisationIsStable(raw[161]);
  }

  lemma MultipleLayoutOfDecoded(raw: Bytes)
    requires |raw| == MULTIPLE_QUERY_STATE_BYTES
    ensures MultipleLayout(MultipleFromBytes(raw))
         == raw[0 := ActiveToByte(ActiveFromByte(raw[0]))][161 := StoredV(raw[161])]
  {
    WordEncodes(raw[1..33]);
    WordEncodes(raw[33..65]);
    WordEncodes(raw[65..97]);
    SignEncodes(raw[97..]);
  }

  /** The same for the single mode: the final flag is 0 or 1 and both `v` are 27 or 28. */
  lemma QueryTextIsCanonical(params: string)
    requires QueryFromBs64(params).Ok?
    ensures var raw := Base64.Decode(params).value;
      QueryToBs64(QueryFromBs64(params).value) == params
      <==> raw[136] <= 1 && raw[201] in {27, 28} && raw[266] in {27, 28}
  {
    var raw := Base64.Decode(params).value;
    Base64.EncodeAfterDecode(params);
    Base64.EncodeInjective(QueryLayout(QueryFromBytes(raw)), raw);
    QueryBytesCanonical(raw);
  }

  lemma QueryBytesCanonical(raw: Bytes)
    requires |raw| == QUERY_STATE_BYTES
    ensures QueryLayout(QueryFromBytes(raw)) == raw
       <==> raw[136] <= 1 && raw[201] in {27, 28} && raw[266] in {27, 28}
  {
    QueryLayoutOfDecoded(raw);
    ThreeUpdates(raw, 136, if raw[136] != 0 then 1 else 0, 201, StoredV(raw[201]), 266, StoredV(raw[266]));
    NormalisationIsStable(raw[201]);
    NormalisationIsStable(raw[266]);
  }

  lemma ThreeUpdates(s: Bytes, i: nat, x: byte, j: nat, y: byte, k: nat, z: byte)
    requires i < j < k < |s|
    ensures s[i := x][j := y][k := z] == s <==> s[i] == x && s[j] == y && s[k] == z
  {
  }

  lemma QueryHeadOfDecoded(raw: Bytes)
    requires |raw| == QUERY_STATE_BYTES
    ensures QueryHead(QueryFromBytes(raw)) == raw[..137][136 := if raw[136] != 0 then 1 else 0]
  {
    WordEncodes(raw[0..32]);
    WordEncodes(raw[72..104]);
    WordEncodes(raw[104..136]);
  }

  lemma SignOfSlice(raw: Bytes, at: nat)
    requires at + 65 <= |raw|
    ensures SignBytes(BytesToSign(raw[at..at + 65])) == raw[at..at + 64] + [StoredV(raw[at + 64])]
  {
    var b := raw[at..at + 65];
    SignEncodes(b);
    assert b[..64] == raw[at..at + 64];
  }

  lemma UpdatedParts(raw: Bytes, x: byte, y: byte, z: byte)
    requires |raw| == 267
    ensures raw[..137][136 := x] + (raw[137..201] + [y]) + (raw[202..266] + [z])
         == raw[136 := x][201 := y][266 := z]
  {
  }

  lemma QueryLayoutOfDecoded(raw: Bytes)
    requires |raw| == QUERY_STATE_BYTES
    ensures QueryLayout(QueryFromBytes(raw))
         == raw[136 := if raw[136] != 0 then 1 else 0][201 := StoredV(raw[201])][266 := StoredV(raw[266])]
  {
    QueryHeadOfDecoded(raw);
    SignOfSlice(raw, 137);
    SignOfSlice(raw, 202);
    UpdatedParts(raw, if raw[136] != 0 then 1 else 0, StoredV(raw[201]), StoredV(raw[266]));
  }

  // The encoders fill a buffer of fixed size

  method CopyFromSlice(buffer: array<byte>, at: nat, source: Bytes)
    requires at + |source| <= buffer.Length
    modifies buffer
    ensures buffer[..at + |source|] == old(buffer[..at]) + source
  {
    for i := 0 to |source|
      invariant buffer[..at + i] == old(buffer[..at]) + source[..i]
    {
      buffer[at + i] := source[i];
    }
  }

  method ConvertSignToBytes(sign: Signature) returns (bytes: array<byte>)
    ensures fresh(bytes)
    ensures bytes[..] == SignBytes(sign)
  {
    bytes := new byte[65](_ => 0);
    CopyFromSlice(bytes, 0, ToBigEndian(sign.r, 32));
    CopyFromSlice(bytes, 32, ToBigEndian(sign.s, 32));
    var recoveryId: byte;
    if sign.v == 27 {
      recoveryId := 0;
    } else if sign.v == 28 {
      recoveryId := 1;
    } else if sign.v >= 35 {
      recoveryId := (sign.v - 1) % 2;
    } else {
      recoveryId := sign.v;
    }
    recoveryId := recoveryId + 27;
    bytes[64] := recoveryId;
    assert bytes[..] == bytes[..64] + [bytes[64]];
  }

  method EncodeQuery(q: QueryState) returns (text: string)
    ensures text == QueryToBs64(q)
  {
    var bytes := new byte[QUERY_STATE_BYTES](_ => 0);
    FillIdentity(bytes, q);
    CopyFromSlice(bytes, 72, ToBigEndian(q.spent, 32));
    CopyFromSlice(bytes, 104, ToBigEndian(q.remote, 32));
    CopyFromSlice(bytes, 136, [if q.isFinal then 1 else 0]);
    var indexerSign := ConvertSignToBytes(q.indexerSign);
    CopyFromSlice(bytes, 137, indexerSign[..]);
    var consumerSign := ConvertSignToBytes(q.consumerSign);
    CopyFromSlice(bytes, 202, consumerSign[..]);
    assert bytes[..267] == bytes[..];
    text := Base64.Encode(bytes[..]);
  }

  method FillIdentity(bytes: array<byte>, q: QueryState)
    requires bytes.Length == QUERY_STATE_BYTES
    modifies bytes
    ensures bytes[..72] == ToBigEndian(q.channelId, 32) + q.indexer + q.consumer
  {
    assert bytes[..0] + ToBigEndian(q.channelId, 32) == ToBigEndian(q.channelId, 32);
    CopyFromSlice(bytes, 0, ToBigEndian(q.channelId, 32));
    CopyFromSlice(bytes, 32, q.indexer);
    CopyFromSlice(bytes, 52, q.consumer);
  }

  method EncodeMultiple(m: MultipleQueryState) returns (text: string)
    ensures text == MultipleToBs64(m)
  {
    var bytes := new byte[MULTIPLE_QUERY_STATE_BYTES](_ => 0);
    bytes[0] := ActiveToByte(m.active);
    assert bytes[..1] == [ActiveToByte(m.active)];
    CopyFromSlice(bytes, 1, ToBigEndian(m.channelId, 32));
    CopyFromSlice(bytes, 33, ToBigEndian(m.start, 32));
    CopyFromSlice(bytes, 65, ToBigEndian(m.end, 32));
    var sign := ConvertSignToBytes(m.sign);
    CopyFromSlice(bytes, 97, sign[..]);
    assert bytes[..162] == bytes[..];
    text := Base64.Encode(bytes[..]);
  }
}
