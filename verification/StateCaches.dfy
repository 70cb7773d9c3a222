/** The per-channel record the proxy keeps in Redis, and its byte layout. */
module StateCaches {
  import opened Outcomes
  import opened Words
  import opened Encoding
  import opened SignedStates

  type Hash = b: Bytes | |b| == 32 witness seq(32, _ => 0)

  /** Who may sign for a channel: a real account, or a consumer host service. */
  datatype ConsumerType = Account(signers: seq<Address>) | Host(signers: seq<Address>) {
    predicate IsEmpty() {
      signers == []
    }

    predicate Contains(s: Address) {
      s in signers
    }
  }

  datatype StateCache = StateCache(
    expiration: i64, agent: Address, deployment: Hash, price: u256, total: u256, spent: u256,
    remote: u256, coordi: u256, conflictStart: i64, conflictTimes: u64, signer: ConsumerType)

  const CURRENT_VERSION: byte := 3
  const HEADER_BYTES := 237
  const MAX_SIGNERS := 255

  // What survives being stored: at most 255 signers.
  function Stored(cache: StateCache): StateCache {
    cache.(signer := Kept(cache.signer))
  }

  function Kept(c: ConsumerType): ConsumerType {
    if |c.signers| <= MAX_SIGNERS then c else c.(signers := c.signers[..MAX_SIGNERS])
  }

  // Consumers

  function Flatten(signers: seq<Address>): (b: Bytes)
    ensures |b| == 20 * |signers|
  {
    if signers == [] then [] else Flatten(signers[..|signers| - 1]) + signers[|signers| - 1]
  }

  function ConsumerBytes(c: ConsumerType): Bytes {
    [if c.Host? then 1 else 0, |Kept(c).signers|] + Flatten(Kept(c).signers)
  }

  function Chunks(a: Bytes, num: nat): (signers: seq<Address>)
    requires 20 * num <= |a|
    ensures |signers| == num
  {
    if num == 0 then [] else Chunks(a, num - 1) + [a[20 * (num - 1)..20 * num]]
  }

  // A tail of one byte after the count is ignored, and so is the count before it.
  function ConsumerFromBytes(b: Bytes): Result<ConsumerType> {
    if |b| < 2 then Err(Serialize(1136))
    else if |b| > 3 && |b| - 2 < 20 * (b[1] as int) then Err(Serialize(1136))
    else
      var signers := if |b| > 3 then Chunks(b[2..], b[1]) else [];
      Ok(if b[0] == 1 then Host(signers) else Account(signers))
  }

  lemma {:induction false} ChunksOfFlattened(signers: seq<Address>, rest: Bytes)
    ensures Chunks(Flatten(signers) + rest, |signers|) == signers
  {
    if signers != [] {
      var n := |signers| - 1;
      var whole := Flatten(signers) + rest;
      assert whole == Flatten(signers[..n]) + (signers[n] + rest);
      ChunksOfFlattened(signers[..n], signers[n] + rest);
      assert whole[20 * n..20 * (n + 1)] == signers[n];
      assert signers == signers[..n] + [signers[n]];
    }
  }

  lemma {:induction false} FlattenAt(signers: seq<Address>, i: nat)
    requires i < |signers|
    ensures Flatten(signers)[20 * i..20 * i + 20] == signers[i]
  {
    var n := |signers| - 1;
    if i < n {
      FlattenAt(signers[..n], i);
      assert Flatten(signers)[20 * i..20 * i + 20] == Flatten(signers[..n])[20 * i..20 * i + 20];
    }
  }

  /** Where a consumer's bytes are: the kind, the count of at most 255, and the counted
      signers one after the other. */
  lemma ConsumerParts(c: ConsumerType, i: nat)
    ensures var b, n := ConsumerBytes(c), if |c.signers| <= 255 then |c.signers| else 255;
      && |b| == 2 + 20 * n && b[0] == (if c.Host? then 1 else 0) && b[1] == n
      && (i < n ==> b[2 + 20 * i..22 + 20 * i] == c.signers[i])
  {
    var b, kept := ConsumerBytes(c), Kept(c).signers;
    if i < |kept| {
      FlattenAt(kept, i);
      assert b[2 + 20 * i..22 + 20 * i] == Flatten(kept)[20 * i..20 * i + 20];
    }
  }

  lemma ConsumerRoundTrip(c: ConsumerType)
    ensures ConsumerFromBytes(ConsumerBytes(c)) == Ok(Kept(c))
  {
    var signers := Kept(c).signers;
    var b := ConsumerBytes(c);
    assert b[2..] == Flatten(signers) + [];
    ChunksOfFlattened(signers, []);
  }

  method EncodeConsumer(c: ConsumerType) returns (bytes: Bytes)
    ensures bytes == ConsumerBytes(c)
  {
    bytes := [];
    match c {
      case Account(_) => bytes := bytes + [0];
      case Host(_) => bytes := bytes + [1];
    }
    var signers := c.signers;
    var num := if |signers| > 255 then 255 else |signers|;
    bytes := bytes + [num];
    ghost var head := bytes;
    for i := 0 to num
      invariant bytes == head + Flatten(signers[..i])
    {
      assert signers[..i + 1][..i] == signers[..i];
      assert head + (Flatten(signers[..i]) + signers[i]) == bytes + signers[i];
      bytes := bytes + signers[i];
    }
    assert signers[..num] == Kept(c).signers;
  }

  method DecodeConsumer(bytes: Bytes) returns (r: Result<ConsumerType>)
    ensures r == ConsumerFromBytes(bytes)
  {
    if |bytes| < 2 {
      return Err(Serialize(1136));
    }
    var num := bytes[1];
    var signers: seq<Address> := [];
    if |bytes| > 3 {
      var rest := bytes[2..];
      for i := 0 to num
        invariant 20 * i <= |rest|
        invariant signers == Chunks(rest, i)
      {
        if |rest| < 20 * (i + 1) {
          return Err(Serialize(1136));
        }
        signers := signers + [rest[20 * i..20 * (i + 1)]];
      }
    }
    r := Ok(if bytes[0] == 1 then Host(signers) else Account(signers));
  }

  // Caches

  function IdentityBytes(s: StateCache): (b: Bytes)
    ensures |b| == 61
  {
    [CURRENT_VERSION] + ToLittleEndian(TwosComplement(s.expiration), 8) + s.agent + s.deployment
  }

  function AmountBytes(s: StateCache): (b: Bytes)
    ensures |b| == 160
  {
    ToLittleEndian(s.price, 32) + ToLittleEndian(s.total, 32) + ToLittleEndian(s.spent, 32)
    + ToLittleEndian(s.remote, 32) + ToLittleEndian(s.coordi, 32)
  }

  function ConflictBytes(s: StateCache): (b: Bytes)
    ensures |b| == 16
  {
    ToLittleEndian(TwosComplement(s.conflictStart), 8) + ToLittleEndian(s.conflictTimes, 8)
  }

  function HeaderBytes(s: StateCache): (b: Bytes)
    ensures |b| == HEADER_BYTES
  {
    IdentityBytes(s) + AmountBytes(s) + ConflictBytes(s)
  }

  function ToBytes(s: StateCache): Bytes {
    HeaderBytes(s) + ConsumerBytes(s.signer)
  }

  function U64At(b: Bytes): u64
    requires |b| == 8
  {
    LittleEndianEncodes(b);
    WordSizes();
    FromLittleEndian(b)
  }

  function U256At(b: Bytes): u256
    requires |b| == 32
  {
    LittleEndianEncodes(b);
    WordSizes();
    FromLittleEndian(b)
  }

  function FromHeader(b: Bytes, signer: ConsumerType): StateCache
    requires |b| >= HEADER_BYTES
  {
    StateCache(FromTwosComplement(U64At(b[1..9])), b[9..29], b[29..61], U256At(b[61..93]), U256At(b[93..125]),
               U256At(b[125..157]), U256At(b[157..189]), U256At(b[189..221]),
               FromTwosComplement(U64At(b[221..229])), U64At(b[229..237]), signer)
  }

  function FromBytes(b: Bytes): Result<StateCache> {
    if b == [] then Err(Panic)
    else if b[0] != CURRENT_VERSION || |b| < HEADER_BYTES then Err(Serialize(1136))
    else
      var signer :- ConsumerFromBytes(b[HEADER_BYTES..]);
      Ok(FromHeader(b, signer))
  }

  lemma HeaderParts(s: StateCache)
    ensures var b := HeaderBytes(s);
      && b[0] == 3 && b[1..9] == ToLittleEndian(TwosComplement(s.expiration), 8)
      && b[9..29] == s.agent && b[29..61] == s.deployment
      && b[61..93] == ToLittleEndian(s.price, 32) && b[93..125] == ToLittleEndian(s.total, 32)
      && b[125..157] == ToLittleEndian(s.spent, 32) && b[157..189] == ToLittleEndian(s.remote, 32)
      && b[189..221] == ToLittleEndian(s.coordi, 32)
      && b[221..229] == ToLittleEndian(TwosComplement(s.conflictStart), 8)
      && b[229..237] == ToLittleEndian(s.conflictTimes, 8)
  {
    var b := HeaderBytes(s);
    assert b[..61] == IdentityBytes(s) && b[61..221] == AmountBytes(s) && b[221..] == ConflictBytes(s);
    IdentityParts(s);
    Subslice(b, 0, 61, 1, 9);
    Subslice(b, 0, 61, 9, 29);
    Subslice(b, 0, 61, 29, 61);
    Subslice(b, 221, 237, 0, 8);
    Subslice(b, 221, 237, 8, 16);
    AmountParts(s);
    Subslice(b, 61, 221, 0, 32);
    Subslice(b, 61, 221, 32, 64);
    Subslice(b, 61, 221, 64, 96);
    Subslice(b, 61, 221, 96, 128);
    Subslice(b, 61, 221, 128, 160);
  }

  lemma IdentityParts(s: StateCache)
    ensures var b := IdentityBytes(s);
      b[1..9] == ToLittleEndian(TwosComplement(s.expiration), 8) && b[9..29] == s.agent && b[29..61] == s.deployment
  {
  }

  lemma AmountParts(s: StateCache)
    ensures var b := AmountBytes(s);
      && b[0..32] == ToLittleEndian(s.price, 32) && b[32..64] == ToLittleEndian(s.total, 32)
      && b[64..96] == ToLittleEndian(s.spent, 32) && b[96..128] == ToLittleEndian(s.remote, 32)
      && b[128..160] == ToLittleEndian(s.coordi, 32)
  {
  }

  lemma Subslice(b: Bytes, lo: nat, hi: nat, i: nat, j: nat)
    requires lo <= hi <= |b| && i <= j <= hi - lo
    ensures b[lo..hi][i..j] == b[lo + i..lo + j]
  {
    var x, y := b[lo..hi][i..j], b[lo + i..lo + j];
    assert |x| == |y|;
    forall k | 0 <= k < |x| ensures x[k] == y[k] {
      assert x[k] == b[lo..hi][i + k];
    }
  }

  lemma U64Decodes(n: u64)
    ensures U64At(ToLittleEndian(n, 8)) == n
  {
    WordSizes();
    LittleEndianDecodes(n, 8);
  }

  lemma U256Decodes(n: u256)
    ensures U256At(ToLittleEndian(n, 32)) == n
  {
    WordSizes();
    LittleEndianDecodes(n, 32);
  }

  lemma HeaderDecodes(s: StateCache, signer: ConsumerType)
    ensures FromHeader(HeaderBytes(s), signer) == s.(signer := signer)
  {
    HeaderParts(s);
    U64Decodes(TwosComplement(s.expiration));
    U64Decodes(TwosComplement(s.conflictStart));
    U64Decodes(s.conflictTimes);
    U256Decodes(s.price);
    U256Decodes(s.total);
    U256Decodes(s.spent);
    U256Decodes(s.remote);
    U256Decodes(s.coordi);
  }

  lemma HeaderPrefix(b: Bytes, signer: ConsumerType)
    requires |b| >= HEADER_BYTES
    ensures FromHeader(b, signer) == FromHeader(b[..HEADER_BYTES], signer)
  {
    var h := b[..HEADER_BYTES];
    assert b[1..9] == h[1..9] && b[9..29] == h[9..29] && b[29..61] == h[29..61] && b[61..93] == h[61..93];
    assert b[93..125] == h[93..125] && b[125..157] == h[125..157] && b[157..189] == h[157..189];
    assert b[189..221] == h[189..221] && b[221..229] == h[221..229] && b[229..237] == h[229..237];
  }

  /** A stored cache is read back as it was written, with at most its first 255 signers. */
  lemma CacheRoundTrip(s: StateCache)
    ensures FromBytes(ToBytes(s)) == Ok(Stored(s))
    ensures |s.signer.signers| <= 255 ==> FromBytes(ToBytes(s)) == Ok(s)
  {
    var b := ToBytes(s);
    assert b[..HEADER_BYTES] == HeaderBytes(s) && b[HEADER_BYTES..] == ConsumerBytes(s.signer);
    assert b[0] == HeaderBytes(s)[0];
    ConsumerRoundTrip(s.signer);
    HeaderPrefix(b, Kept(s.signer));
    HeaderDecodes(s, Kept(s.signer));
  }

  /** Which byte strings decode: the right version, room for the header and the consumer
      kind, and room for as many signers as announced unless at most one byte follows the
      count. The empty string alone aborts. */
  lemma DecodingIsTotal(b: Bytes)
    ensures FromBytes(b) == Err(Panic) <==> b == []
    ensures FromBytes(b).Ok? <==>
      && |b| >= 239
      && b[0] == 3
      && (|b| <= 240 || |b| >= 239 + 20 * (b[238] as int))
    ensures b != [] && FromBytes(b).Err? ==> FromBytes(b) == Err(Serialize(1136))
  {
  }

  // Encoding what was decoded

  lemma {:induction false} FlattenChunks(a: Bytes, num: nat)
    requires 20 * num <= |a|
    ensures Flatten(Chunks(a, num)) == a[..20 * num]
  {
    if num > 0 {
      var signers := Chunks(a, num);
      assert signers[..num - 1] == Chunks(a, num - 1);
      FlattenChunks(a, num - 1);
      assert a[..20 * num] == a[..20 * (num - 1)] + a[20 * (num - 1)..20 * num];
    }
  }

  lemma WordReencodes(b: Bytes)
    ensures |b| == 8 ==> ToLittleEndian(U64At(b), 8) == b
    ensures |b| == 32 ==> ToLittleEndian(U256At(b), 32) == b
  {
    LittleEndianEncodes(b);
  }

  lemma IdentityReencodes(b: Bytes, signer: ConsumerType)
    requires |b| >= HEADER_BYTES && b[0] == 3
    ensures IdentityBytes(FromHeader(b, signer)) == b[..61]
  {
    WordReencodes(b[1..9]);
    assert b[..61] == [b[0]] + b[1..9] + b[9..29] + b[29..61];
  }

  lemma FiveWords(v: Bytes, w: Bytes, x: Bytes, y: Bytes, z: Bytes)
    requires |v| == |w| == |x| == |y| == |z| == 32
    ensures ToLittleEndian(U256At(v), 32) + ToLittleEndian(U256At(w), 32) + ToLittleEndian(U256At(x), 32)
            + ToLittleEndian(U256At(y), 32) + ToLittleEndian(U256At(z), 32)
         == v + w + x + y + z
  {
    WordReencodes(v);
    WordReencodes(w);
    WordReencodes(x);
    WordReencodes(y);
    WordReencodes(z);
  }

  lemma FiveSlices(b: Bytes)
    requires |b| >= 221
    ensures b[61..93] + b[93..125] + b[125..157] + b[157..189] + b[189..221] == b[61..221]
  {
  }

  lemma AmountsReencode(b: Bytes, signer: ConsumerType)
    requires |b| >= HEADER_BYTES
    ensures AmountBytes(FromHeader(b, signer)) == b[61..221]
  {
    FiveWords(b[61..93], b[93..125], b[125..157], b[157..189], b[189..221]);
    FiveSlices(b);
  }

  lemma ConflictsReencode(b: Bytes, signer: ConsumerType)
    requires |b| >= HEADER_BYTES
    ensures ConflictBytes(FromHeader(b, signer)) == b[221..237]
  {
    WordReencodes(b[221..229]);
    WordReencodes(b[229..237]);
    assert b[221..237] == b[221..229] + b[229..237];
  }

  lemma HeaderReencodes(b: Bytes, signer: ConsumerType)
    requires |b| >= HEADER_BYTES && b[0] == 3
    ensures HeaderBytes(FromHeader(b, signer)) == b[..HEADER_BYTES]
  {
    IdentityReencodes(b, signer);
    AmountsReencode(b, signer);
    ConflictsReencode(b, signer);
    assert b[..HEADER_BYTES] == b[..61] + b[61..221] + b[221..237];
  }

  lemma FullConsumerDecodes(b: Bytes, n: byte)
    requires |b| >= 2 && b[1] == n && |b| == 2 + 20 * (n as int)
    ensures ConsumerFromBytes(b).Ok?
    ensures ConsumerFromBytes(b).value.signers == Chunks(b[2..], n)
    ensures ConsumerFromBytes(b).value.Host? <==> b[0] == 1
  {
    assert n == 0 ==> |b| == 2;
  }

  lemma ShortConsumerBytes(c: ConsumerType)
    requires |c.signers| <= 255
    ensures ConsumerBytes(c) == [if c.Host? then 1 else 0, |c.signers|] + Flatten(c.signers)
  {
  }

  lemma FullConsumerReencodes(b: Bytes, n: byte)
    requires |b| >= 2 && b[0] <= 1 && b[1] == n && |b| == 2 + 20 * (n as int)
    ensures ConsumerFromBytes(b).Ok? && ConsumerBytes(ConsumerFromBytes(b).value) == b
  {
    FullConsumerDecodes(b, n);
    FlattenChunks(b[2..], n);
    ShortConsumerBytes(ConsumerFromBytes(b).value);
    assert b[2..][..20 * (n as int)] == b[2..];
    assert b == [b[0], n] + b[2..];
  }

  lemma ConsumerReencodes(b: Bytes)
    requires ConsumerFromBytes(b).Ok?
    ensures ConsumerBytes(ConsumerFromBytes(b).value) == b <==> b[0] <= 1 && |b| == 2 + 20 * (b[1] as int)
  {
    ConsumerParts(ConsumerFromBytes(b).value, 0);
    if b[0] <= 1 && |b| == 2 + 20 * (b[1] as int) {
      FullConsumerReencodes(b, b[1]);
    }
  }

  /** Exactly the records a well-formed encoder would have written survive being decoded and
      encoded again: a known consumer kind, and room for just the announced signers. */
  lemma CacheReencodes(b: Bytes)
    requires FromBytes(b).Ok?
    ensures ToBytes(FromBytes(b).value) == b <==> b[237] <= 1 && |b| == 239 + 20 * (b[238] as int)
  {
    var tail := b[HEADER_BYTES..];
    var s := FromBytes(b).value;
    HeaderReencodes(b, s.signer);
    ConsumerReencodes(tail);
    assert b == b[..HEADER_BYTES] + tail;
    assert ToBytes(s)[HEADER_BYTES..] == ConsumerBytes(s.signer);
  }

  method EncodeCache(s: StateCache) returns (bytes: Bytes)
    ensures bytes == ToBytes(s)
  {
    bytes := [CURRENT_VERSION];
    bytes := bytes + ToLittleEndian(TwosComplement(s.expiration), 8);
    bytes := bytes + s.agent;
    bytes := bytes + s.deployment;
    assert bytes == IdentityBytes(s);
    bytes := bytes + ToLittleEndian(s.price, 32);
    bytes := bytes + ToLittleEndian(s.total, 32);
    bytes := bytes + ToLittleEndian(s.spent, 32);
    bytes := bytes + ToLittleEndian(s.remote, 32);
    bytes := bytes + ToLittleEndian(s.coordi, 32);
    assert bytes == IdentityBytes(s) + AmountBytes(s);
    bytes := bytes + ToLittleEndian(TwosComplement(s.conflictStart), 8);
    bytes := bytes + ToLittleEndian(s.conflictTimes, 8);
    assert bytes == HeaderBytes(s);
    var signer := EncodeConsumer(s.signer);
    bytes := bytes + signer;
  }

  // Keys

  const KEY_SUFFIX := "-channel"

  function KeyName(channelId: u256): string {
    HexEncode(ToLittleEndian(channelId, 32)) + KEY_SUFFIX
  }

  /** A key is the channel's 32 little-endian bytes in hexadecimal, and the suffix. */
  lemma KeyNameParts(channelId: u256, i: nat)
    ensures |KeyName(channelId)| == 72 && KeyName(channelId)[64..] == "-channel"
    ensures i < 32 ==>
      var digit := channelId / Pow256(i) % 256;
      KeyName(channelId)[2 * i..2 * i + 2] == ["0123456789abcdef"[digit / 16], "0123456789abcdef"[digit % 16]]
  {
    var b := ToLittleEndian(channelId, 32);
    assert KeyName(channelId)[64..] == KEY_SUFFIX;
    if i < 32 {
      LittleEndianDigit(channelId, 32, i);
      HexDigit(b, i);
      var pair := KeyName(channelId)[2 * i..2 * i + 2];
      assert pair == [HexEncode(b)[2 * i], HexEncode(b)[2 * i + 1]];
    }
  }

  /** Distinct channels never share a cache entry. */
  lemma KeyNameInjective(a: u256, b: u256)
    ensures KeyName(a) == KeyName(b) <==> a == b
  {
    if KeyName(a) == KeyName(b) {
      var x, y := ToLittleEndian(a, 32), ToLittleEndian(b, 32);
      assert HexEncode(x) == KeyName(a)[..64] && HexEncode(y) == KeyName(b)[..64];
      HexInjective(x, y);
      U256Decodes(a);
      U256Decodes(b);
    }
  }
}
