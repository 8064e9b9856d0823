/** Stored bridge requests as SCALE bytes (Polkadot Protocol Specification, Appendix A, SCALE
    Codec), in the current format and in the legacy one that listed signers. Each `Put` writes a
    value in front of the bytes that follow it; each `Get` reads one back and returns the rest. */
module RequestCodec {
  import opened Machine
  import opened SignatureBitmap
  import opened BridgeTypes

  type Bytes = seq<byte>

  type Parsed<T> = Option<(T, Bytes)>

  // ----- fixed-width numbers ---------------------------------------------------------------

  function Pow256(n: nat): nat {
    if n == 0 then 1 else 256 * Pow256(n - 1)
  }

  function Put(width: nat, x: nat, rest: Bytes): Bytes
    ensures |Put(width, x, rest)| == width + |rest|
  {
    if width == 0 then rest else [x % 256] + Put(width - 1, x / 256, rest)
  }

  function Get(width: nat, bytes: Bytes): Parsed<nat> {
    if width == 0 then Some((0, bytes))
    else if bytes == [] then None
    else
      var (high, rest) :- Get(width - 1, bytes[1..]);
      Some((bytes[0] + 256 * high, rest))
  }

  lemma {:induction false} PutGet(width: nat, x: nat, rest: Bytes)
    requires x < Pow256(width)
    ensures Get(width, Put(width, x, rest)) == Some((x, rest))
  {
    if width == 0 {
    } else {
      assert x / 256 < Pow256(width - 1);
      PutGet(width - 1, x / 256, rest);
      assert Put(width, x, rest)[1..] == Put(width - 1, x / 256, rest);
    }
  }

  lemma FourBytes()
    ensures Pow256(4) == U32_MAX + 1
  {
    assert Pow256(2) == 256 * Pow256(1) == 256 * 256;
    assert Pow256(4) == 256 * (256 * Pow256(2));
  }

  lemma Widths()
    ensures Pow256(1) == U8_MAX + 1 && Pow256(2) == 0x1_0000 && Pow256(4) == U32_MAX + 1
    ensures Pow256(8) == U64_MAX + 1 && Pow256(16) == U128_MAX + 1 && Pow256(32) == ACCOUNTS
  {
    assert Pow256(4) == 256 * 256 * Pow256(2);
    assert Pow256(6) == 256 * 256 * Pow256(4);
    assert Pow256(8) == 256 * 256 * Pow256(6);
    assert Pow256(10) == 256 * 256 * Pow256(8);
    assert Pow256(12) == 256 * 256 * Pow256(10);
    assert Pow256(14) == 256 * 256 * Pow256(12);
    assert Pow256(16) == 256 * 256 * Pow256(14);
    assert Pow256(18) == 256 * 256 * Pow256(16);
    assert Pow256(20) == 256 * 256 * Pow256(18);
    assert Pow256(22) == 256 * 256 * Pow256(20);
    assert Pow256(24) == 256 * 256 * Pow256(22);
    assert Pow256(26) == 256 * 256 * Pow256(24);
    assert Pow256(28) == 256 * 256 * Pow256(26);
    assert Pow256(30) == 256 * 256 * Pow256(28);
  }

  /** A number that must fit the given maximum, as the typed readers demand. */
  function GetUpTo(width: nat, max: nat, bytes: Bytes): (r: Parsed<nat>)
    ensures r.Some? ==> r.value.0 <= max
  {
    var (x, rest) :- Get(width, bytes);
    if x <= max then Some((x, rest)) else None
  }

  // ----- compact lengths -------------------------------------------------------------------

  function PutCompact(n: nat, rest: Bytes): Bytes {
    if n < 0x40 then Put(1, 4 * n, rest)
    else if n < 0x4000 then Put(2, 4 * n + 1, rest)
    else if n < 0x4000_0000 then Put(4, 4 * n + 2, rest)
    else [3] + Put(4, n, rest)
  }

  /** Only the shortest form of a length is accepted. */
  function GetCompact(bytes: Bytes): Parsed<nat> {
    if bytes == [] then None
    else
      match bytes[0] % 4
      case 0 => Some((bytes[0] / 4, bytes[1..]))
      case 1 =>
        var (x, rest) :- Get(2, bytes);
        if x / 4 > 0x3F then Some((x / 4, rest)) else None
      case 2 =>
        var (x, rest) :- Get(4, bytes);
        if x / 4 > 0x3FFF then Some((x / 4, rest)) else None
      case _ =>
        if bytes[0] != 3 then None
        else
          var (x, rest) :- Get(4, bytes[1..]);
          if x > 0x3FFF_FFFF then Some((x, rest)) else None
  }

  /** The three modes that keep their tag in the two lowest bits. */
  lemma TaggedMode(n: nat, mode: nat, bytes: Bytes, rest: Bytes)
    requires bytes != [] && bytes[0] % 4 == mode
    requires mode == 0 ==> n < 0x40 && Get(1, bytes) == Some((4 * n, rest))
    requires mode == 1 ==> n >= 0x40 && Get(2, bytes) == Some((4 * n + 1, rest))
    requires mode == 2 ==> n >= 0x4000 && Get(4, bytes) == Some((4 * n + 2, rest))
    requires mode < 3
    ensures GetCompact(bytes) == Some((n, rest))
  {
    if mode == 0 {
      assert Get(1, bytes) == Some((bytes[0] + 256 * 0, bytes[1..]));
    }
  }

  lemma UntaggedMode(n: nat, bytes: Bytes, rest: Bytes)
    requires bytes != [] && bytes[0] == 3 && n > 0x3FFF_FFFF && Get(4, bytes[1..]) == Some((n, rest))
    ensures GetCompact(bytes) == Some((n, rest))
  {
  }

  lemma BigMode(n: u32, rest: Bytes)
    requires n >= 0x4000_0000
    ensures GetCompact([3] + Put(4, n, rest)) == Some((n, rest))
  {
    FourBytes();
    PutGet(4, n, rest);
    assert ([3] + Put(4, n, rest))[1..] == Put(4, n, rest);
    UntaggedMode(n, [3] + Put(4, n, rest), rest);
  }

  lemma TaggedRoundTrip(n: nat, mode: nat, width: nat, limit: nat, rest: Bytes)
    requires width > 0 && Pow256(width) == 4 * limit && n < limit
    requires (mode == 0 && width == 1) || (mode == 1 && width == 2 && n >= 0x40)
          || (mode == 2 && width == 4 && n >= 0x4000)
    ensures GetCompact(Put(width, 4 * n + mode, rest)) == Some((n, rest))
  {
    PutGet(width, 4 * n + mode, rest);
    FirstByte(width, 4 * n + mode, rest);
    assert (4 * n + mode) % 4 == mode;
    TaggedMode(n, mode, Put(width, 4 * n + mode, rest), rest);
  }

  lemma CompactRoundTrip(n: u32, rest: Bytes)
    ensures GetCompact(PutCompact(n, rest)) == Some((n, rest))
  {
    Widths();
    if n < 0x40 {
      TaggedRoundTrip(n, 0, 1, 0x40, rest);
    } else if n < 0x4000 {
      TaggedRoundTrip(n, 1, 2, 0x4000, rest);
    } else if n < 0x4000_0000 {
      TaggedRoundTrip(n, 2, 4, 0x4000_0000, rest);
    } else {
      BigMode(n, rest);
    }
  }

  lemma FirstByte(width: nat, x: nat, rest: Bytes)
    requires width > 0
    ensures Put(width, x, rest) != [] && Put(width, x, rest)[0] == x % 256 && Put(width, x, rest)[0] % 4 == x % 4
  {
  }

  /** Written as a list length, the number starts with the byte of a storage tag. */
  predicate LooksLikeTag(n: nat) {
    n == 0 || (0x40 <= n < 0x4000 && n % 64 == 0)
  }

  lemma FirstByteOfLength(n: u32, rest: Bytes)
    ensures PutCompact(n, rest) != []
    ensures PutCompact(n, rest)[0] in {0, 1} <==> LooksLikeTag(n)
  {
  }

  /** The bytes of such a length when it is not zero: the tag of a list, and a byte that may again
      start a length. */
  lemma LengthLikeTag(k: byte, rest: Bytes)
    requires 1 <= k
    ensures PutCompact(64 * k, rest) == [1, k] + rest
  {
    var x := 256 * k + 1;
    assert x % 256 == 1 && x / 256 == k && k % 256 == k;
    assert Put(1, k, rest) == [k] + Put(0, 0, rest);
    assert [1] + ([k] + rest) == [1, k] + rest;
  }

  /** A list of that length can be read as something else: the length looks like a tag, and the byte
      after the tag can start a length. */
  predicate Ambiguous(n: nat) {
    LooksLikeTag(n) && (n / 64 % 4 == 3 ==> n / 64 == 3)
  }

  // ----- lists, text and enums -------------------------------------------------------------

  /** `width`-byte numbers, one after the other. */
  function PutAll(width: nat, xs: seq<nat>, rest: Bytes): Bytes {
    if xs == [] then rest else Put(width, xs[0], PutAll(width, xs[1..], rest))
  }

  predicate Bounded(xs: seq<nat>, max: nat) {
    forall i :: 0 <= i < |xs| ==> xs[i] <= max
  }

  function GetAll(width: nat, max: nat, n: nat, bytes: Bytes): (r: Parsed<seq<nat>>)
    ensures r.Some? ==> |r.value.0| == n && Bounded(r.value.0, max)
  {
    if n == 0 then Some(([], bytes))
    else
      var (x, rest) :- GetUpTo(width, max, bytes);
      var (xs, rest') :- GetAll(width, max, n - 1, rest);
      Some(([x] + xs, rest'))
  }

  lemma {:induction false} AllRoundTrip(width: nat, max: nat, xs: seq<nat>, rest: Bytes)
    requires max < Pow256(width) && Bounded(xs, max)
    ensures GetAll(width, max, |xs|, PutAll(width, xs, rest)) == Some((xs, rest))
  {
    if xs == [] {
    } else {
      AllRoundTrip(width, max, xs[1..], rest);
      PutGet(width, xs[0], PutAll(width, xs[1..], rest));
      assert [xs[0]] + xs[1..] == xs;
    }
  }

  function PutList(width: nat, xs: seq<nat>, rest: Bytes): Bytes {
    PutCompact(|xs|, PutAll(width, xs, rest))
  }

  function GetList(width: nat, max: nat, bytes: Bytes): (r: Parsed<seq<nat>>)
    ensures r.Some? ==> Bounded(r.value.0, max)
  {
    var (n, rest) :- GetCompact(bytes);
    GetAll(width, max, n, rest)
  }

  lemma ListRoundTrip(width: nat, max: nat, xs: seq<nat>, rest: Bytes)
    requires max < Pow256(width) && |xs| <= U32_MAX && Bounded(xs, max)
    ensures GetList(width, max, PutList(width, xs, rest)) == Some((xs, rest))
  {
    CompactRoundTrip(|xs|, PutAll(width, xs, rest));
    AllRoundTrip(width, max, xs, rest);
  }

  predicate Continuation(b: byte) {
    0x80 <= b <= 0xBF
  }

  /** Well-formed UTF-8 (section 4 of RFC 3629). */
  predicate ValidUtf8(s: Text) {
    if s == [] then true
    else if s[0] <= 0x7F then ValidUtf8(s[1..])
    else if 0xC2 <= s[0] <= 0xDF then |s| >= 2 && Continuation(s[1]) && ValidUtf8(s[2..])
    else if 0xE0 <= s[0] <= 0xEF then
      && |s| >= 3 && Continuation(s[1]) && Continuation(s[2])
      && (s[0] == 0xE0 ==> s[1] >= 0xA0) && (s[0] == 0xED ==> s[1] <= 0x9F)
      && ValidUtf8(s[3..])
    else if 0xF0 <= s[0] <= 0xF4 then
      && |s| >= 4 && Continuation(s[1]) && Continuation(s[2]) && Continuation(s[3])
      && (s[0] == 0xF0 ==> s[1] >= 0x90) && (s[0] == 0xF4 ==> s[1] <= 0x8F)
      && ValidUtf8(s[4..])
    else false
  }

  function GetText(bytes: Bytes): Parsed<Text> {
    var (s, rest) :- GetList(1, 255, bytes);
    if ValidUtf8(s) then Some((s, rest)) else None
  }

  lemma TextRoundTrip(s: Text, rest: Bytes)
    requires |s| <= U32_MAX && ValidUtf8(s)
    ensures GetText(PutList(1, s, rest)) == Some((s, rest))
  {
    Widths();
    ListRoundTrip(1, 255, s, rest);
  }

  function PutOption(x: Option<u64>, rest: Bytes): Bytes {
    if x.None? then [0] + rest else [1] + Put(8, x.value, rest)
  }

  function GetOption(bytes: Bytes): Parsed<Option<u64>> {
    if bytes == [] then None
    else if bytes[0] == 0 then Some((None, bytes[1..]))
    else if bytes[0] == 1 then
      var (x, rest) :- GetUpTo(8, U64_MAX, bytes[1..]);
      Some((Some(x), rest))
    else None
  }

  lemma OptionRoundTrip(x: Option<u64>, rest: Bytes)
    ensures GetOption(PutOption(x, rest)) == Some((x, rest))
  {
    Widths();
    if x.Some? {
      PutGet(8, x.value, rest);
      assert PutOption(x, rest)[1..] == Put(8, x.value, rest);
    }
  }

  const STATUSES: seq<OperationStatus> :=
    [Unset, Pending, Locked, InTransit, Completed, Failed, Recovering, Expired]

  function StatusTag(s: OperationStatus): (tag: byte)
    ensures tag < |STATUSES| && STATUSES[tag] == s
  {
    match s
    case Unset => 0
    case Pending => 1
    case Locked => 2
    case InTransit => 3
    case Completed => 4
    case Failed => 5
    case Recovering => 6
    case Expired => 7
  }

  const HOP_STATUSES: seq<MultiHopStatus> := [HopInProgress, HopCompleted, HopFailed]

  function HopTag(s: MultiHopStatus): (tag: byte)
    ensures tag < |HOP_STATUSES| && HOP_STATUSES[tag] == s
  {
    match s
    case HopInProgress => 0
    case HopCompleted => 1
    case HopFailed => 2
  }

  function GetTag<T>(variants: seq<T>, bytes: Bytes): Parsed<T> {
    if bytes == [] || bytes[0] >= |variants| then None else Some((variants[bytes[0]], bytes[1..]))
  }

  // ----- the two signature formats ---------------------------------------------------------

  function PutBitmap(bitmap: Bitmap, rest: Bytes): Bytes {
    seq(BITMAP_BYTES, i requires 0 <= i < BITMAP_BYTES => bitmap[i] as byte) + rest
  }

  function BitmapOf(bytes: Bytes): Bitmap
    requires |bytes| >= BITMAP_BYTES
  {
    seq(BITMAP_BYTES, i requires 0 <= i < BITMAP_BYTES => bytes[i] as bv8)
  }

  lemma BitmapRoundTrip(bitmap: Bitmap, rest: Bytes)
    ensures var bytes := PutBitmap(bitmap, rest);
      |bytes| >= BITMAP_BYTES && BitmapOf(bytes) == bitmap && bytes[BITMAP_BYTES..] == rest
  {
    var bytes := PutBitmap(bitmap, rest);
    forall i | 0 <= i < BITMAP_BYTES ensures BitmapOf(bytes)[i] == bitmap[i] {
      assert bytes[i] == bitmap[i] as byte;
      ByteRoundTrip(bitmap[i]);
    }
  }

  lemma ByteRoundTrip(b: bv8)
    ensures (b as byte) as bv8 == b
  {
  }

  function PutStorage(storage: SignatureStorage, rest: Bytes): Bytes {
    match storage
    case Stored(bitmap) => [0] + PutBitmap(bitmap, rest)
    case Legacy(signers) => [1] + PutList(32, signers, rest)
  }

  function GetStorage(bytes: Bytes): Parsed<SignatureStorage> {
    if bytes == [] then None
    else if bytes[0] == 0 then
      if |bytes| < 1 + BITMAP_BYTES then None
      else Some((Stored(BitmapOf(bytes[1..])), bytes[1..][BITMAP_BYTES..]))
    else if bytes[0] == 1 then
      var (signers, rest) :- GetList(32, ACCOUNTS - 1, bytes[1..]);
      Some((Legacy(signers), rest))
    else None
  }

  lemma StorageRoundTrip(storage: SignatureStorage, rest: Bytes)
    requires storage.Legacy? ==> |storage.signers| <= U32_MAX
    ensures GetStorage(PutStorage(storage, rest)) == Some((storage, rest))
  {
    Widths();
    var bytes := PutStorage(storage, rest);
    match storage
    case Stored(bitmap) =>
      BitmapRoundTrip(bitmap, rest);
      assert bytes[1..] == PutBitmap(bitmap, rest);
    case Legacy(signers) =>
      ListRoundTrip(32, ACCOUNTS - 1, signers, rest);
      assert bytes[1..] == PutList(32, signers, rest);
  }

  // ----- whole requests --------------------------------------------------------------------

  /** The fields before the signatures, and those after them; both formats share them. */
  datatype Header = Header(
    requestId: u64, tokenId: u64, sourceChain: ChainId, destinationChain: ChainId,
    sender: AccountId, recipient: AccountId, requiredSignatures: u8)

  datatype Trailer = Trailer(
    createdAt: u64, expiresAt: Option<u64>, status: OperationStatus, multiHopStatus: MultiHopStatus,
    route: seq<ChainId>, currentHop: u32, totalGasEstimate: u64, metadata: PropertyMetadata)

  function HeaderOf(r: Request): Header {
    Header(r.requestId, r.tokenId, r.sourceChain, r.destinationChain, r.sender, r.recipient, r.requiredSignatures)
  }

  function TrailerOf(r: Request): Trailer {
    Trailer(r.createdAt, r.expiresAt, r.status, r.multiHopStatus, r.route, r.currentHop, r.totalGasEstimate, r.metadata)
  }

  function Join(h: Header, storage: SignatureStorage, t: Trailer): Request {
    Request(h.requestId, h.tokenId, h.sourceChain, h.destinationChain, h.sender, h.recipient, h.requiredSignatures,
            storage, t.createdAt, t.expiresAt, t.status, t.multiHopStatus, t.route, t.currentHop,
            t.totalGasEstimate, t.metadata)
  }

  function PutHeader(h: Header, rest: Bytes): Bytes {
    Put(8, h.requestId, Put(8, h.tokenId, Put(8, h.sourceChain, Put(8, h.destinationChain,
      Put(32, h.sender, Put(32, h.recipient, Put(1, h.requiredSignatures, rest)))))))
  }

  function GetHeader(bytes: Bytes): Parsed<Header> {
    var (requestId, b1) :- GetUpTo(8, U64_MAX, bytes);
    var (tokenId, b2) :- GetUpTo(8, U64_MAX, b1);
    var (source, b3) :- GetUpTo(8, U64_MAX, b2);
    var (destination, b4) :- GetUpTo(8, U64_MAX, b3);
    var (sender, b5) :- GetUpTo(32, ACCOUNTS - 1, b4);
    var (recipient, b6) :- GetUpTo(32, ACCOUNTS - 1, b5);
    var (required, b7) :- GetUpTo(1, U8_MAX, b6);
    Some((Header(requestId, tokenId, source, destination, sender, recipient, required), b7))
  }

  lemma NumberRoundTrip(width: nat, max: nat, x: nat, rest: Bytes)
    requires x <= max < Pow256(width)
    ensures GetUpTo(width, max, Put(width, x, rest)) == Some((x, rest))
  {
    PutGet(width, x, rest);
  }

  lemma HeaderRoundTrip(h: Header, rest: Bytes)
    ensures GetHeader(PutHeader(h, rest)) == Some((h, rest))
  {
    Widths();
    var b6 := Put(1, h.requiredSignatures, rest);
    var b5 := Put(32, h.recipient, b6);
    var b4 := Put(32, h.sender, b5);
    var b3 := Put(8, h.destinationChain, b4);
    var b2 := Put(8, h.sourceChain, b3);
    var b1 := Put(8, h.tokenId, b2);
    NumberRoundTrip(1, U8_MAX, h.requiredSignatures, rest);
    NumberRoundTrip(32, ACCOUNTS - 1, h.recipient, b6);
    NumberRoundTrip(32, ACCOUNTS - 1, h.sender, b5);
    NumberRoundTrip(8, U64_MAX, h.destinationChain, b4);
    NumberRoundTrip(8, U64_MAX, h.sourceChain, b3);
    NumberRoundTrip(8, U64_MAX, h.tokenId, b2);
    NumberRoundTrip(8, U64_MAX, h.requestId, b1);
  }

  function PutMetadata(m: PropertyMetadata, rest: Bytes): Bytes {
    PutList(1, m.location, Put(8, m.size, PutList(1, m.legalDescription,
      Put(16, m.valuation, PutList(1, m.documentsUrl, rest)))))
  }

  function GetMetadata(bytes: Bytes): Parsed<PropertyMetadata> {
    var (location, b1) :- GetText(bytes);
    var (size, b2) :- GetUpTo(8, U64_MAX, b1);
    var (legal, b3) :- GetText(b2);
    var (valuation, b4) :- GetUpTo(16, U128_MAX, b3);
    var (url, b5) :- GetText(b4);
    Some((PropertyMetadata(location, size, legal, valuation, url), b5))
  }

  /** What the source's types guarantee: text is UTF-8, and lists have encodable lengths. */
  predicate EncodableText(s: Text) {
    |s| <= U32_MAX && ValidUtf8(s)
  }

  predicate Encodable(t: Trailer) {
    && |t.route| <= U32_MAX
    && EncodableText(t.metadata.location)
    && EncodableText(t.metadata.legalDescription)
    && EncodableText(t.metadata.documentsUrl)
  }

  lemma MetadataRoundTrip(m: PropertyMetadata, rest: Bytes)
    requires EncodableText(m.location) && EncodableText(m.legalDescription) && EncodableText(m.documentsUrl)
    ensures GetMetadata(PutMetadata(m, rest)) == Some((m, rest))
  {
    Widths();
    var b4 := PutList(1, m.documentsUrl, rest);
    var b3 := Put(16, m.valuation, b4);
    var b2 := PutList(1, m.legalDescription, b3);
    var b1 := Put(8, m.size, b2);
    TextRoundTrip(m.documentsUrl, rest);
    NumberRoundTrip(16, U128_MAX, m.valuation, b4);
    TextRoundTrip(m.legalDescription, b3);
    NumberRoundTrip(8, U64_MAX, m.size, b2);
    TextRoundTrip(m.location, b1);
  }

  function PutTrailer(t: Trailer, rest: Bytes): Bytes {
    Put(8, t.createdAt, PutOption(t.expiresAt, [StatusTag(t.status)] + ([HopTag(t.multiHopStatus)]
      + PutList(8, t.route, Put(4, t.currentHop, Put(8, t.totalGasEstimate, PutMetadata(t.metadata, rest)))))))
  }

  function GetTrailer(bytes: Bytes): Parsed<Trailer> {
    var (createdAt, b1) :- GetUpTo(8, U64_MAX, bytes);
    var (expiresAt, b2) :- GetOption(b1);
    var (status, b3) :- GetTag(STATUSES, b2);
    var (hopStatus, b4) :- GetTag(HOP_STATUSES, b3);
    var (route, b5) :- GetList(8, U64_MAX, b4);
    var (currentHop, b6) :- GetUpTo(4, U32_MAX, b5);
    var (gas, b7) :- GetUpTo(8, U64_MAX, b6);
    var (metadata, b8) :- GetMetadata(b7);
    Some((Trailer(createdAt, expiresAt, status, hopStatus, route, currentHop, gas, metadata), b8))
  }

  lemma TagRoundTrip<T>(variants: seq<T>, tag: byte, rest: Bytes)
    requires tag < |variants|
    ensures GetTag(variants, [tag] + rest) == Some((variants[tag], rest))
  {
    assert ([tag] + rest)[1..] == rest;
  }

  lemma TrailerRoundTrip(t: Trailer, rest: Bytes)
    requires Encodable(t)
    ensures GetTrailer(PutTrailer(t, rest)) == Some((t, rest))
  {
    Widths();
    var b7 := PutMetadata(t.metadata, rest);
    var b6 := Put(8, t.totalGasEstimate, b7);
    var b5 := Put(4, t.currentHop, b6);
    var b4 := PutList(8, t.route, b5);
    var b3 := [HopTag(t.multiHopStatus)] + b4;
    var b2 := [StatusTag(t.status)] + b3;
    var b1 := PutOption(t.expiresAt, b2);
    MetadataRoundTrip(t.metadata, rest);
    NumberRoundTrip(8, U64_MAX, t.totalGasEstimate, b7);
    NumberRoundTrip(4, U32_MAX, t.currentHop, b6);
    ListRoundTrip(8, U64_MAX, t.route, b5);
    TagRoundTrip(HOP_STATUSES, HopTag(t.multiHopStatus), b4);
    TagRoundTrip(STATUSES, StatusTag(t.status), b3);
    OptionRoundTrip(t.expiresAt, b2);
    NumberRoundTrip(8, U64_MAX, t.createdAt, b1);
  }

  /** The current format, which is the only one written. */
  function Encode(r: Request, rest: Bytes): Bytes {
    PutHeader(HeaderOf(r), PutStorage(r.storage, PutTrailer(TrailerOf(r), rest)))
  }

  /** The legacy format: the list of signers, without a tag. */
  function EncodeLegacy(h: Header, signers: seq<AccountId>, t: Trailer, rest: Bytes): Bytes {
    PutHeader(h, PutList(32, signers, PutTrailer(t, rest)))
  }

  function GetCurrent(bytes: Bytes): Parsed<Request> {
    var (h, b1) :- GetHeader(bytes);
    var (storage, b2) :- GetStorage(b1);
    var (t, b3) :- GetTrailer(b2);
    Some((Join(h, storage, t), b3))
  }

  function GetLegacy(bytes: Bytes): Parsed<Request> {
    var (h, b1) :- GetHeader(bytes);
    var (signers, b2) :- GetList(32, ACCOUNTS - 1, b1);
    var (t, b3) :- GetTrailer(b2);
    Some((Join(h, Legacy(signers), t), b3))
  }

  /** The current format is tried first; bytes left over are ignored. */
  function Decode(bytes: Bytes): Option<Request> {
    match GetCurrent(bytes)
    case Some((r, _)) => Some(r)
    case None =>
      match GetLegacy(bytes)
      case Some((r, _)) => Some(r)
      case None => None
  }

  /** Decoding an encoded request gives the request back, whatever follows it. */
  lemma DecodeEncode(r: Request, rest: Bytes)
    requires Encodable(TrailerOf(r)) && (r.storage.Legacy? ==> |r.storage.signers| <= U32_MAX)
    ensures Decode(Encode(r, rest)) == Some(r)
  {
    var b2 := PutTrailer(TrailerOf(r), rest);
    var b1 := PutStorage(r.storage, b2);
    TrailerRoundTrip(TrailerOf(r), rest);
    StorageRoundTrip(r.storage, b2);
    HeaderRoundTrip(HeaderOf(r), b1);
  }

  /** So no two requests share an encoding. */
  lemma EncodeIsInjective(r: Request, r': Request)
    requires Encodable(TrailerOf(r)) && (r.storage.Legacy? ==> |r.storage.signers| <= U32_MAX)
    requires Encodable(TrailerOf(r')) && (r'.storage.Legacy? ==> |r'.storage.signers| <= U32_MAX)
    requires Encode(r, []) == Encode(r', [])
    ensures r == r'
  {
    DecodeEncode(r, []);
    DecodeEncode(r', []);
  }

  // ----- where the fields are --------------------------------------------------------------

  /** A number as so many bytes, the lowest first. */
  function LittleEndian(width: nat, x: nat): (bytes: Bytes)
    ensures |bytes| == width
  {
    seq(width, i requires 0 <= i < width => Digit(x, i))
  }

  function Digit(x: nat, i: nat): byte {
    if i == 0 then x % 256 else Digit(x / 256, i - 1)
  }

  lemma {:induction false} PutIsLittleEndian(width: nat, x: nat, rest: Bytes)
    ensures Put(width, x, rest) == LittleEndian(width, x) + rest
  {
    if width == 0 {
    } else {
      var high := LittleEndian(width - 1, x / 256);
      PutIsLittleEndian(width - 1, x / 256, rest);
      LowestFirst(width, x);
      assert [x % 256] + (high + rest) == [x % 256] + high + rest;
    }
  }

  lemma LowestFirst(width: nat, x: nat)
    requires width > 0
    ensures LittleEndian(width, x) == [x % 256] + LittleEndian(width - 1, x / 256)
  {
    var bytes, high := LittleEndian(width, x), LittleEndian(width - 1, x / 256);
    forall i | 0 <= i < width ensures bytes[i] == ([x % 256] + high)[i] {
      assert bytes[i] == Digit(x, i);
      if i > 0 {
        assert high[i - 1] == Digit(x / 256, i - 1);
      }
    }
  }

  /** Every field in front of the signatures, at its place and in its width. */
  lemma HeaderLayout(h: Header, rest: Bytes)
    ensures PutHeader(h, rest) ==
      LittleEndian(8, h.requestId) + LittleEndian(8, h.tokenId) + LittleEndian(8, h.sourceChain)
      + LittleEndian(8, h.destinationChain) + LittleEndian(32, h.sender) + LittleEndian(32, h.recipient)
      + LittleEndian(1, h.requiredSignatures) + rest
  {
    var b7 := Put(1, h.requiredSignatures, rest);
    var b6 := Put(32, h.recipient, b7);
    var b5 := Put(32, h.sender, b6);
    var b4 := Put(8, h.destinationChain, b5);
    var b3 := Put(8, h.sourceChain, b4);
    var b2 := Put(8, h.tokenId, b3);
    PutIsLittleEndian(1, h.requiredSignatures, rest);
    PutIsLittleEndian(32, h.recipient, b7);
    PutIsLittleEndian(32, h.sender, b6);
    PutIsLittleEndian(8, h.destinationChain, b5);
    PutIsLittleEndian(8, h.sourceChain, b4);
    PutIsLittleEndian(8, h.tokenId, b3);
    PutIsLittleEndian(8, h.requestId, b2);
  }

  /** The bytes of the fields behind the signatures: time, deadline, the two statuses by their numbers in
      order of declaration, route, hop, gas, and the description of the property. */
  lemma TrailerLayout(t: Trailer, rest: Bytes)
    ensures PutTrailer(t, rest) ==
      LittleEndian(8, t.createdAt)
      + PutOption(t.expiresAt, [StatusTag(t.status)] + ([HopTag(t.multiHopStatus)]
          + PutList(8, t.route, LittleEndian(4, t.currentHop) + (LittleEndian(8, t.totalGasEstimate)
          + PutList(1, t.metadata.location, LittleEndian(8, t.metadata.size)
          + PutList(1, t.metadata.legalDescription, LittleEndian(16, t.metadata.valuation)
          + PutList(1, t.metadata.documentsUrl, rest)))))))
  {
    var url := PutList(1, t.metadata.documentsUrl, rest);
    var legal := PutList(1, t.metadata.legalDescription, Put(16, t.metadata.valuation, url));
    var location := PutList(1, t.metadata.location, Put(8, t.metadata.size, legal));
    PutIsLittleEndian(16, t.metadata.valuation, url);
    PutIsLittleEndian(8, t.metadata.size, legal);
    PutIsLittleEndian(8, t.totalGasEstimate, location);
    PutIsLittleEndian(4, t.currentHop, Put(8, t.totalGasEstimate, location));
    PutIsLittleEndian(8, t.createdAt, PutOption(t.expiresAt, [StatusTag(t.status)] + ([HopTag(t.multiHopStatus)]
      + PutList(8, t.route, Put(4, t.currentHop, Put(8, t.totalGasEstimate, location))))));
  }

  lemma LegacyRoundTrip(h: Header, signers: seq<AccountId>, t: Trailer, rest: Bytes)
    requires Encodable(t) && |signers| <= U32_MAX
    ensures GetLegacy(EncodeLegacy(h, signers, t, rest)) == Some((Join(h, Legacy(signers), t), rest))
  {
    var b2 := PutTrailer(t, rest);
    var b1 := PutList(32, signers, b2);
    Widths();
    TrailerRoundTrip(t, rest);
    ListRoundTrip(32, ACCOUNTS - 1, signers, b2);
    HeaderRoundTrip(h, b1);
  }

  lemma NoLengthNoList(k: byte, rest: Bytes)
    requires k % 4 == 3 && k != 3
    ensures GetStorage([1, k] + rest).None?
  {
    var bytes := [1, k] + rest;
    assert bytes[1..][0] == k;
  }

  /** A legacy encoding decodes to the same request with its signer list kept, unless the list's
      length is ambiguous: for 1 to 63 signers among others. */
  lemma DecodeLegacy(h: Header, signers: seq<AccountId>, t: Trailer, rest: Bytes)
    requires Encodable(t) && |signers| <= U32_MAX && !Ambiguous(|signers|)
    ensures Decode(EncodeLegacy(h, signers, t, rest)) == Some(Join(h, Legacy(signers), t))
  {
    var body := PutAll(32, signers, PutTrailer(t, rest));
    var b1 := PutList(32, signers, PutTrailer(t, rest));
    HeaderRoundTrip(h, b1);
    FirstByteOfLength(|signers|, body);
    if LooksLikeTag(|signers|) {
      LengthLikeTag(|signers| / 64, body);
      NoLengthNoList(|signers| / 64, body);
    }
    assert GetStorage(b1).None?;
    LegacyRoundTrip(h, signers, t, rest);
  }
}
