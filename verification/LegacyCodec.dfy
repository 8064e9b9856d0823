/** Legacy requests that the current format can read: for which numbers of signers, and from which
    length of the encoding on, a stored legacy request decodes to something else. */
module LegacyCodec {
  import opened Machine
  import opened SignatureBitmap
  import opened BridgeTypes
  import opened RequestCodec

  // ----- bytes that are almost all zero ------------------------------------------------------

  function Zeros(n: nat): Bytes {
    seq(n, _ => 0)
  }

  lemma {:induction false} PutZero(width: nat, rest: Bytes)
    ensures Put(width, 0, rest) == Zeros(width) + rest
  {
    if width == 0 {
    } else {
      PutZero(width - 1, rest);
      assert [0] + (Zeros(width - 1) + rest) == Zeros(width) + rest;
    }
  }

  lemma {:induction false} PutZeroText(n: nat, rest: Bytes)
    ensures PutAll(1, Zeros(n), rest) == Zeros(n) + rest
    ensures ValidUtf8(Zeros(n))
  {
    if n == 0 {
    } else {
      assert Zeros(n)[1..] == Zeros(n - 1);
      PutZeroText(n - 1, rest);
      PutZero(1, Zeros(n - 1) + rest);
      assert Zeros(1) + (Zeros(n - 1) + rest) == Zeros(n) + rest;
    }
  }

  /** All zero, but for a location of `n` zero characters. */
  function BlankTrailer(n: nat): Trailer {
    Trailer(0, None, Unset, HopInProgress, [], 0, 0, PropertyMetadata(Zeros(n), 0, [], 0, []))
  }

  lemma BlankEncodable(n: nat)
    requires n <= U32_MAX
    ensures Encodable(BlankTrailer(n))
  {
    PutZeroText(n, []);
  }

  lemma ZerosJoin(m: nat, n: nat, rest: Bytes)
    ensures Zeros(m) + (Zeros(n) + rest) == Zeros(m + n) + rest
    ensures [0] + (Zeros(n) + rest) == Zeros(n + 1) + rest
    ensures [0] + rest == Zeros(1) + rest
  {
  }

  lemma NoEntries(width: nat, rest: Bytes)
    ensures PutList(width, [], rest) == [0] + rest
  {
    assert Put(1, 0, rest) == [0] + Put(0, 0, rest);
  }

  lemma BlankMetadataBytes(n: nat, rest: Bytes)
    ensures PutMetadata(BlankTrailer(n).metadata, rest) == PutCompact(n, Zeros(n + 26) + rest)
  {
    NoEntries(1, rest);
    PutZero(16, Zeros(1) + rest);
    ZerosJoin(16, 1, rest);
    NoEntries(1, Zeros(17) + rest);
    ZerosJoin(1, 17, rest);
    PutZero(8, Zeros(18) + rest);
    ZerosJoin(8, 18, rest);
    PutZeroText(n, Zeros(26) + rest);
    ZerosJoin(n, 26, rest);
  }

  lemma RouteHead(list: Bytes)
    ensures Put(8, 0, PutOption(None, [StatusTag(Unset)] + ([HopTag(HopInProgress)] + list))) == Zeros(11) + list
  {
    ZerosJoin(1, 1, list);
    ZerosJoin(1, 2, list);
    PutZero(8, Zeros(3) + list);
    ZerosJoin(8, 3, list);
  }

  /** A blank trailer but for its gas estimate. */
  function GasTrailer(gas: u64): Trailer {
    BlankTrailer(0).(totalGasEstimate := gas)
  }

  lemma UpToGas(b: Bytes)
    ensures Put(8, 0, PutOption(None, [StatusTag(Unset)] + ([HopTag(HopInProgress)] + PutList(8, [], Put(4, 0, b)))))
         == Zeros(16) + b
  {
    PutZero(4, b);
    NoEntries(8, Zeros(4) + b);
    ZerosJoin(1, 4, b);
    RouteHead(Zeros(5) + b);
    ZerosJoin(11, 5, b);
  }

  lemma BlankTrailerBytes(n: nat, rest: Bytes)
    ensures PutTrailer(BlankTrailer(n), rest) == Zeros(24) + PutCompact(n, Zeros(n + 26) + rest)
  {
    var b := PutCompact(n, Zeros(n + 26) + rest);
    BlankMetadataBytes(n, rest);
    PutZero(8, b);
    UpToGas(Zeros(8) + b);
    ZerosJoin(16, 8, b);
  }

  lemma NoLocation(rest: Bytes)
    ensures PutMetadata(BlankTrailer(0).metadata, rest) == Zeros(27) + rest
  {
    BlankMetadataBytes(0, rest);
    ShortLength(0, Zeros(26) + rest);
    ZerosJoin(1, 26, rest);
  }

  lemma GasTrailerBytes(gas: u64, rest: Bytes)
    ensures PutTrailer(GasTrailer(gas), rest) == Zeros(16) + Put(8, gas, Zeros(27) + rest)
  {
    NoLocation(rest);
    UpToGas(Put(8, gas, Zeros(27) + rest));
  }

  lemma ShortLength(n: nat, rest: Bytes)
    requires n < 64
    ensures PutCompact(n, rest) == [4 * n] + rest
  {
    assert Put(1, 4 * n, rest) == [4 * n] + Put(0, 0, rest);
  }

  lemma BlankBytes(rest: Bytes)
    ensures PutTrailer(BlankTrailer(0), rest) == Zeros(51) + rest
  {
    BlankTrailerBytes(0, rest);
    ShortLength(0, Zeros(26) + rest);
    ZerosJoin(1, 26, rest);
    ZerosJoin(24, 27, rest);
  }

  lemma ReadBack(t: Trailer, rest: Bytes, bytes: Bytes)
    requires Encodable(t) && bytes == PutTrailer(t, rest)
    ensures GetTrailer(bytes) == Some((t, rest))
  {
    TrailerRoundTrip(t, rest);
  }

  // ----- a legacy request without signers ----------------------------------------------------

  /** The bitmap that the current format reads out of such a request. */
  function PhantomBitmap(v: bv8): Bitmap {
    NoSignatures()[24 := v]
  }

  lemma PhantomBytes(v: bv8, rest: Bytes)
    ensures PutBitmap(PhantomBitmap(v), rest) == Zeros(24) + [v as byte] + Zeros(7) + rest
  {
    assert PutBitmap(PhantomBitmap(v), []) == Zeros(24) + [v as byte] + Zeros(7);
  }

  lemma SomeBit(b: bv8)
    requires b != 0
    ensures exists j | 0 <= j < 8 :: b & Mask(j) != 0
  {
    assert Mask(0) == 1 && Mask(1) == 2 && Mask(2) == 4 && Mask(3) == 8;
    assert Mask(4) == 16 && Mask(5) == 32 && Mask(6) == 64 && Mask(7) == 128;
    assert b & Mask(0) != 0 || b & Mask(1) != 0 || b & Mask(2) != 0 || b & Mask(3) != 0
        || b & Mask(4) != 0 || b & Mask(5) != 0 || b & Mask(6) != 0 || b & Mask(7) != 0;
  }

  lemma SignedAt(bitmap: Bitmap, k: nat, j: nat)
    requires k < BITMAP_BYTES && j < 8 && bitmap[k] & Mask(j) != 0
    ensures Positions(bitmap) != {}
  {
    var i: u8 := 8 * k + j;
    assert i / 8 == k && i % 8 == j;
    assert i in Positions(bitmap);
  }

  lemma PhantomsSign(v: bv8)
    requires v != 0
    ensures Positions(PhantomBitmap(v)) != {}
  {
    SomeBit(v);
    var j :| 0 <= j < 8 && v & Mask(j) != 0;
    SignedAt(PhantomBitmap(v), 24, j);
  }

  lemma MisreadZeros(n: nat)
    requires 32 <= n < 64
    ensures Zeros(n + 26) + [] == Zeros(7) + (Zeros(24) + ([0] + (Zeros(26) + Zeros(n - 32))))
  {
    ZerosJoin(26, n - 32, []);
    ZerosJoin(1, n - 6, []);
    ZerosJoin(24, n - 5, []);
    ZerosJoin(7, n + 19, []);
    assert Zeros(n - 32) + [] == Zeros(n - 32);
  }

  lemma Regroup(a: Bytes, b: Bytes, c: Bytes, d: Bytes)
    ensures a + (b + (c + d)) == a + b + c + d
  {
  }

  /** What follows the length of a legacy request without signers reads as a bitmap and a trailer. */
  lemma MisreadBytes(n: nat)
    requires 32 <= n < 64
    ensures PutTrailer(BlankTrailer(n), [])
         == Zeros(24) + [4 * n] + Zeros(7) + PutTrailer(BlankTrailer(0), Zeros(n - 32))
  {
    BlankTrailerBytes(n, []);
    ShortLength(n, Zeros(n + 26) + []);
    BlankTrailerBytes(0, Zeros(n - 32));
    ShortLength(0, Zeros(26) + Zeros(n - 32));
    MisreadZeros(n);
    Regroup(Zeros(24), [4 * n], Zeros(7), PutTrailer(BlankTrailer(0), Zeros(n - 32)));
  }

  /** With no signers the length byte is the bitmap tag, and the bytes after it may parse: the
      decoded request then carries signatures nobody gave. */
  lemma UnsignedLegacyMisread(h: Header, n: nat, v: bv8)
    requires 32 <= n < 64 && v as nat == 4 * n
    ensures Decode(EncodeLegacy(h, [], BlankTrailer(n), [])) == Some(Join(h, Stored(PhantomBitmap(v)), BlankTrailer(0)))
    ensures Positions(PhantomBitmap(v)) != {}
  {
    var misread := Join(h, Stored(PhantomBitmap(v)), BlankTrailer(0));
    assert HeaderOf(misread) == h && TrailerOf(misread) == BlankTrailer(0);
    MisreadBytes(n);
    NoEntries(32, PutTrailer(BlankTrailer(n), []));
    PhantomBytes(v, PutTrailer(BlankTrailer(0), Zeros(n - 32)));
    assert EncodeLegacy(h, [], BlankTrailer(n), []) == Encode(misread, Zeros(n - 32));
    DecodeEncode(misread, Zeros(n - 32));
    PhantomsSign(v);
  }

  // ----- legacy lists that read as shorter or longer ones ------------------------------------

  lemma {:induction false} GetWidth(width: nat, bytes: Bytes)
    requires width <= |bytes|
    ensures Get(width, bytes).Some? && Get(width, bytes).value.0 < Pow256(width)
    ensures Get(width, bytes).value.1 == bytes[width..]
  {
    if width == 0 {
    } else {
      GetWidth(width - 1, bytes[1..]);
      assert bytes[1..][width - 1..] == bytes[width..];
    }
  }

  /** Any bytes at all read as accounts, as long as there are enough of them. */
  lemma {:induction false} AccountsFromAnything(width: nat, max: nat, n: nat, bytes: Bytes)
    requires Pow256(width) == max + 1 && width * n <= |bytes|
    ensures GetAll(width, max, n, bytes).Some?
    ensures GetAll(width, max, n, bytes).value.1 == bytes[width * n..]
  {
    if n == 0 {
    } else {
      assert width * n == width + width * (n - 1);
      MulNonNegative(width, n - 1);
      GetWidth(width, bytes);
      AccountsFromAnything(width, max, n - 1, bytes[width..]);
      assert bytes[width..][width * (n - 1)..] == bytes[width * n..];
    }
  }

  /** Enough zeros for a blank trailer start at the position. */
  ghost predicate BlankAt(bytes: Bytes, i: nat) {
    i + 51 <= |bytes| && forall j :: i <= j < i + 51 ==> bytes[j] == 0
  }

  lemma BlankTrailerRead(bytes: Bytes, i: nat)
    requires BlankAt(bytes, i)
    ensures GetTrailer(bytes[i..]).Some? && GetTrailer(bytes[i..]).value.0 == BlankTrailer(0)
  {
    var rest := bytes[i + 51..];
    assert bytes[i..] == Zeros(51) + rest;
    BlankBytes(rest);
    BlankEncodable(0);
    ReadBack(BlankTrailer(0), rest, bytes[i..]);
  }

  /** If the bytes after the tag read as a length, and a trailer can be read behind that many accounts,
      the request decodes with that trailer. */
  lemma ReadAsList(h: Header, signers: seq<AccountId>, t: Trailer, y: Bytes, c: nat, body: Bytes)
    requires PutList(32, signers, PutTrailer(t, [])) == [1] + y
    requires GetCompact(y) == Some((c, body)) && 32 * c <= |body| && GetTrailer(body[32 * c..]).Some?
    ensures Decode(EncodeLegacy(h, signers, t, [])).Some?
    ensures TrailerOf(Decode(EncodeLegacy(h, signers, t, [])).value) == GetTrailer(body[32 * c..]).value.0
  {
    var b1 := [1] + y;
    assert b1[1..] == y;
    ThirtyTwoBytes();
    AccountsFromAnything(32, ACCOUNTS - 1, c, body);
    HeaderRoundTrip(h, b1);
    var xs := GetAll(32, ACCOUNTS - 1, c, body).value.0;
    assert GetStorage(b1) == Some((Legacy(xs), body[32 * c..]));
  }

  lemma ThirtyTwoBytes()
    ensures Pow256(32) == ACCOUNTS
  {
    Widths();
  }

  // ----- what survives -----------------------------------------------------------------------

  ghost predicate Kept(h: Header, signers: seq<AccountId>, t: Trailer) {
    Decode(EncodeLegacy(h, signers, t, [])) == Some(Join(h, Legacy(signers), t))
  }

  /** Every legacy request with so many signers decodes to itself. */
  ghost predicate Survives(count: nat) {
    forall h: Header, signers: seq<AccountId>, t: Trailer ::
      |signers| == count && Encodable(t) ==> Kept(h, signers, t)
  }

  /** The same of the requests whose encoding is no longer than the limit. */
  ghost predicate SurvivesWithin(count: nat, limit: nat) {
    forall h: Header, signers: seq<AccountId>, t: Trailer ::
      |signers| == count && Encodable(t) && |EncodeLegacy(h, signers, t, [])| <= limit ==> Kept(h, signers, t)
  }

  lemma {:induction false} AllLength(width: nat, xs: seq<nat>, rest: Bytes)
    ensures 0 <= width * |xs| && |PutAll(width, xs, rest)| == width * |xs| + |rest|
  {
    if xs == [] {
    } else {
      AllLength(width, xs[1..], rest);
      assert width * |xs| == width + width * (|xs| - 1);
    }
  }

  lemma HeaderLength(h: Header, rest: Bytes)
    ensures |PutHeader(h, rest)| == 97 + |rest|
  {
  }

  lemma UnsignedLength(h: Header, t: Trailer)
    ensures |EncodeLegacy(h, [], t, [])| == 98 + |PutTrailer(t, [])|
  {
    HeaderLength(h, PutList(32, [], PutTrailer(t, [])));
    NoEntries(32, PutTrailer(t, []));
  }

  lemma TaggedLength(h: Header, k: byte, signers: seq<AccountId>, t: Trailer)
    requires 1 <= k && |signers| == 64 * k
    ensures |EncodeLegacy(h, signers, t, [])| == 99 + 2048 * k + |PutTrailer(t, [])|
  {
    var body := PutAll(32, signers, PutTrailer(t, []));
    HeaderLength(h, PutList(32, signers, PutTrailer(t, [])));
    AllLength(32, signers, PutTrailer(t, []));
    LengthLikeTag(k, body);
  }

  // ----- inputs that do not survive ----------------------------------------------------------

  lemma UnsignedDoNotSurvive(h: Header, n: nat, v: bv8, limit: nat)
    requires n == 32 && v as nat == 4 * n && limit >= 181
    ensures !SurvivesWithin(0, limit)
  {
    UnsignedLegacyMisread(h, n, v);
    BlankEncodable(n);
    UnsignedLength(h, BlankTrailer(n));
    BlankTrailerBytes(n, []);
    ShortLength(n, Zeros(n + 26) + []);
    assert !Kept(h, [], BlankTrailer(n));
  }

  lemma ListBytes(k: byte, signers: seq<AccountId>, trailer: Bytes, lead: Bytes, body: Bytes)
    requires 1 <= k && |signers| == 64 * k && PutAll(32, signers, trailer) == lead + body
    ensures PutList(32, signers, trailer) == [1] + ([k] + lead + body)
  {
    LengthLikeTag(k, lead + body);
    assert [1, k] + (lead + body) == [1] + ([k] + lead + body);
  }

  /** A list of 64k accounts is misread when the bytes after its tag read as a length that leads to
      where another trailer can be read. */
  lemma Misread(h: Header, k: byte, signers: seq<AccountId>, t: Trailer, lead: Bytes, body: Bytes, c: nat, limit: nat)
    requires 1 <= k && |signers| == 64 * k && Encodable(t)
    requires PutAll(32, signers, PutTrailer(t, [])) == lead + body
    requires GetCompact([k] + lead + body) == Some((c, body)) && 32 * c <= |body|
    requires GetTrailer(body[32 * c..]).Some? && GetTrailer(body[32 * c..]).value.0 != t
    requires 99 + 2048 * k + |PutTrailer(t, [])| <= limit
    ensures !SurvivesWithin(64 * k, limit)
  {
    ListBytes(k, signers, PutTrailer(t, []), lead, body);
    ReadAsList(h, signers, t, [k] + lead + body, c, body);
    assert TrailerOf(Join(h, Legacy(signers), t)) == t;
    TaggedLength(h, k, signers, t);
    assert !Kept(h, signers, t);
  }

  lemma MisreadBlank(h: Header, k: byte, signers: seq<AccountId>, t: Trailer, lead: Bytes, body: Bytes, c: nat,
      limit: nat)
    requires 1 <= k && |signers| == 64 * k && Encodable(t) && t != BlankTrailer(0)
    requires PutAll(32, signers, PutTrailer(t, [])) == lead + body
    requires GetCompact([k] + lead + body) == Some((c, body)) && BlankAt(body, 32 * c)
    requires 99 + 2048 * k + |PutTrailer(t, [])| <= limit
    ensures !SurvivesWithin(64 * k, limit)
  {
    BlankTrailerRead(body, 32 * c);
    Misread(h, k, signers, t, lead, body, c, limit);
  }

  lemma {:induction false} PutZeros(width: nat, n: nat, rest: Bytes)
    ensures 0 <= width * n && PutAll(width, Zeros(n), rest) == Zeros(width * n) + rest
  {
    if n == 0 {
      assert Zeros(0) == [];
    } else {
      assert Zeros(n)[1..] == Zeros(n - 1);
      PutZeros(width, n - 1, rest);
      assert width * n == width + width * (n - 1);
      PutZero(width, Zeros(width * (n - 1)) + rest);
      ZerosJoin(width, width * (n - 1), rest);
    }
  }

  /** A list of accounts that are all zero but for the first. */
  function FirstThenZeros(v: AccountId, n: nat): (signers: seq<AccountId>)
    requires n > 0
    ensures |signers| == n
  {
    [v] + Zeros(n - 1)
  }

  lemma ZeroAccounts(v: AccountId, n: nat, rest: Bytes)
    requires n > 0
    ensures PutAll(32, FirstThenZeros(v, n), rest) == Put(32, v, Zeros(32 * (n - 1)) + rest)
  {
    assert FirstThenZeros(v, n)[1..] == Zeros(n - 1);
    PutZeros(32, n - 1, rest);
  }

  lemma PutOneMore(width: nat, x: nat, rest: Bytes)
    requires width > 0
    ensures Put(width, x, rest) == [x % 256] + Put(width - 1, x / 256, rest)
  {
  }

  lemma PutLowZero(width: nat, x: nat, high: nat, rest: Bytes)
    requires width > 0 && x == 256 * high
    ensures Put(width, x, rest) == [0] + Put(width - 1, high, rest)
  {
    assert x % 256 == 0 && x / 256 == high;
  }

  lemma SmallBytes(v: byte, rest: Bytes)
    ensures Put(32, v, rest) == [v] + (Zeros(31) + rest)
  {
    PutOneMore(32, v, rest);
    PutZero(31, rest);
  }

  /** The bytes of an account with a single byte set, the others being zero. */
  lemma SmallAccount(v: byte, n: nat, z: nat, rest: Bytes)
    requires n > 0 && z == 32 * n - 1
    ensures PutAll(32, FirstThenZeros(v, n), rest) == [v] + (Zeros(z) + rest)
  {
    var y := 32 * (n - 1);
    ZeroAccounts(v, n, rest);
    SmallBytes(v, Zeros(y) + rest);
    ZerosJoin(31, y, rest);
    assert 31 + y == z;
  }

  lemma ZeroAccount(n: nat, z: nat, rest: Bytes)
    requires n > 0 && z == 32 * n
    ensures PutAll(32, FirstThenZeros(0, n), rest) == [] + (Zeros(z) + rest)
  {
    SmallAccount(0, n, z - 1, rest);
    ZerosJoin(1, z - 1, rest);
  }

  lemma SecondByteAccount(v: AccountId, n: nat, z: nat, rest: Bytes)
    requires v == 256 && n > 0 && z == 32 * n - 3
    ensures PutAll(32, FirstThenZeros(v, n), rest) == [0, 1, 0] + (Zeros(z) + rest)
  {
    var y := 32 * (n - 1);
    var more := Zeros(y) + rest;
    ZeroAccounts(v, n, rest);
    PutOneMore(32, v, more);
    PutOneMore(31, 1, more);
    PutZero(30, more);
    ZerosJoin(30, y, rest);
    ZerosJoin(1, z, rest);
    var end := Zeros(z) + rest;
    assert [0] + end == Zeros(30 + y) + rest;
    assert [0] + ([1] + ([0] + end)) == [0, 1, 0] + end;
  }

  lemma UpperBytes(x: nat, y: nat, z: nat, rest: Bytes)
    requires x == 0x4000 && z == 28 + y
    ensures Put(30, x, Zeros(y) + rest) == [0] + ([64] + (Zeros(z) + rest))
  {
    PutLowZero(30, x, 64, Zeros(y) + rest);
    PutOneMore(29, 64, Zeros(y) + rest);
    PutZero(28, Zeros(y) + rest);
    ZerosJoin(28, y, rest);
  }

  lemma FourBytesJoin(b0: byte, b1: byte, b2: byte, b3: byte, end: Bytes)
    ensures [b0] + ([b1] + ([b2] + ([b3] + end))) == [b0, b1, b2, b3] + end
  {
  }

  lemma FourthByteAccount(v: AccountId, n: nat, z: nat, rest: Bytes)
    requires v == 0x4000_0000 && n > 0 && z == 32 * n - 4
    ensures PutAll(32, FirstThenZeros(v, n), rest) == [0, 0, 0, 64] + (Zeros(z) + rest)
  {
    var y := 32 * (n - 1);
    ZeroAccounts(v, n, rest);
    PutLowZero(32, v, 0x40_0000, Zeros(y) + rest);
    PutLowZero(31, 0x40_0000, 0x4000, Zeros(y) + rest);
    UpperBytes(0x4000, y, z, rest);
    FourBytesJoin(0, 0, 0, 64, Zeros(z) + rest);
  }

  /** The shortest trailer there is, but not a blank one. */
  function EarlyTrailer(): Trailer {
    BlankTrailer(0).(createdAt := 1)
  }

  lemma EarlyLength()
    ensures Encodable(EarlyTrailer()) && |PutTrailer(EarlyTrailer(), [])| == 51
  {
    BlankBytes([]);
    BlankEncodable(0);
  }

  lemma BlankInFront(m: nat, rest: Bytes, i: nat)
    requires i + 51 <= m
    ensures BlankAt(Zeros(m) + rest, i)
  {
  }

  lemma OneByteLength(k: byte, c: nat, body: Bytes)
    requires k == 4 * c
    ensures GetCompact([k] + [] + body) == Some((c, body))
  {
    assert ([k] + [] + body)[1..] == body;
    assert k % 4 == 0 && k / 4 == c;
  }

  /** A quarter of the byte after the tag is taken for the length, in a request as short as any. */
  lemma MisreadShort(h: Header, k: byte, m: nat, c: nat, limit: nat)
    requires 1 <= k && k == 4 * c && m == 2048 * k && limit >= 2048 * k + 150
    ensures !SurvivesWithin(64 * k, limit)
  {
    var t := EarlyTrailer();
    var body := Zeros(m) + PutTrailer(t, []);
    EarlyLength();
    ZeroAccount(64 * k, m, PutTrailer(t, []));
    OneByteLength(k, c, body);
    BlankInFront(m, PutTrailer(t, []), 32 * c);
    MisreadBlank(h, k, FirstThenZeros(0, 64 * k), t, [], body, c, limit);
  }

  lemma TwoByteLength(k: byte, v: byte, c: nat, body: Bytes)
    requires k + 256 * v == 4 * c + 1 && v == 1
    ensures GetCompact([k] + [v] + body) == Some((c, body))
  {
    var bytes := [k] + [v] + body;
    assert bytes[1..] == [v] + body && bytes[1..][1..] == body;
    assert Get(1, bytes[1..]) == Some((v + 256 * 0, body));
    assert Get(2, bytes) == Some((k + 256 * v, body));
    assert k % 4 == 1 && (k + 256 * v) / 4 == c;
  }

  /** The first account's lowest byte completes the length, in a request as short as any. */
  lemma MisreadMiddle(h: Header, k: byte, v: byte, m: nat, c: nat, limit: nat)
    requires 5 <= k && v == 1 && k + 256 * v == 4 * c + 1 && m == 2048 * k - 1 && limit >= 2048 * k + 150
    ensures !SurvivesWithin(64 * k, limit)
  {
    var t := EarlyTrailer();
    var body := Zeros(m) + PutTrailer(t, []);
    EarlyLength();
    SmallAccount(v, 64 * k, m, PutTrailer(t, []));
    TwoByteLength(k, v, c, body);
    BlankInFront(m, PutTrailer(t, []), 32 * c);
    MisreadBlank(h, k, FirstThenZeros(v, 64 * k), t, [v], body, c, limit);
  }

  lemma {:induction false} PutHighest(width: nat, v: byte, rest: Bytes)
    requires width > 0
    ensures Put(width, v * Pow256(width - 1), rest) == Zeros(width - 1) + ([v] + rest)
  {
    if width == 1 {
      assert Put(1, v, rest) == [v] + Put(0, 0, rest);
    } else {
      var x := v * Pow256(width - 2);
      assert v * Pow256(width - 1) == 256 * x;
      PutLowZero(width, 256 * x, x, rest);
      PutHighest(width - 1, v, rest);
      ZerosJoin(1, width - 2, [v] + rest);
    }
  }

  lemma SevenBytes()
    ensures 4 * Pow256(7) == 0x400_0000_0000_0000
  {
    FourBytes();
    assert Pow256(6) == 256 * 256 * Pow256(4);
  }

  /** A byte less, and the trailer with one location byte reads as one with a gas estimate. */
  lemma ShiftedBytes(gas: u64)
    requires gas == 0x400_0000_0000_0000
    ensures Encodable(BlankTrailer(1)) && Encodable(GasTrailer(gas))
    ensures PutTrailer(BlankTrailer(1), []) == [0] + PutTrailer(GasTrailer(gas), [])
    ensures |PutTrailer(BlankTrailer(1), [])| == 52
  {
    BlankEncodable(1);
    BlankEncodable(0);
    BlankTrailerBytes(1, []);
    ShortLength(1, Zeros(27) + []);
    GasTrailerBytes(gas, []);
    SevenBytes();
    PutHighest(8, 4, Zeros(27) + []);
    var end := [4] + (Zeros(27) + []);
    ZerosJoin(16, 7, end);
    ZerosJoin(1, 23, end);
  }

  lemma BehindZeros(m: nat, x: byte, rest: Bytes, i: nat)
    requires i == m + 1
    ensures |Zeros(m) + ([x] + rest)| == i + |rest| && (Zeros(m) + ([x] + rest))[i..] == rest
  {
  }

  /** With 64 signers the length taken is 64 too, one byte early. */
  lemma MisreadShifted(h: Header, k: byte, v: byte, m: nat, c: nat, t: Trailer, t': Trailer, limit: nat)
    requires k == 1 && v == 1 && c == 64 && m == 2047 && limit >= 2199
    requires t == BlankTrailer(1) && t' == GasTrailer(0x400_0000_0000_0000)
    ensures !SurvivesWithin(64 * k, limit)
  {
    var body := Zeros(m) + PutTrailer(t, []);
    ShiftedBytes(t'.totalGasEstimate);
    SmallAccount(v, 64 * k, m, PutTrailer(t, []));
    TwoByteLength(k, v, c, body);
    BehindZeros(m, 0, PutTrailer(t', []), 32 * c);
    ReadBack(t', [], body[32 * c..]);
    Misread(h, k, FirstThenZeros(v, 64 * k), t, [v], body, c, limit);
  }

  // ----- lengths that lead far behind the signers --------------------------------------------

  function CompactWidth(n: nat): nat {
    if n < 0x40 then 1 else if n < 0x4000 then 2 else if n < 0x4000_0000 then 4 else 5
  }

  lemma {:induction false} PutSuffix(width: nat, x: nat, rest: Bytes)
    ensures Put(width, x, rest)[width..] == rest
  {
    if width == 0 {
    } else {
      var shorter := Put(width - 1, x / 256, rest);
      PutSuffix(width - 1, x / 256, rest);
      assert ([x % 256] + shorter)[width..] == shorter[width - 1..];
    }
  }

  lemma CompactSuffix(n: nat, rest: Bytes)
    ensures |PutCompact(n, rest)| == CompactWidth(n) + |rest| && PutCompact(n, rest)[CompactWidth(n)..] == rest
  {
    if n < 0x40 {
      PutSuffix(1, 4 * n, rest);
    } else if n < 0x4000 {
      PutSuffix(2, 4 * n + 1, rest);
    } else if n < 0x4000_0000 {
      PutSuffix(4, 4 * n + 2, rest);
    } else {
      PutSuffix(4, n, rest);
      assert ([3] + Put(4, n, rest))[5..] == Put(4, n, rest)[4..];
    }
  }

  /** Bytes that end in zeros are blank at the last place a trailer fits. */
  lemma BlankAtEnd(front: Bytes, n: nat, q: nat, i: nat)
    requires q >= 51 && i == |front| + CompactWidth(n) + q - 51
    ensures |front + PutCompact(n, Zeros(q))| == i + 51
    ensures BlankAt(front + PutCompact(n, Zeros(q)), i)
  {
    var list := PutCompact(n, Zeros(q));
    CompactSuffix(n, Zeros(q));
    forall j | i <= j < i + 51 ensures (front + list)[j] == 0 {
      var w := CompactWidth(n);
      assert (front + list)[j] == list[j - |front|] == list[w..][j - |front| - w] == Zeros(q)[j - |front| - w];
    }
  }

  lemma Get4(b0: byte, b1: byte, b2: byte, b3: byte, body: Bytes)
    ensures Get(4, [b0, b1, b2, b3] + body) == Some((b0 + 256 * (b1 + 256 * (b2 + 256 * b3)), body))
  {
    var bytes := [b0, b1, b2, b3] + body;
    assert bytes[1..] == [b1, b2, b3] + body && bytes[1..][1..] == [b2, b3] + body;
    assert bytes[1..][1..][1..] == [b3] + body && bytes[1..][1..][1..][1..] == body;
    assert Get(1, [b3] + body) == Some((b3 + 256 * 0, body));
    assert Get(2, [b2, b3] + body) == Some((b2 + 256 * b3, body));
    assert Get(3, [b1, b2, b3] + body) == Some((b1 + 256 * (b2 + 256 * b3), body));
  }

  lemma FourByteLength(k: byte, c: nat, body: Bytes)
    requires k + 0x1_0000 == 4 * c + 2
    ensures GetCompact([k] + [0, 1, 0] + body) == Some((c, body))
  {
    Get4(k, 0, 1, 0, body);
    assert [k] + [0, 1, 0] + body == [k, 0, 1, 0] + body;
    assert k % 4 == 2 && (k + 0x1_0000) / 4 == c;
  }

  /** The location that makes the request end just where the length leads. */
  function LongLocation(k: nat): int {
    (if k <= 246 then 524_272 else 524_274) - 2040 * k
  }

  lemma LocationTrailer(m: nat, n: nat, i: nat)
    requires 51 <= n <= U32_MAX && i == m + CompactWidth(n) + n - 1
    ensures Encodable(BlankTrailer(n)) && BlankTrailer(n) != BlankTrailer(0)
    ensures |PutTrailer(BlankTrailer(n), [])| == 50 + CompactWidth(n) + n
    ensures BlankAt(Zeros(m) + PutTrailer(BlankTrailer(n), []), i)
  {
    var q := n + 26;
    BlankEncodable(n);
    BlankTrailerBytes(n, []);
    assert Zeros(q) + [] == Zeros(q);
    CompactSuffix(n, Zeros(q));
    ZerosJoin(m, 24, PutCompact(n, Zeros(q)));
    BlankAtEnd(Zeros(m + 24), n, q, i);
    assert |BlankTrailer(n).metadata.location| == n;
  }

  /** The first account's lower bytes complete a length beyond all signers, into the location. */
  lemma MisreadLong(h: Header, k: byte, v: AccountId, m: nat, n: nat, c: nat, limit: nat)
    requires k + 0x1_0000 == 4 * c + 2 && v == 256 && m == 2048 * k - 3 && n == LongLocation(k)
    requires limit >= 524_425 + 8 * k
    ensures !SurvivesWithin(64 * k, limit)
  {
    var t := BlankTrailer(n);
    var body := Zeros(m) + PutTrailer(t, []);
    LocationTrailer(m, n, 32 * c);
    SecondByteAccount(v, 64 * k, m, PutTrailer(t, []));
    FourByteLength(k, c, body);
    MisreadBlank(h, k, FirstThenZeros(v, 64 * k), t, [0, 1, 0], body, c, limit);
  }

  /** A trailer whose route is so many zeros, and everything else zero or empty. */
  function RouteTrailer(n: nat): Trailer
    requires n <= U32_MAX
  {
    BlankTrailer(0).(route := Zeros(n))
  }

  lemma RouteTrailerBytes(n: nat)
    requires n <= U32_MAX
    ensures PutTrailer(RouteTrailer(n), []) == Zeros(11) + PutCompact(n, Zeros(8 * n + 39))
    ensures Encodable(RouteTrailer(n))
  {
    NoLocation([]);
    PutZero(8, Zeros(27) + []);
    ZerosJoin(8, 27, []);
    PutZero(4, Zeros(35) + []);
    ZerosJoin(4, 35, []);
    PutZeros(8, n, Zeros(39) + []);
    ZerosJoin(8 * n, 39, []);
    assert Zeros(8 * n + 39) + [] == Zeros(8 * n + 39);
    RouteHead(PutCompact(n, Zeros(8 * n + 39)));
    BlankEncodable(0);
  }

  lemma RouteTrailerBlank(m: nat, n: nat, i: nat)
    requires 51 <= n <= U32_MAX && i == m + CompactWidth(n) + 8 * n - 1
    ensures Encodable(RouteTrailer(n)) && RouteTrailer(n) != BlankTrailer(0)
    ensures |PutTrailer(RouteTrailer(n), [])| == 50 + CompactWidth(n) + 8 * n
    ensures BlankAt(Zeros(m) + PutTrailer(RouteTrailer(n), []), i)
  {
    var q := 8 * n + 39;
    RouteTrailerBytes(n);
    CompactSuffix(n, Zeros(q));
    ZerosJoin(m, 11, PutCompact(n, Zeros(q)));
    BlankAtEnd(Zeros(m + 11), n, q, i);
    assert |RouteTrailer(n).route| == n;
  }

  lemma BigLength(body: Bytes)
    ensures GetCompact([3] + [0, 0, 0, 64] + body) == Some((0x4000_0000, body))
  {
    Get4(0, 0, 0, 64, body);
    assert ([3] + [0, 0, 0, 64] + body)[1..] == [0, 0, 0, 64] + body;
    UntaggedMode(0x4000_0000, [3] + [0, 0, 0, 64] + body, body);
  }

  /** A length of its own follows the byte, and reaches to the end of a very long route. */
  lemma MisreadBig(h: Header, k: byte, v: AccountId, m: nat, n: nat, limit: nat)
    requires k == 3 && v == 0x4000_0000 && m == 2048 * k - 4 && n == 0x1_0000_0000 - 768
    requires limit >= 0x8_0000_0000 + 154
    ensures !SurvivesWithin(64 * k, limit)
  {
    var t := RouteTrailer(n);
    var body := Zeros(m) + PutTrailer(t, []);
    RouteTrailerBlank(m, n, 32 * v);
    FourthByteAccount(v, 64 * k, m, PutTrailer(t, []));
    BigLength(body);
    MisreadBlank(h, k, FirstThenZeros(v, 64 * k), t, [0, 0, 0, 64], body, v, limit);
  }

  /** The length in bytes of the shortest legacy request with so many signers that is misread. */
  function Shortest(count: nat): nat {
    var k := count / 64;
    if count == 0 then 181
    else if k == 1 then 2199
    else if k % 4 <= 1 then 2048 * k + 150
    else if k % 4 == 2 then 524_425 + 8 * k
    else 0x8_0000_0000 + 154
  }

  lemma MisreadExists(h: Header, k: byte, limit: nat)
    requires 1 <= k && (k % 4 == 3 ==> k == 3) && limit >= Shortest(64 * k)
    ensures !SurvivesWithin(64 * k, limit)
  {
    assert 64 * k / 64 == k;
    match k % 4
    case 0 => MisreadShort(h, k, 2048 * k, k / 4, limit);
    case 1 =>
      if k == 1 {
        MisreadShifted(h, k, 1, 2047, 64, BlankTrailer(1), GasTrailer(0x400_0000_0000_0000), limit);
      } else {
        MisreadMiddle(h, k, 1, 2048 * k - 1, (k + 256) / 4, limit);
      }
    case 2 => MisreadLong(h, k, 256, 2048 * k - 3, LongLocation(k), (k + 0x1_0000) / 4, limit);
    case _ => MisreadBig(h, k, 0x4000_0000, 2048 * k - 4, 0x1_0000_0000 - 768, limit);
  }

  // ----- every shorter request survives ------------------------------------------------------

  lemma {:induction false} GetTakes(width: nat, bytes: Bytes)
    requires Get(width, bytes).Some?
    ensures |bytes| == width + |Get(width, bytes).value.1|
  {
    if width == 0 {
    } else {
      GetTakes(width - 1, bytes[1..]);
    }
  }

  lemma NumberTakes(width: nat, max: nat, bytes: Bytes)
    requires GetUpTo(width, max, bytes).Some?
    ensures |bytes| == width + |GetUpTo(width, max, bytes).value.1|
  {
    GetTakes(width, bytes);
  }

  lemma {:induction false} AllTake(width: nat, max: nat, n: nat, bytes: Bytes)
    requires GetAll(width, max, n, bytes).Some?
    ensures 0 <= width * n && |bytes| == width * n + |GetAll(width, max, n, bytes).value.1|
  {
    if n == 0 {
    } else {
      NumberTakes(width, max, bytes);
      AllTake(width, max, n - 1, GetUpTo(width, max, bytes).value.1);
      assert width * n == width + width * (n - 1);
    }
  }

  lemma CompactTakes(bytes: Bytes)
    requires GetCompact(bytes).Some?
    ensures |bytes| >= 1 + |GetCompact(bytes).value.1|
  {
    match bytes[0] % 4
    case 0 =>
    case 1 => GetTakes(2, bytes);
    case 2 => GetTakes(4, bytes);
    case _ => GetTakes(4, bytes[1..]);
  }

  lemma ListTakes(width: nat, max: nat, bytes: Bytes)
    requires GetList(width, max, bytes).Some?
    ensures |bytes| >= 1 + |GetList(width, max, bytes).value.1|
  {
    CompactTakes(bytes);
    AllTake(width, max, GetCompact(bytes).value.0, GetCompact(bytes).value.1);
  }

  lemma OptionTakes(bytes: Bytes)
    requires GetOption(bytes).Some?
    ensures |bytes| >= 1 + |GetOption(bytes).value.1|
  {
    if bytes[0] == 1 {
      NumberTakes(8, U64_MAX, bytes[1..]);
    }
  }

  lemma MetadataTakes(bytes: Bytes)
    requires GetMetadata(bytes).Some?
    ensures |bytes| >= 27 + |GetMetadata(bytes).value.1|
  {
    var b1 := GetText(bytes).value.1;
    var b2 := GetUpTo(8, U64_MAX, b1).value.1;
    var b3 := GetText(b2).value.1;
    var b4 := GetUpTo(16, U128_MAX, b3).value.1;
    ListTakes(1, 255, bytes);
    NumberTakes(8, U64_MAX, b1);
    ListTakes(1, 255, b2);
    NumberTakes(16, U128_MAX, b3);
    ListTakes(1, 255, b4);
  }

  /** No trailer is shorter than a blank one. */
  lemma TrailerTakes(bytes: Bytes)
    requires GetTrailer(bytes).Some?
    ensures |bytes| >= 51 + |GetTrailer(bytes).value.1|
  {
    var b1 := GetUpTo(8, U64_MAX, bytes).value.1;
    var b2 := GetOption(b1).value.1;
    var b3 := GetTag(STATUSES, b2).value.1;
    var b4 := GetTag(HOP_STATUSES, b3).value.1;
    var b5 := GetList(8, U64_MAX, b4).value.1;
    var b6 := GetUpTo(4, U32_MAX, b5).value.1;
    var b7 := GetUpTo(8, U64_MAX, b6).value.1;
    NumberTakes(8, U64_MAX, bytes);
    OptionTakes(b1);
    ListTakes(8, U64_MAX, b4);
    NumberTakes(4, U32_MAX, b5);
    NumberTakes(8, U64_MAX, b6);
    MetadataTakes(b7);
  }

  lemma TrailerLength(t: Trailer)
    requires Encodable(t)
    ensures |PutTrailer(t, [])| >= 51
  {
    TrailerRoundTrip(t, []);
    TrailerTakes(PutTrailer(t, []));
  }

  /** A misread request is one in which the bytes behind the header read as tagged signatures and a
      trailer. */
  lemma MisreadParses(h: Header, signers: seq<AccountId>, t: Trailer)
    requires Encodable(t) && |signers| <= U32_MAX && !Kept(h, signers, t)
    ensures var b1 := PutList(32, signers, PutTrailer(t, []));
      GetStorage(b1).Some? && GetTrailer(GetStorage(b1).value.1).Some?
  {
    HeaderRoundTrip(h, PutList(32, signers, PutTrailer(t, [])));
    LegacyRoundTrip(h, signers, t, []);
  }

  lemma BitmapTakes(bytes: Bytes)
    requires bytes != [] && bytes[0] == 0 && GetStorage(bytes).Some?
    ensures |bytes| == 33 + |GetStorage(bytes).value.1|
  {
  }

  /** How many bytes a length that starts with `k` takes, and what it comes to at least. */
  lemma LengthFrom(k: byte, body: Bytes)
    requires GetCompact([k] + body).Some?
    ensures var (c, rest) := GetCompact([k] + body).value;
      && (k == 1 ==> c >= 64 && |body| == 1 + |rest|)
      && (k % 4 == 2 ==> 4 * c >= 0x1_0000 + k - 2 && |body| == 3 + |rest|)
      && (k == 3 ==> c >= 0x4000_0000 && |body| == 4 + |rest|)
  {
    var bytes := [k] + body;
    assert bytes[1..] == body;
    if k % 4 == 1 {
      GetTakes(2, bytes);
    } else if k % 4 == 2 {
      GetTakes(4, bytes);
      assert Get(4, bytes).value.0 == k + 256 * Get(3, body).value.0;
      HighPart(k, Get(3, body).value.0);
    } else if k == 3 {
      GetTakes(4, body);
    }
  }

  lemma HighPart(k: byte, high: nat)
    requires k % 4 == 2 && (k + 256 * high) / 4 > 0x3FFF
    ensures 4 * ((k + 256 * high) / 4) >= 0x1_0000 + k - 2
  {
    assert high >= 256;
    assert (k + 256 * high) % 4 == 2;
  }

  lemma ListOfTagged(k: byte, body: Bytes)
    requires GetStorage([1, k] + body).Some?
    ensures GetList(32, ACCOUNTS - 1, [k] + body).Some?
    ensures GetStorage([1, k] + body).value.1 == GetList(32, ACCOUNTS - 1, [k] + body).value.1
  {
    assert ([1, k] + body)[1..] == [k] + body;
  }

  /** A list misread as one of another length is long enough for the accounts that length asks for. */
  lemma TaggedTakes(k: byte, body: Bytes)
    requires GetStorage([1, k] + body).Some? && GetTrailer(GetStorage([1, k] + body).value.1).Some?
    ensures k == 1 ==> |body| >= 2100
    ensures k % 4 == 2 ==> |body| >= 524_326 + 8 * k
    ensures k == 3 ==> |body| >= 0x8_0000_0000 + 55
  {
    ListOfTagged(k, body);
    var (c, rest) := GetCompact([k] + body).value;
    LengthFrom(k, body);
    AllTake(32, ACCOUNTS - 1, c, rest);
    TrailerTakes(GetStorage([1, k] + body).value.1);
  }

  /** No misread request is shorter than the shortest given above. */
  lemma MisreadIsLong(h: Header, signers: seq<AccountId>, t: Trailer)
    requires Encodable(t) && |signers| <= U32_MAX && !Kept(h, signers, t)
    ensures Ambiguous(|signers|) && |EncodeLegacy(h, signers, t, [])| >= Shortest(|signers|)
  {
    if !Ambiguous(|signers|) {
      DecodeLegacy(h, signers, t, []);
    }
    MisreadParses(h, signers, t);
    TrailerLength(t);
    if signers == [] {
      UnsignedLength(h, t);
      NoEntries(32, PutTrailer(t, []));
      BitmapTakes([0] + PutTrailer(t, []));
      TrailerTakes(GetStorage([0] + PutTrailer(t, [])).value.1);
    } else {
      var k: byte := |signers| / 64;
      var body := PutAll(32, signers, PutTrailer(t, []));
      TaggedLength(h, k, signers, t);
      AllLength(32, signers, PutTrailer(t, []));
      LengthLikeTag(k, body);
      TaggedTakes(k, body);
    }
  }

  // ----- the results -------------------------------------------------------------------------

  /** Every legacy request with a given number of signers, and no longer than a given limit, survives
      exactly when the number is not ambiguous or the limit is below the shortest misread one. */
  lemma LegacyListsWithin(count: u32, limit: nat)
    ensures SurvivesWithin(count, limit) <==> !Ambiguous(count) || limit < Shortest(count)
  {
    var h := Header(0, 0, 0, 0, 0, 0, 0);
    if !Ambiguous(count) || limit < Shortest(count) {
      forall g: Header, signers: seq<AccountId>, t: Trailer
        | |signers| == count && Encodable(t) && |EncodeLegacy(g, signers, t, [])| <= limit
        ensures Kept(g, signers, t)
      {
        if !Kept(g, signers, t) {
          MisreadIsLong(g, signers, t);
        }
      }
    } else if count == 0 {
      UnsignedDoNotSurvive(h, 32, 128, limit);
    } else {
      MisreadExists(h, count / 64, limit);
    }
  }

  /** Of any length at all, they survive exactly when the number is not ambiguous: neither zero nor a
      multiple of 64 below 16384, but for those whose quotient is three modulo four and not three. */
  lemma LegacyListsExactly(count: u32)
    ensures Survives(count) <==> !Ambiguous(count)
  {
    if Ambiguous(count) {
      LegacyListsWithin(count, Shortest(count));
      assert Survives(count) ==> SurvivesWithin(count, Shortest(count));
    } else {
      forall h: Header, signers: seq<AccountId>, t: Trailer | |signers| == count && Encodable(t)
        ensures Kept(h, signers, t)
      {
        DecodeLegacy(h, signers, t, []);
      }
    }
  }

  lemma ShortestOf(k: nat, limit: nat)
    requires 1 <= k < 256 && limit == 0x4000 && Shortest(64 * k) <= limit
    ensures k == 1 || k == 4 || k == 5
  {
    assert 64 * k / 64 == k;
  }

  lemma RiskyWithin16K(count: nat, limit: nat)
    requires limit == 0x4000
    ensures Ambiguous(count) && Shortest(count) <= limit <==> count == 0 || count == 64 || count == 256 || count == 320
  {
    if Ambiguous(count) && Shortest(count) <= limit && count != 0 {
      assert count == 64 * (count / 64);
      ShortestOf(count / 64, limit);
    }
  }

  /** Of those that fit into sixteen kilobytes, only requests with 0, 64, 256 or 320 signers are at
      risk, and those are. */
  lemma LegacyListsWithin16K(count: u32, limit: nat)
    requires limit == 0x4000
    ensures SurvivesWithin(count, limit) <==> count != 0 && count != 64 && count != 256 && count != 320
  {
    LegacyListsWithin(count, limit);
    RiskyWithin16K(count, limit);
  }
}
