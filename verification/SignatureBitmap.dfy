/** Signer sets stored as 256-bit bitmaps over stable validator slots. */
module SignatureBitmap {
  import opened Machine

  const BITMAP_BYTES: nat := 32
  const MAX_SLOTS: nat := 8 * BITMAP_BYTES

  type Bitmap = b: seq<bv8> | |b| == BITMAP_BYTES witness seq(BITMAP_BYTES, _ => 0 as bv8)

  function NoSignatures(): Bitmap {
    seq(BITMAP_BYTES, _ => 0 as bv8)
  }

  // ----- bits ------------------------------------------------------------------------------

  /** One shifted left by the given distance, as a table. */
  function Mask(shift: nat): (m: bv8)
    requires shift < 8
  {
    match shift
    case 0 => 1
    case 1 => 2
    case 2 => 4
    case 3 => 8
    case 4 => 16
    case 5 => 32
    case 6 => 64
    case _ => 128
  }

  lemma MaskIsShift(shift: nat)
    requires shift < 8
    ensures Mask(shift) == (1 as bv8) << shift
  {
  }

  predicate HasSignature(bitmap: Bitmap, bit: u8) {
    bitmap[bit / 8] & Mask(bit % 8) != 0
  }

  function SetSignature(bitmap: Bitmap, bit: u8): Bitmap {
    bitmap[bit / 8 := bitmap[bit / 8] | Mask(bit % 8)]
  }

  function Bit(b: bv8, shift: nat): nat
    requires shift < 8
  {
    if b & Mask(shift) != 0 then 1 else 0
  }

  function CountOnes(b: bv8): nat {
    Bit(b, 0) + Bit(b, 1) + Bit(b, 2) + Bit(b, 3) + Bit(b, 4) + Bit(b, 5) + Bit(b, 6) + Bit(b, 7)
  }

  function PopCount(bytes: seq<bv8>): nat {
    if bytes == [] then 0 else PopCount(bytes[..|bytes| - 1]) + CountOnes(bytes[|bytes| - 1])
  }

  /** The positions whose bit is set: what a bitmap means. */
  ghost function Positions(bitmap: Bitmap): set<u8> {
    set i: u8 | 0 <= i <= U8_MAX && HasSignature(bitmap, i)
  }

  lemma OrKeepsBits(b: bv8, i: nat, j: nat)
    requires i < 8 && j < 8
    ensures (b | Mask(i)) & Mask(j) != 0 <==> i == j || b & Mask(j) != 0
  {
    var mi, mj := Mask(i), Mask(j);
    assert mi in {1, 2, 4, 8, 16, 32, 64, 128} && mj in {1, 2, 4, 8, 16, 32, 64, 128} && (mi == mj <==> i == j);
  }

  lemma HasAfterSet(bitmap: Bitmap, i: u8, j: u8)
    ensures HasSignature(SetSignature(bitmap, i), j) <==> i == j || HasSignature(bitmap, j)
  {
    OrKeepsBits(bitmap[j / 8], i % 8, j % 8);
  }

  lemma EmptyHasNone()
    ensures Positions(NoSignatures()) == {}
  {
  }

  lemma SetAddsPosition(bitmap: Bitmap, i: u8)
    ensures Positions(SetSignature(bitmap, i)) == Positions(bitmap) + {i}
  {
    forall j: u8 ensures HasSignature(SetSignature(bitmap, i), j) <==> i == j || HasSignature(bitmap, j) {
      HasAfterSet(bitmap, i, j);
    }
  }

  // ----- counting --------------------------------------------------------------------------

  ghost function Below(bits: set<u8>, n: nat): set<u8> {
    set i | i in bits && i < n
  }

  lemma BelowNext(bits: set<u8>, n: u8)
    ensures |Below(bits, n + 1)| == |Below(bits, n)| + if n in bits then 1 else 0
  {
    if n in bits {
      assert Below(bits, n + 1) == Below(bits, n) + {n};
    } else {
      assert Below(bits, n + 1) == Below(bits, n);
    }
  }

  lemma OneMore(bitmap: Bitmap, k: nat, j: nat)
    requires k < BITMAP_BYTES && j < 8
    ensures |Below(Positions(bitmap), 8 * k + j + 1)| == |Below(Positions(bitmap), 8 * k + j)| + Bit(bitmap[k], j)
  {
    var n: u8 := 8 * k + j;
    assert n / 8 == k && n % 8 == j;
    BelowNext(Positions(bitmap), n);
  }

  function BitsBelow(b: bv8, j: nat): nat
    requires j <= 8
  {
    if j == 0 then 0 else BitsBelow(b, j - 1) + Bit(b, j - 1)
  }

  lemma {:induction false} PartOfByte(bitmap: Bitmap, k: nat, j: nat)
    requires k < BITMAP_BYTES && j <= 8
    ensures |Below(Positions(bitmap), 8 * k + j)| == |Below(Positions(bitmap), 8 * k)| + BitsBelow(bitmap[k], j)
  {
    if j == 0 {
    } else {
      PartOfByte(bitmap, k, j - 1);
      OneMore(bitmap, k, j - 1);
    }
  }

  lemma OneMoreByte(bitmap: Bitmap, k: nat)
    requires k < BITMAP_BYTES
    ensures |Below(Positions(bitmap), 8 * k + 8)| == |Below(Positions(bitmap), 8 * k)| + CountOnes(bitmap[k])
  {
    PartOfByte(bitmap, k, 8);
    AllBits(bitmap[k]);
  }

  lemma AllBits(b: bv8)
    ensures BitsBelow(b, 8) == CountOnes(b)
  {
    assert BitsBelow(b, 1) == Bit(b, 0);
    assert BitsBelow(b, 2) == Bit(b, 0) + Bit(b, 1);
    assert BitsBelow(b, 4) == BitsBelow(b, 2) + Bit(b, 2) + Bit(b, 3);
    assert BitsBelow(b, 6) == BitsBelow(b, 4) + Bit(b, 4) + Bit(b, 5);
  }

  lemma {:induction false} PopCountPrefix(bitmap: Bitmap, k: nat)
    requires k <= BITMAP_BYTES
    ensures PopCount(bitmap[..k]) == |Below(Positions(bitmap), 8 * k)|
  {
    if k == 0 {
      assert Below(Positions(bitmap), 0) == {};
    } else {
      PopCountPrefix(bitmap, k - 1);
      OneMoreByte(bitmap, k - 1);
      assert bitmap[..k][..k - 1] == bitmap[..k - 1];
    }
  }

  /** The byte-wise population count is the number of signers. */
  lemma PopCountIsCardinality(bitmap: Bitmap)
    ensures PopCount(bitmap) == |Positions(bitmap)| <= MAX_SLOTS
  {
    PopCountPrefix(bitmap, BITMAP_BYTES);
    assert bitmap[..BITMAP_BYTES] == bitmap;
    assert Below(Positions(bitmap), MAX_SLOTS) == Positions(bitmap);
    AtMostSlots(Positions(bitmap), MAX_SLOTS);
  }

  lemma {:induction false} AtMostSlots(positions: set<u8>, n: nat)
    requires forall i :: i in positions ==> i < n
    ensures |positions| <= n
  {
    if n == 0 {
      assert positions == {};
    } else {
      AtMostSlots(positions - {n - 1}, n - 1);
    }
  }

  /** Adding an absent signature raises the population count by exactly one. */
  lemma SetRaisesPopCount(bitmap: Bitmap, i: u8)
    ensures PopCount(SetSignature(bitmap, i)) == PopCount(bitmap) + if HasSignature(bitmap, i) then 0 else 1
  {
    PopCountIsCardinality(bitmap);
    PopCountIsCardinality(SetSignature(bitmap, i));
    SetAddsPosition(bitmap, i);
    if HasSignature(bitmap, i) {
      assert Positions(bitmap) + {i} == Positions(bitmap);
    }
  }

  // ----- the two storage formats -----------------------------------------------------------

  datatype SignatureStorage = Stored(bitmap: Bitmap) | Legacy(signers: seq<AccountId>)

  /** The count is cast to one byte, so it wraps when all 256 slots have signed. */
  function SignatureCount(storage: SignatureStorage): u8 {
    match storage
    case Stored(bitmap) => PopCount(bitmap) % 256
    case Legacy(signers) => |signers| % 256
  }

  /** The count is right exactly when the bitmap is not full. */
  lemma CountIsExact(bitmap: Bitmap)
    ensures SignatureCount(Stored(bitmap)) == |Positions(bitmap)| <==> |Positions(bitmap)| < MAX_SLOTS
    ensures |Positions(bitmap)| == MAX_SLOTS ==> SignatureCount(Stored(bitmap)) == 0
  {
    PopCountIsCardinality(bitmap);
  }

  function AllSignatures(): Bitmap {
    seq(BITMAP_BYTES, _ => 255 as bv8)
  }

  lemma {:induction false} AllOnes(n: nat)
    requires n <= BITMAP_BYTES
    ensures PopCount(AllSignatures()[..n]) == 8 * n
  {
    if n == 0 {
    } else {
      AllOnes(n - 1);
      assert AllSignatures()[..n][..n - 1] == AllSignatures()[..n - 1];
      assert CountOnes(255) == 8;
    }
  }

  /** With all 256 signatures given the count is zero. */
  lemma FullCountsZero()
    ensures |Positions(AllSignatures())| == MAX_SLOTS && SignatureCount(Stored(AllSignatures())) == 0
  {
    AllOnes(BITMAP_BYTES);
    assert AllSignatures()[..BITMAP_BYTES] == AllSignatures();
    PopCountIsCardinality(AllSignatures());
  }

  // ----- validator slots -------------------------------------------------------------------

  datatype SlotError = SlotsExhausted | NotAValidator

  datatype Registry = Registry(
    validators: seq<AccountId>,
    positions: map<AccountId, u8>,
    slots: seq<Option<AccountId>>)

  /** Slots and positions are inverse to each other; so no account sits in two slots. */
  ghost predicate SlotsMatch(g: Registry) {
    && |g.slots| <= MAX_SLOTS
    && (forall i :: 0 <= i < |g.slots| ==>
          g.slots[i].Some? && g.slots[i].value in g.positions && g.positions[g.slots[i].value] == i)
    && (forall a :: a in g.positions ==> g.positions[a] < |g.slots| && g.slots[g.positions[a]] == Some(a))
  }

  /** Every slot and every position of the earlier registry is still there, unmoved. */
  ghost predicate Extends(later: Registry, earlier: Registry) {
    && earlier.slots <= later.slots
    && (forall a :: a in earlier.positions ==> a in later.positions && later.positions[a] == earlier.positions[a])
  }

  function Assign(g: Registry, validator: AccountId): Outcome<Registry, u8, SlotError> {
    if validator in g.positions then Committed(g, g.positions[validator])
    else if |g.slots| >= MAX_SLOTS then Reverted(SlotsExhausted)
    else
      Committed(
        g.(slots := g.slots + [Some(validator)], positions := g.positions[validator := |g.slots|]),
        |g.slots|)
  }

  function PositionOf(g: Registry, validator: AccountId): Outcome<Registry, u8, SlotError> {
    if validator in g.positions then Committed(g, g.positions[validator])
    else if validator !in g.validators then Reverted(NotAValidator)
    else Assign(g, validator)
  }

  lemma AssignKeepsSlots(g: Registry, validator: AccountId)
    requires SlotsMatch(g)
    ensures var o := Assign(g, validator);
      o.Committed? ==>
        && SlotsMatch(o.state) && Extends(o.state, g) && o.state.validators == g.validators
        && validator in o.state.positions && o.state.positions[validator] == o.value
        && o.state.positions.Keys == g.positions.Keys + {validator}
  {
  }

  lemma ExtendsTransitive(c: Registry, b: Registry, a: Registry)
    requires Extends(c, b) && Extends(b, a)
    ensures Extends(c, a)
  {
  }

  ghost function Accounts(list: seq<AccountId>): set<AccountId> {
    set a | a in list
  }

  // ----- signers ---------------------------------------------------------------------------

  /** The accounts a bitmap stands for. */
  ghost function SignersOf(g: Registry, bitmap: Bitmap): set<AccountId> {
    AccountsAt(g, Positions(bitmap))
  }

  ghost function AccountsAt(g: Registry, bits: set<u8>): set<AccountId> {
    set a | a in g.positions && g.positions[a] in bits
  }

  /** Every set bit belongs to an assigned slot. */
  ghost predicate BitsAssigned(g: Registry, bitmap: Bitmap) {
    forall i :: i in Positions(bitmap) ==> i < |g.slots|
  }

  lemma NobodySigned(g: Registry)
    ensures SignersOf(g, NoSignatures()) == {} && BitsAssigned(g, NoSignatures())
  {
    EmptyHasNone();
  }

  /** A registry that only grew reads every old bitmap as before. */
  lemma GrowthKeepsSigners(later: Registry, earlier: Registry, bitmap: Bitmap)
    requires SlotsMatch(earlier) && SlotsMatch(later) && Extends(later, earlier) && BitsAssigned(earlier, bitmap)
    ensures SignersOf(later, bitmap) == SignersOf(earlier, bitmap) && BitsAssigned(later, bitmap)
  {
    forall a | a in SignersOf(later, bitmap) ensures a in SignersOf(earlier, bitmap) {
      var i := later.positions[a];
      assert earlier.slots[i] == later.slots[i];
    }
  }

  lemma SetAddsSigner(g: Registry, bitmap: Bitmap, a: AccountId)
    requires SlotsMatch(g) && BitsAssigned(g, bitmap) && a in g.positions
    ensures var bitmap' := SetSignature(bitmap, g.positions[a]);
      SignersOf(g, bitmap') == SignersOf(g, bitmap) + {a} && BitsAssigned(g, bitmap')
  {
    SetAddsPosition(bitmap, g.positions[a]);
  }

  /** As many signers as set bits. */
  lemma SignersCounted(g: Registry, bitmap: Bitmap)
    requires SlotsMatch(g) && BitsAssigned(g, bitmap)
    ensures |SignersOf(g, bitmap)| == PopCount(bitmap)
  {
    PopCountIsCardinality(bitmap);
    SameSize(g, SignersOf(g, bitmap), Positions(bitmap));
  }

  lemma {:induction false} SameSize(g: Registry, accounts: set<AccountId>, bits: set<u8>)
    requires SlotsMatch(g) && accounts <= g.positions.Keys
    requires forall a :: a in accounts ==> g.positions[a] in bits
    requires forall i :: i in bits ==> i < |g.slots| && g.slots[i].value in accounts
    ensures |accounts| == |bits|
  {
    if accounts == {} {
      if i :| i in bits {
        assert false;
      }
    } else {
      var a :| a in accounts;
      SameSize(g, accounts - {a}, bits - {g.positions[a]});
    }
  }

  /** The signer list: the accounts of the slots below `n` whose bit is set, in slot order. */
  function SignerList(slots: seq<Option<AccountId>>, bitmap: Bitmap): seq<AccountId> {
    if slots == [] then []
    else
      var n := |slots| - 1;
      SignerList(slots[..n], bitmap)
      + if slots[n].Some? && HasSignature(bitmap, n % 256) then [slots[n].value] else []
  }

  /** The list names, once each, the accounts of the given bits below `n`. */
  ghost predicate Lists(g: Registry, bits: set<u8>, n: nat, list: seq<AccountId>) {
    && (forall a :: a in list <==> a in AccountsAt(g, bits) && g.positions[a] < n)
    && Distinct(list)
  }

  lemma ListsOneMore(g: Registry, bits: set<u8>, n: nat, list: seq<AccountId>)
    requires SlotsMatch(g) && n < |g.slots| && Lists(g, bits, n, list)
    ensures Lists(g, bits, n + 1, list + if n in bits then [g.slots[n].value] else [])
  {
    var a := g.slots[n].value;
    assert a !in list;
    forall b | b in AccountsAt(g, bits) && g.positions[b] == n ensures b == a {
      assert g.slots[n] == Some(b);
    }
  }

  ghost predicate ListsPrefix(g: Registry, bitmap: Bitmap, n: nat) {
    n <= |g.slots| && Lists(g, Positions(bitmap), n, SignerList(g.slots[..n], bitmap))
  }

  lemma PrefixGrows(g: Registry, bitmap: Bitmap, n: nat)
    requires SlotsMatch(g) && n < |g.slots| && ListsPrefix(g, bitmap, n)
    ensures ListsPrefix(g, bitmap, n + 1)
  {
    SignerListStep(g, bitmap, n);
    ListsOneMore(g, Positions(bitmap), n, SignerList(g.slots[..n], bitmap));
  }

  lemma {:induction false} SignerListPrefix(g: Registry, bitmap: Bitmap, n: nat)
    requires SlotsMatch(g) && n <= |g.slots|
    ensures ListsPrefix(g, bitmap, n)
  {
    if n == 0 {
      assert SignerList(g.slots[..0], bitmap) == [];
    } else {
      SignerListPrefix(g, bitmap, n - 1);
      PrefixGrows(g, bitmap, n - 1);
    }
  }

  lemma SignerListStep(g: Registry, bitmap: Bitmap, n: nat)
    requires SlotsMatch(g) && n < |g.slots|
    ensures SignerList(g.slots[..n + 1], bitmap)
         == SignerList(g.slots[..n], bitmap) + if n in Positions(bitmap) then [g.slots[n].value] else []
  {
    ghost var slots: seq<Option<AccountId>> := g.slots[..n + 1];
    assert slots[..n] == g.slots[..n] && slots[n] == g.slots[n];
    assert n % 256 == n;
    assert HasSignature(bitmap, n) <==> n in Positions(bitmap);
  }

  lemma {:induction false} DistinctLength(list: seq<AccountId>)
    requires Distinct(list)
    ensures |Accounts(list)| == |list|
  {
    if list == [] {
    } else {
      var n := |list| - 1;
      DistinctLength(list[..n]);
      assert Accounts(list) == Accounts(list[..n]) + {list[n]};
    }
  }

  /** The signer list names every signer once, and is as long as the population count. */
  lemma SignerListIsExact(g: Registry, bitmap: Bitmap)
    requires SlotsMatch(g) && BitsAssigned(g, bitmap)
    ensures var list := SignerList(g.slots, bitmap);
      && (forall a :: a in list <==> a in SignersOf(g, bitmap))
      && Distinct(list)
      && |list| == |SignersOf(g, bitmap)| == PopCount(bitmap)
  {
    assert g.slots[..|g.slots|] == g.slots;
    SignerListPrefix(g, bitmap, |g.slots|);
    var list := SignerList(g.slots, bitmap);
    DistinctLength(list);
    assert Accounts(list) == SignersOf(g, bitmap);
    SignersCounted(g, bitmap);
  }

  // ----- migrating legacy lists ------------------------------------------------------------

  /** Sets the bit of every listed signer, assigning slots to validators that have none yet. */
  function Collect(g: Registry, signers: seq<AccountId>): Outcome<Registry, Bitmap, SlotError> {
    if signers == [] then Committed(g, NoSignatures())
    else
      var n := |signers| - 1;
      var o := Collect(g, signers[..n]);
      if o.Reverted? then o
      else
        var p := PositionOf(o.state, signers[n]);
        if p.Reverted? then Reverted(p.error) else Committed(p.state, SetSignature(o.value, p.value))
  }

  /** A prefix of the signers that cannot be migrated spoils the whole list. */
  lemma {:induction false} CollectFailsEarly(g: Registry, signers: seq<AccountId>, n: nat)
    requires n <= |signers| && Collect(g, signers[..n]).Reverted?
    ensures Collect(g, signers) == Collect(g, signers[..n])
  {
    if n == |signers| {
      assert signers[..n] == signers;
    } else {
      assert signers[..|signers| - 1][..n] == signers[..n];
      CollectFailsEarly(g, signers[..|signers| - 1], n);
    }
  }

  /** A bitmap over a grown registry that stands for exactly the given accounts. */
  ghost predicate Migrated(g: Registry, g': Registry, bitmap: Bitmap, accounts: set<AccountId>) {
    && SlotsMatch(g') && Extends(g', g) && g'.validators == g.validators
    && BitsAssigned(g', bitmap)
    && SignersOf(g', bitmap) == accounts
  }

  lemma MigratesOneMore(g: Registry, g': Registry, bitmap: Bitmap, accounts: set<AccountId>, a: AccountId)
    requires Migrated(g, g', bitmap, accounts) && PositionOf(g', a).Committed?
    ensures var o := PositionOf(g', a);
      Migrated(g, o.state, SetSignature(bitmap, o.value), accounts + {a})
  {
    var g'' := PositionOf(g', a).state;
    AssignKeepsSlots(g', a);
    ExtendsTransitive(g'', g', g);
    GrowthKeepsSigners(g'', g', bitmap);
    SetAddsSigner(g'', bitmap, a);
  }

  /** A migrated bitmap stands for exactly the accounts of the list it came from. */
  lemma {:induction false} CollectKeepsSigners(g: Registry, signers: seq<AccountId>)
    requires SlotsMatch(g)
    ensures var o := Collect(g, signers);
      o.Committed? ==> Migrated(g, o.state, o.value, Accounts(signers))
  {
    if signers == [] {
      NobodySigned(g);
    } else {
      var n := |signers| - 1;
      CollectKeepsSigners(g, signers[..n]);
      var o := Collect(g, signers[..n]);
      assert Accounts(signers) == Accounts(signers[..n]) + {signers[n]};
      if o.Committed? && PositionOf(o.state, signers[n]).Committed? {
        MigratesOneMore(g, o.state, o.value, Accounts(signers[..n]), signers[n]);
      }
    }
  }

  /** How many accounts of a list have no slot, each counted where it is first listed. */
  ghost function Unplaced(g: Registry, signers: seq<AccountId>): nat {
    if signers == [] then 0
    else
      var n := |signers| - 1;
      Unplaced(g, signers[..n]) + if signers[n] in g.positions || signers[n] in signers[..n] then 0 else 1
  }

  /** Every listed signer has a slot or is a validator, and the slots that are missing are free. */
  ghost predicate CanPlace(g: Registry, signers: seq<AccountId>) {
    && (forall a :: a in signers ==> a in g.positions || a in g.validators)
    && |g.slots| + Unplaced(g, signers) <= MAX_SLOTS
  }

  /** Exactly the signers were placed, in as many new slots as were missing. */
  ghost predicate Placed(g: Registry, signers: seq<AccountId>, g': Registry) {
    && g'.validators == g.validators
    && (forall a: AccountId :: a in g'.positions <==> a in g.positions || a in signers)
    && |g'.slots| == |g.slots| + Unplaced(g, signers)
  }

  lemma UnplacedOneMore(g: Registry, earlier: seq<AccountId>, a: AccountId)
    ensures Unplaced(g, earlier + [a]) == Unplaced(g, earlier) + if a in g.positions || a in earlier then 0 else 1
  {
    assert (earlier + [a])[..|earlier|] == earlier;
  }

  /** Looking up a position adds at most the account's own, in one new slot. */
  lemma PositionEffect(g: Registry, a: AccountId)
    ensures PositionOf(g, a).Committed? <==>
      a in g.positions || (a in g.validators && |g.slots| < MAX_SLOTS)
    ensures PositionOf(g, a).Committed? ==>
      var g' := PositionOf(g, a).state;
      && g'.validators == g.validators && g'.positions.Keys == g.positions.Keys + {a}
      && |g'.slots| == |g.slots| + if a in g.positions then 0 else 1
  {
  }

  lemma PlacesOneMore(g: Registry, earlier: seq<AccountId>, g': Registry, a: AccountId)
    requires Placed(g, earlier, g')
    ensures PositionOf(g', a).Committed? <==>
      || a in g.positions || a in earlier
      || (a in g.validators && |g.slots| + Unplaced(g, earlier) < MAX_SLOTS)
    ensures PositionOf(g', a).Committed? ==> Placed(g, earlier + [a], PositionOf(g', a).state)
  {
    UnplacedOneMore(g, earlier, a);
    PositionEffect(g', a);
    if PositionOf(g', a).Committed? {
      PlacedOneMore(g, earlier, g', a, PositionOf(g', a).state);
    }
  }

  lemma PlacedOneMore(g: Registry, earlier: seq<AccountId>, g': Registry, a: AccountId, g'': Registry)
    requires Placed(g, earlier, g')
    requires g''.validators == g'.validators && g''.positions.Keys == g'.positions.Keys + {a}
    requires |g''.slots| == |g'.slots| + if a in g'.positions then 0 else 1
    ensures Placed(g, earlier + [a], g'')
  {
    UnplacedOneMore(g, earlier, a);
    forall x: AccountId ensures x in g''.positions <==> x in g.positions || x in earlier + [a] {
      assert x in g''.positions.Keys <==> x in g'.positions.Keys || x == a;
      assert x in earlier + [a] <==> x in earlier || x == a;
    }
  }

  lemma CanPlaceOneMore(g: Registry, earlier: seq<AccountId>, a: AccountId)
    ensures CanPlace(g, earlier + [a]) <==>
      && CanPlace(g, earlier)
      && (a in g.positions || a in earlier
          || (a in g.validators && |g.slots| + Unplaced(g, earlier) < MAX_SLOTS))
  {
    UnplacedOneMore(g, earlier, a);
    assert forall x :: x in earlier + [a] <==> x in earlier || x == a;
  }

  /** Migration succeeds exactly when every signer can be placed, and then places exactly those. */
  lemma {:induction false} CollectSucceeds(g: Registry, signers: seq<AccountId>)
    requires |g.slots| <= MAX_SLOTS
    ensures Collect(g, signers).Committed? <==> CanPlace(g, signers)
    ensures Collect(g, signers).Committed? ==> Placed(g, signers, Collect(g, signers).state)
  {
    if signers == [] {
    } else {
      var n := |signers| - 1;
      CollectSucceeds(g, signers[..n]);
      CanPlaceOneMore(g, signers[..n], signers[n]);
      assert signers == signers[..n] + [signers[n]];
      if Collect(g, signers[..n]).Committed? {
        PlacesOneMore(g, signers[..n], Collect(g, signers[..n]).state, signers[n]);
      }
    }
  }

  lemma {:induction false} NobodyUnplaced(g: Registry, signers: seq<AccountId>)
    requires forall a :: a in signers ==> a in g.positions
    ensures Unplaced(g, signers) == 0
  {
    if signers == [] {
    } else {
      NobodyUnplaced(g, signers[..|signers| - 1]);
    }
  }

  /** Where every validator has a slot, migration succeeds exactly when every signer has one, and
      then assigns nothing. */
  lemma PlacedSignersMigrate(g: Registry, signers: seq<AccountId>)
    requires SlotsMatch(g) && forall v :: v in g.validators ==> v in g.positions
    ensures Collect(g, signers).Committed? <==> forall a :: a in signers ==> a in g.positions
    ensures Collect(g, signers).Committed? ==> Collect(g, signers).state == g
  {
    CollectSucceeds(g, signers);
    CollectKeepsSigners(g, signers);
    if forall a :: a in signers ==> a in g.positions {
      NobodyUnplaced(g, signers);
      if Collect(g, signers).Committed? {
        SameRegistry(Collect(g, signers).state, g);
      }
    }
  }

  lemma SameRegistry(later: Registry, earlier: Registry)
    requires Extends(later, earlier) && later.validators == earlier.validators
    requires |later.slots| == |earlier.slots|
    requires forall a: AccountId :: a in later.positions <==> a in earlier.positions
    ensures later == earlier
  {
    assert later.slots == earlier.slots;
    assert later.positions == earlier.positions;
  }

  /** The bitmap form of either storage format, and the registry after any slots it assigned. */
  function Normalize(g: Registry, storage: SignatureStorage): Outcome<Registry, Bitmap, SlotError> {
    if storage.Stored? then Committed(g, storage.bitmap) else Collect(g, storage.signers)
  }

  /** The signers either storage format stands for. */
  ghost function Signers(g: Registry, storage: SignatureStorage): set<AccountId> {
    if storage.Stored? then SignersOf(g, storage.bitmap) else Accounts(storage.signers)
  }

  ghost predicate Readable(g: Registry, storage: SignatureStorage) {
    storage.Stored? ==> BitsAssigned(g, storage.bitmap)
  }

  lemma NormalizeKeepsSigners(g: Registry, storage: SignatureStorage)
    requires SlotsMatch(g) && Readable(g, storage)
    ensures var o := Normalize(g, storage);
      o.Committed? ==> Migrated(g, o.state, o.value, Signers(g, storage))
  {
    if storage.Legacy? {
      CollectKeepsSigners(g, storage.signers);
    }
  }
}
