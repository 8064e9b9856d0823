/** Machine integers and message outcomes shared by every contract.

    The workspace compiles with overflow checks on (`Cargo.toml:54`), so a plain `+`, `-` or `*`
    that leaves its width traps. A trap and a returned `Err` have the same effect on chain: the
    runtime discards every write of the message. `Outcome` is that observable effect. */
module Machine {

  const U8_MAX: nat := 0xFF
  const U32_MAX: nat := 0xFFFF_FFFF
  const U64_MAX: nat := 0xFFFF_FFFF_FFFF_FFFF
  const U128_MAX: nat := 0xFFFF_FFFF_FFFF_FFFF_FFFF_FFFF_FFFF_FFFF

  type u8 = x: int | 0 <= x <= U8_MAX
  type u32 = x: int | 0 <= x <= U32_MAX
  type u64 = x: int | 0 <= x <= U64_MAX
  type u128 = x: int | 0 <= x <= U128_MAX

  /** An account identifier: 32 opaque bytes, read as a number. */
  const ACCOUNTS: nat := 0x1_0000_0000_0000_0000_0000_0000_0000_0000_0000_0000_0000_0000_0000_0000_0000_0000

  type AccountId = x: int | 0 <= x < ACCOUNTS

  type ChainId = u64

  /** What a message leaves behind: a new state and its result, or nothing at all. */
  datatype Outcome<+S, +V, +E> = Committed(state: S, value: V) | Reverted(error: E)

  datatype Result<+V, +E> = Ok(value: V) | Err(error: E)

  datatype Option<+T> = None | Some(value: T) {
    predicate IsFailure() {
      None?
    }

    function PropagateFailure<U>(): Option<U>
      requires None?
    {
      None
    }

    function Extract(): T
      requires Some?
    {
      value
    }
  }

  function Min(a: int, b: int): (m: int)
    ensures m <= a && m <= b && (m == a || m == b)
  {
    if a <= b then a else b
  }

  function SaturatingAdd(width: nat, a: nat, b: nat): (r: nat)
    ensures r <= width && r <= a + b
    ensures a + b <= width ==> r == a + b
    ensures a + b > width ==> r == width
  {
    Min(width, a + b)
  }

  function SaturatingSub(a: nat, b: nat): (r: nat)
    ensures b <= a ==> r == a - b
    ensures b > a ==> r == 0
  {
    if b <= a then a - b else 0
  }

  lemma MulNonNegative(a: nat, b: nat)
    ensures 0 <= a * b
  {
  }

  function SaturatingMul(width: nat, a: nat, b: nat): (r: nat)
    requires 0 <= a * b
    ensures r <= width && r <= a * b
    ensures a * b <= width ==> r == a * b
    ensures a * b > width ==> r == width
  {
    Min(width, a * b)
  }

  function GetOr<K, V>(m: map<K, V>, k: K, default: V): V {
    if k in m then m[k] else default
  }

  const DAY_MS: u64 := 86_400_000

  ghost predicate Distinct(list: seq<AccountId>) {
    forall i, j :: 0 <= i < j < |list| ==> list[i] != list[j]
  }

  /** A run without its last step, and that step. */
  ghost function Earlier<T>(run: seq<T>): seq<T>
    requires run != []
  {
    run[..|run| - 1]
  }

  ghost function Last<T>(run: seq<T>): T
    requires run != []
  {
    run[|run| - 1]
  }

  /** `Vec::retain` with everything but one account. */
  function Without(list: seq<AccountId>, a: AccountId): (r: seq<AccountId>)
    ensures forall x :: x in r <==> x in list && x != a
  {
    if list == [] then []
    else
      var n := |list| - 1;
      Without(list[..n], a) + if list[n] != a then [list[n]] else []
  }
}
