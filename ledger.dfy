/** Ledger primitives of the system contract: account names, symbols and assets,
    the bit-flag helpers and the time, refund and pay-split constants. */
module Ledger {

  newtype uint8 = x: int | 0 <= x < 0x100
  newtype uint16 = x: int | 0 <= x < 0x1_0000
  newtype uint32 = x: int | 0 <= x < 0x1_0000_0000
  newtype uint64 = x: int | 0 <= x < 0x1_0000_0000_0000_0000
  newtype int64 = x: int | -0x8000_0000_0000_0000 <= x < 0x8000_0000_0000_0000

  /** An account name in its 64-bit encoding (five bits per character, first
      character in the highest bits). */
  type Name = uint64

  /** A microsecond time point; `time_point()` is the zero value. */
  type TimePoint = int
  const EpochTime: TimePoint := 0

  datatype Symbol = Symbol(precision: nat, code: string)

  /** A fixed-point amount of some symbol. */
  datatype Asset = Asset(amount: int, symbol: Symbol)

  datatype Option<T> = None | Some(value: T)

  /** The outcome of an action: success, or the first check that failed. */
  datatype Status<E> = Ok | Fail(error: E)

  /** The outcome of an action whose first failing check, if any, is `err`. */
  function Outcome<E>(err: Option<E>): (st: Status<E>)
    ensures st.Ok? <==> err.None?
    ensures err.Some? ==> st.error == err.value
  {
    if err.None? then Ok else Fail(err.value)
  }

  // ---------------------------------------------------------------------------
  // Flag helpers over an 8-bit unsigned flag word

  /** The word with only bit `i` set. */
  function Mask(i: bv8): (m: bv8)
    requires i < 8
  {
    if i == 0 then 1 else if i == 1 then 2 else if i == 2 then 4 else if i == 3 then 8
    else if i == 4 then 16 else if i == 5 then 32 else if i == 6 then 64 else 128
  }

  /** Bit `i` of `x`. */
  predicate Bit(x: bv8, i: bv8)
    requires i < 8
  {
    x & Mask(i) != 0
  }

  /** A word is non-zero exactly when one of its eight bits is set. */
  lemma {:induction false} NonZeroHasBit(x: bv8)
    ensures x != 0 <==> exists i: bv8 :: i < 8 && Bit(x, i)
  {
    if x != 0 {
      if Bit(x, 0) { assert Bit(x, 0); }
      else if Bit(x, 1) { assert Bit(x, 1); }
      else if Bit(x, 2) { assert Bit(x, 2); }
      else if Bit(x, 3) { assert Bit(x, 3); }
      else if Bit(x, 4) { assert Bit(x, 4); }
      else if Bit(x, 5) { assert Bit(x, 5); }
      else if Bit(x, 6) { assert Bit(x, 6); }
      else { assert Bit(x, 7); }
    }
  }

  /** The conjunction of two words is non-zero exactly when they share a set bit. */
  lemma CommonBit(flags: bv8, field: bv8)
    ensures flags & field != 0 <==> exists i: bv8 :: i < 8 && Bit(flags, i) && Bit(field, i)
  {
    NonZeroHasBit(flags & field);
    if flags & field != 0 {
      var i: bv8 :| i < 8 && Bit(flags & field, i);
      assert Bit(flags, i) && Bit(field, i);
    } else {
      forall i: bv8 | i < 8 ensures !(Bit(flags, i) && Bit(field, i)) {
        assert !Bit(flags & field, i);
      }
    }
  }

  /** Some bit of `field` is set in `flags`. */
  function HasField(flags: bv8, field: bv8): (r: bool)
    ensures r <==> exists i: bv8 :: i < 8 && Bit(flags, i) && Bit(field, i)
  {
    CommonBit(flags, field);
    flags & field != 0
  }

  /** Sets (value == true, the default) or clears (value == false) the bits of
      `field`: inside `field` every bit becomes `value`, outside it nothing changes. */
  function SetField(flags: bv8, field: bv8, value: bool := true): (r: bv8)
    ensures r & field == if value then field else 0
    ensures r & !field == flags & !field
  {
    if value then flags | field else flags & !field
  }

  /** After setting a non-zero field, the field is present. */
  lemma SetFieldThenHas(flags: bv8, field: bv8)
    requires field != 0
    ensures HasField(SetField(flags, field), field)
  {
  }

  /** After clearing a field, no bit of it is present. */
  lemma ClearFieldThenHasNot(flags: bv8, field: bv8)
    ensures !HasField(SetField(flags, field, false), field)
  {
  }

  /** Setting or clearing a field twice is the same as doing it once. */
  lemma SetFieldIdempotent(flags: bv8, field: bv8, value: bool)
    ensures SetField(SetField(flags, field, value), field, value) == SetField(flags, field, value)
  {
  }

  // ---------------------------------------------------------------------------
  // Time, refund and pay constants

  const SecondsPerYear: uint32 := 52 * 7 * 24 * 3600
  const SecondsPerDay: uint32 := 24 * 3600
  const SecondsPerHour: uint32 := 3600
  const UsecondsPerYear: int64 := SecondsPerYear as int64 * 1_000_000
  const UsecondsPerDay: int64 := SecondsPerDay as int64 * 1_000_000
  const UsecondsPerHour: int64 := SecondsPerHour as int64 * 1_000_000
  /** Blocks are produced every half second. */
  const BlocksPerDay: uint32 := 2 * SecondsPerDay

  const MinActivatedStake: int64 := 150_000_000_0000
  const RamGiftBytes: int64 := 1400
  const MinPervoteDailyPay: int64 := 100_0000
  const RefundDelaySec: uint32 := 3 * SecondsPerDay

  const InflationPrecision: int64 := 100
  const DefaultAnnualRate: int64 := 500
  const PayFactorPrecision: int64 := 10000
  const DefaultInflationPayFactor: int64 := 50000
  const DefaultVotepayFactor: int64 := 40000

  /** The time constants: a year is 52 weeks, microsecond values are the second
      values scaled by a million, and a day holds two blocks per second. */
  lemma TimeConstants()
    ensures SecondsPerYear as int == 52 * 7 * SecondsPerDay as int
    ensures SecondsPerDay as int == 24 * SecondsPerHour as int
    ensures UsecondsPerYear as int == SecondsPerYear as int * 1_000_000
    ensures UsecondsPerDay as int == SecondsPerDay as int * 1_000_000
    ensures UsecondsPerHour as int == SecondsPerHour as int * 1_000_000
    ensures BlocksPerDay as int == 2 * SecondsPerDay as int == 172_800
  {
  }

  /** Refunds mature three days, 259,200 seconds, after the unstake. */
  lemma RefundDelay()
    ensures RefundDelaySec as int == 3 * SecondsPerDay as int == 259_200
  {
  }

  /** Producers receive a fifth (20%) of inflation; a quarter (25%) of the
      producers' pay is the per-block share. The default annual rate is 5% at
      two decimals of precision. */
  lemma PaySplit()
    ensures PayFactorPrecision as real / DefaultInflationPayFactor as real == 0.2
    ensures PayFactorPrecision as real / DefaultVotepayFactor as real == 0.25
    ensures DefaultAnnualRate as real / (InflationPrecision as real * 100.0) == 0.05
  {
  }
}
