/** Decimal text and the 64-bit integers of the Go program. */
module Decimals {
  import opened Results

  const MAX_INT64: int := 0x7fff_ffff_ffff_ffff
  const MIN_INT64: int := -0x8000_0000_0000_0000

  predicate IsInt64(x: int) {
    MIN_INT64 <= x <= MAX_INT64
  }

  /** Two's-complement wrap-around of a 64-bit product or sum. */
  function Wrap64(x: int): (w: int)
    ensures IsInt64(w)
    ensures IsInt64(x) ==> w == x
  {
    (x - MIN_INT64) % 0x1_0000_0000_0000_0000 + MIN_INT64
  }

  /** A number beyond a multiple of 2^64 wraps to itself, or to what is missing to the next multiple. */
  lemma WrapBeyond(q: int, r: int)
    requires 0 <= r < 0x1_0000_0000_0000_0000
    ensures Wrap64(q * 0x1_0000_0000_0000_0000 + r) == if r <= MAX_INT64 then r else r - 0x1_0000_0000_0000_0000
  {
    var shifted := q * 0x1_0000_0000_0000_0000 + r - MIN_INT64;
    if r <= MAX_INT64 {
      Remainder(shifted, q, r - MIN_INT64);
    } else {
      Remainder(shifted, q + 1, r - MIN_INT64 - 0x1_0000_0000_0000_0000);
    }
  }

  lemma Remainder(x: int, q: int, r: int)
    requires x == q * 0x1_0000_0000_0000_0000 + r && 0 <= r < 0x1_0000_0000_0000_0000
    ensures x % 0x1_0000_0000_0000_0000 == r
  {
  }

  predicate AllDigits(s: string) {
    forall k | 0 <= k < |s| :: '0' <= s[k] <= '9'
  }

  function Value(s: string): nat
    requires AllDigits(s)
  {
    if s == "" then 0 else Value(s[..|s| - 1]) * 10 + (s[|s| - 1] - '0') as nat
  }

  /** strconv.Atoi: an optional sign, digits only, and a result that fits. */
  function Atoi(s: string): Option<int> {
    var signed := s != "" && (s[0] == '-' || s[0] == '+');
    var digits := if signed then s[1..] else s;
    if digits == "" || !AllDigits(digits) then None
    else
      var v := if signed && s[0] == '-' then 0 - Value(digits) else Value(digits);
      if IsInt64(v) then Some(v) else None
  }

  function Itoa(n: nat): (s: string)
    ensures s != "" && AllDigits(s)
  {
    var last := '0' + (n % 10) as char;
    if n < 10 then [last] else Itoa(n / 10) + [last]
  }

  lemma {:induction false} ValueOfItoa(n: nat)
    ensures Value(Itoa(n)) == n
  {
    var s := Itoa(n);
    if n < 10 {
      assert s[..0] == "";
    } else {
      ValueOfItoa(n / 10);
      assert s[..|s| - 1] == Itoa(n / 10);
    }
  }

  /** Printed numbers read back as themselves exactly while they fit 64 bits. */
  lemma {:induction false} AtoiItoa(n: nat)
    ensures Atoi(Itoa(n)) == if n <= MAX_INT64 then Some(n) else None
  {
    ValueOfItoa(n);
  }

  // ---- What a text denotes, digit by digit ----

  /** The number read after each digit. */
  predicate ReadsTo(digits: string, partial: seq<int>) {
    && |partial| == |digits| + 1 && partial[0] == 0
    && forall k, l | 0 <= k < |digits| && l == k + 1 :: partial[l] == 10 * partial[k] + (digits[k] as int - '0' as int)
  }

  ghost predicate IsDecimal(digits: string, n: int) {
    digits != "" && (forall k | 0 <= k < |digits| :: '0' <= digits[k] <= '9')
    && exists partial :: ReadsTo(digits, partial) && partial[|digits|] == n
  }

  /** An optional sign and digits. */
  ghost predicate Denotes(s: string, n: int) {
    || IsDecimal(s, n)
    || (s != "" && s[0] == '+' && IsDecimal(s[1..], n))
    || (s != "" && s[0] == '-' && IsDecimal(s[1..], 0 - n))
  }

  lemma {:induction false} ReadsToValue(digits: string, partial: seq<int>, k: nat)
    requires AllDigits(digits) && ReadsTo(digits, partial) && k <= |digits|
    ensures partial[k] == Value(digits[..k])
  {
    if k > 0 {
      ReadsToValue(digits, partial, k - 1);
      assert digits[..k][..k - 1] == digits[..k - 1];
    }
  }

  lemma {:induction false} ReadsValue(digits: string) returns (partial: seq<int>)
    requires AllDigits(digits)
    ensures ReadsTo(digits, partial)
  {
    if digits == "" {
      partial := [0];
    } else {
      var n := |digits| - 1;
      var init := ReadsValue(digits[..n]);
      partial := init + [10 * init[n] + (digits[n] as int - '0' as int)];
    }
  }

  lemma {:induction false} IsDecimalIff(digits: string, n: int)
    ensures IsDecimal(digits, n) <==> digits != "" && AllDigits(digits) && Value(digits) == n
  {
    if AllDigits(digits) {
      var partial := ReadsValue(digits);
      assert digits[..|digits|] == digits;
      ReadsToValue(digits, partial, |digits|);
      forall other | ReadsTo(digits, other) ensures other[|digits|] == Value(digits) {
        ReadsToValue(digits, other, |digits|);
      }
    }
  }

  /** strconv.Atoi reads exactly the texts that denote a number of 64 bits, as that number. */
  lemma AtoiIff(s: string, n: int)
    ensures Atoi(s) == Some(n) <==> Denotes(s, n) && IsInt64(n)
  {
    hide IsDecimal, Value;
    IsDecimalIff(s, n);
    if s != "" {
      IsDecimalIff(s[1..], n);
      IsDecimalIff(s[1..], 0 - n);
    }
  }
}
