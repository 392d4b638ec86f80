/**
 * `human_size` (main.cpp:10-21): a byte count written with the smallest of
 * the units B, KB, MB, GB, TB and PB at which the number is at most 1000
 * (PB when there is none), dividing by 1024 per unit and truncating.
 */
module HumanSize {

  const Units: seq<string> := ["B", "KB", "MB", "GB", "TB", "PB"]

  /** 1024^k. */
  function Pow1024(k: nat): (p: nat)
    ensures p >= 1
  {
    if k == 0 then 1 else 1024 * Pow1024(k - 1)
  }

  /** The size as written at unit k (1 for B): divided by 1024 once per unit above B. */
  function Scaled(size: nat, k: nat): nat
    requires k >= 1
  {
    if k == 1 then size else Scaled(size, k - 1) / 1024
  }

  /** The number written at unit k is the size divided by 1024^(k - 1), truncated. */
  lemma {:induction false} ScaledClosedForm(size: nat, k: nat)
    requires k >= 1
    ensures Scaled(size, k) == size / Pow1024(k - 1)
  {
    if k > 1 {
      ScaledClosedForm(size, k - 1);
      DivDiv(size, Pow1024(k - 2));
      assert Pow1024(k - 2) * 1024 == Pow1024(k - 1);
    }
  }

  /** Dividing by a and then by 1024 is dividing by a * 1024. */
  lemma DivDiv(n: nat, a: nat)
    requires a >= 1
    ensures n / a / 1024 == n / (a * 1024)
  {
    var m := n / a;
    var q := m / 1024;
    var r1 := n % a;
    var r2 := m % 1024;
    assert n == a * m + r1;
    assert m == 1024 * q + r2;
    MulDistributes(a, 1024 * q, r2);
    MulAssociates(a, 1024, q);
    MulBelow(a, r2, 1024);
    DivUnique(n, a * 1024, q, a * r2 + r1);
  }

  lemma MulDistributes(a: nat, x: nat, y: nat)
    ensures a * (x + y) == a * x + a * y
  {
  }

  lemma MulAssociates(a: nat, b: nat, q: nat)
    ensures a * (b * q) == (a * b) * q
  {
  }

  /** a * r + a <= a * b when r < b. */
  lemma MulBelow(a: nat, r: nat, b: nat)
    requires r < b
    ensures a * r + a <= a * b
  {
    MulDistributes(a, r + 1, b - r - 1);
  }

  lemma DivUnique(n: nat, d: nat, q: nat, r: nat)
    requires d >= 1 && n == d * q + r && r < d
    ensures n / d == q
  {
    var q0, r0 := n / d, n % d;
    assert d * q0 + r0 == n;
    if q > q0 {
      assert d * (q - q0) == r0 - r;
      MulAtLeast(d, q - q0);
    } else if q < q0 {
      assert d * (q0 - q) == r - r0;
      MulAtLeast(d, q0 - q);
    }
  }

  lemma MulAtLeast(d: nat, k: nat)
    requires k >= 1
    ensures d * k >= d
  {
  }

  /**
   * The unit number (1 for B, ..., 6 for PB) the conversion stops at when it
   * has reached unit k: the first unit from k on at which the scaled size is
   * at most 1000, or PB.
   */
  function UnitFrom(size: nat, k: nat): (u: nat)
    requires 1 <= k <= |Units|
    ensures k <= u <= |Units|
    ensures u == |Units| || Scaled(size, u) <= 1000
    ensures forall j | k <= j < u :: Scaled(size, j) > 1000
    decreases |Units| - k
  {
    if k < |Units| && Scaled(size, k) > 1000 then UnitFrom(size, k + 1) else k
  }

  /** The unit number human_size chooses for a size. */
  function UnitIndex(size: nat): (u: nat)
    ensures 1 <= u <= |Units|
  {
    UnitFrom(size, 1)
  }

  /** Decimal digits of a natural number, without leading zeros, as `operator<<` writes a size_t. */
  function DecimalString(n: nat): (s: string)
    ensures |s| >= 1
    ensures forall i | 0 <= i < |s| :: '0' <= s[i] <= '9'
  {
    if n < 10 then [DigitChar(n)] else DecimalString(n / 10) + [DigitChar(n % 10)]
  }

  function DigitChar(d: nat): (c: char)
    requires d < 10
    ensures '0' <= c <= '9'
  {
    ('0' as int + d) as char
  }

  /** The number a string of decimal digits denotes. */
  function DecimalValue(s: string): nat
    requires forall i | 0 <= i < |s| :: '0' <= s[i] <= '9'
  {
    if |s| == 0 then 0 else 10 * DecimalValue(s[..|s| - 1]) + (s[|s| - 1] as int - '0' as int)
  }

  /** Reading the digits back gives the number, and there is no leading zero. */
  lemma {:induction false} DecimalRoundTrip(n: nat)
    ensures DecimalValue(DecimalString(n)) == n
    ensures DecimalString(n)[0] == '0' ==> n == 0
  {
    var s := DecimalString(n);
    if n >= 10 {
      DecimalRoundTrip(n / 10);
      assert s[..|s| - 1] == DecimalString(n / 10);
    }
  }

  /** The text human_size returns: the scaled size, a space and the unit. */
  function Display(size: nat): string
  {
    var u := UnitIndex(size);
    DecimalString(Scaled(size, u)) + " " + Units[u - 1]
  }

  /**
   * main.cpp:10-21. The loop divides by 1024 and moves one unit up while
   * there is a larger unit and the size exceeds 1000.
   */
  method HumanSize(size0: nat) returns (r: string)
    requires size0 < 0x1_0000_0000_0000_0000
    ensures r == Display(size0)
  {
    var pf := Units;
    var size := size0;
    var index := 1;
    while index < |pf| && size > 1000
      invariant 1 <= index <= |pf|
      invariant size == Scaled(size0, index)
      invariant UnitFrom(size0, index) == UnitIndex(size0)
      decreases |pf| - index
    {
      size := size / 1024;
      index := index + 1;
    }
    r := DecimalString(size) + " " + pf[index - 1];
  }

  /** A size of at most 1000 is written in bytes, unchanged. */
  lemma SmallSizeInBytes(size: nat)
    requires size <= 1000
    ensures Display(size) == DecimalString(size) + " B"
  {
  }

  /** The number written is at most 1000 unless the unit is PB. */
  lemma DisplayBound(size: nat)
    ensures var u := UnitIndex(size);
      Scaled(size, u) <= 1000 || Units[u - 1] == "PB"
  {
  }

  /** No smaller unit would do: at every smaller unit the number exceeds 1000. */
  lemma DisplayLeastUnit(size: nat, j: nat)
    requires 1 <= j < UnitIndex(size)
    ensures Scaled(size, j) > 1000
  {
  }
}
