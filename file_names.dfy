/**
 * The names the scripts save their figures under: `result_<k>.png`, where `<k>`
 * is the decimal text of a running counter (Python's `f"result_{index}"`).
 */
module FileNames {

  function Digit(d: nat): (c: char)
    requires d < 10
    ensures '0' <= c <= '9'
  {
    "0123456789"[d]
  }

  function DigitValue(c: char): nat
  {
    if '0' <= c <= '9' then (c - '0') as nat else 0
  }

  /** Decimal text of `n`, most significant digit first, without leading zeros. */
  function Decimal(n: nat): (s: string)
    ensures 1 <= |s|
    ensures forall i :: 0 <= i < |s| ==> '0' <= s[i] <= '9'
    ensures |s| > 1 ==> s[0] != '0'
  {
    if n < 10 then [Digit(n)] else Decimal(n / 10) + [Digit(n % 10)]
  }

  /** Value of a string of decimal digits; the partner of `Decimal`. */
  function ParseDecimal(s: string): nat
  {
    if s == [] then 0 else 10 * ParseDecimal(s[..|s| - 1]) + DigitValue(s[|s| - 1])
  }

  lemma {:induction false} DecimalRoundTrip(n: nat)
    ensures ParseDecimal(Decimal(n)) == n
  {
    var s := Decimal(n);
    if n < 10 {
      assert s[..|s| - 1] == [];
      assert DigitValue(Digit(n)) == n;
    } else {
      var q, r := n / 10, n % 10;
      assert s[..|s| - 1] == Decimal(q);
      assert DigitValue(Digit(r)) == r;
      DecimalRoundTrip(q);
      assert n == 10 * q + r;
    }
  }

  /** The file a figure with counter value `k` is saved as. */
  function FileName(k: nat): string
  {
    "result_" + Decimal(k) + ".png"
  }

  /** Different counter values never produce the same file name. */
  lemma FileNameInjective(i: nat, j: nat)
    ensures FileName(i) == FileName(j) <==> i == j
  {
    if FileName(i) == FileName(j) {
      var a, b := FileName(i), FileName(j);
      assert Decimal(i) == a[7..|a| - 4];
      assert Decimal(j) == b[7..|b| - 4];
      DecimalRoundTrip(i);
      DecimalRoundTrip(j);
    }
  }

  /** The first `n` counter values name `n` different files. */
  lemma FileNamesDistinct(n: nat)
    ensures forall k, k' :: 0 <= k < k' < n ==> FileName(k) != FileName(k')
  {
    forall k, k' | 0 <= k < k' < n ensures FileName(k) != FileName(k') {
      FileNameInjective(k, k');
    }
  }
}
