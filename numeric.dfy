/*
 * Square root and natural logarithm. The model never relies on their exact
 * values: every operation that uses them takes a `LawfulMath`, a pair of
 * functions about which only three facts are known.
 */
module Numeric {

  datatype Math = Math(sqrt: real -> real, ln: real -> real)

  ghost predicate Lawful(m: Math) {
    && (forall x :: m.sqrt(x) >= 0.0)
    && (forall x :: x > 0.0 ==> m.sqrt(x) > 0.0)
    && (forall x :: x >= 1.0 ==> m.ln(x) >= 0.0)
  }

  /** `math.sqrt` and `math.log`, known only by the three facts above. */
  type LawfulMath = m: Math | Lawful(m)
    witness Math(x => if x > 0.0 then x else 0.0, x => if x >= 1.0 then x - 1.0 else 0.0)

  /** `math.sqrt(x) or 1.0`: a norm that is never zero. */
  function SqrtOrOne(m: LawfulMath, x: real): (r: real)
    ensures r > 0.0
    ensures x > 0.0 ==> r == m.sqrt(x)
  {
    if m.sqrt(x) == 0.0 then 1.0 else m.sqrt(x)
  }

  /** Smoothed inverse document frequency `log((total + 1) / (df + 1)) + 1`. */
  function Idf(m: LawfulMath, total: nat, df: nat): (r: real)
    ensures df <= total ==> r >= 1.0
  {
    var ratio := (total + 1) as real / (df + 1) as real;
    assert df <= total ==> ratio >= 1.0;
    m.ln(ratio) + 1.0
  }
}
