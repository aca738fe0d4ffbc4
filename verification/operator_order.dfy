/**
 * The ordering derived for Operator: variants compare by declaration
 * position, and two `Unknown`s compare by their text, which compares
 * lexicographically character by character (for Unicode scalar values this
 * is the same order as comparing their UTF-8 bytes).
 */
module OperatorOrder {
  import opened Model
  import opened Sampling

  datatype Ordering = Less | Equal | Greater {
    function Reverse(): Ordering {
      match this
      case Less => Greater
      case Equal => Equal
      case Greater => Less
    }
  }

  /**
   * Lexicographic comparison of strings by character; a proper prefix is
   * smaller, and strings compare Equal only when they have the same length.
   */
  function CompareStrings(a: string, b: string): (r: Ordering)
    ensures |a| < |b| && a == b[..|a|] ==> r == Less
    ensures |b| < |a| && b == a[..|b|] ==> r == Greater
    ensures r == Equal ==> |a| == |b|
    decreases |a|
  {
    if a == [] && b == [] then Equal
    else if a == [] then Less
    else if b == [] then Greater
    else if a[0] < b[0] then Less
    else if b[0] < a[0] then Greater
    else CompareStrings(a[1..], b[1..])
  }

  /**
   * The derived comparison of two operators: declaration position first,
   * so every known operator is below every `Unknown`; two `Unknown`s
   * compare by their text.
   */
  function CompareOperators(a: Operator, b: Operator): (r: Ordering)
    ensures !a.Unknown? && b.Unknown? ==> r == Less
    ensures a.Unknown? && !b.Unknown? ==> r == Greater
    ensures !a.Unknown? && !b.Unknown? ==>
      (r == Less <==> OperatorPosition(a) < OperatorPosition(b)) &&
      (r == Equal <==> a == b)
  {
    var pa, pb := OperatorPosition(a), OperatorPosition(b);
    if pa < pb then Less
    else if pb < pa then Greater
    else if a.Unknown? && b.Unknown? then CompareStrings(a.text, b.text)
    else Equal
  }

  /** `a <= b` in the derived order. */
  predicate OperatorLe(a: Operator, b: Operator) {
    CompareOperators(a, b) != Greater
  }

  lemma {:induction false} CompareStringsReverse(a: string, b: string)
    ensures CompareStrings(b, a) == CompareStrings(a, b).Reverse()
    decreases |a|
  {
    if a != [] && b != [] && a[0] == b[0] {
      CompareStringsReverse(a[1..], b[1..]);
    }
  }

  lemma {:induction false} CompareStringsEqual(a: string, b: string)
    ensures CompareStrings(a, b) == Equal <==> a == b
    decreases |a|
  {
    if a != [] && b != [] && a[0] == b[0] {
      CompareStringsEqual(a[1..], b[1..]);
      if a[1..] == b[1..] {
        assert a == [a[0]] + a[1..] && b == [b[0]] + b[1..];
      }
    }
  }

  lemma {:induction false} CompareStringsTransitive(a: string, b: string, c: string)
    requires CompareStrings(a, b) == Less && CompareStrings(b, c) == Less
    ensures CompareStrings(a, c) == Less
    decreases |a|
  {
    if a != [] && b != [] && c != [] && a[0] == b[0] && b[0] == c[0] {
      CompareStringsTransitive(a[1..], b[1..], c[1..]);
    }
  }

  /** Swapping the operands reverses the outcome. */
  lemma CompareOperatorsReverse(a: Operator, b: Operator)
    ensures CompareOperators(b, a) == CompareOperators(a, b).Reverse()
  {
    if a.Unknown? && b.Unknown? {
      CompareStringsReverse(a.text, b.text);
    }
  }

  /** Two operators compare Equal exactly when they are the same value. */
  lemma CompareOperatorsEqual(a: Operator, b: Operator)
    ensures CompareOperators(a, b) == Equal <==> a == b
  {
    if a.Unknown? && b.Unknown? {
      CompareStringsEqual(a.text, b.text);
    }
  }

  lemma CompareOperatorsTransitive(a: Operator, b: Operator, c: Operator)
    requires CompareOperators(a, b) == Less && CompareOperators(b, c) == Less
    ensures CompareOperators(a, c) == Less
  {
    if a.Unknown? && b.Unknown? && c.Unknown? {
      CompareStringsTransitive(a.text, b.text, c.text);
    }
  }

  /**
   * Known operators are ordered by declaration position, every `Unknown`
   * is greater than every known operator, and two `Unknown`s are ordered
   * by their text.
   */
  lemma OperatorOrderShape(a: Operator, b: Operator)
    ensures !a.Unknown? && !b.Unknown? ==>
      (CompareOperators(a, b) == Less <==> OperatorPosition(a) < OperatorPosition(b))
    ensures !a.Unknown? && b.Unknown? ==> CompareOperators(a, b) == Less
    ensures a.Unknown? && b.Unknown? ==> CompareOperators(a, b) == CompareStrings(a.text, b.text)
  {
  }

  /** The table order agrees with the derived order on known operators. */
  lemma SampleOperatorMonotone(i: int, j: int)
    requires 0 <= i < j <= 14
    ensures CompareOperators(SampleOperator(i), SampleOperator(j)) == Less
  {
  }

  /** `OperatorLe` is a total order: reflexive, antisymmetric, transitive, total. */
  lemma OperatorLeTotalOrder(a: Operator, b: Operator, c: Operator)
    ensures OperatorLe(a, a)
    ensures OperatorLe(a, b) && OperatorLe(b, a) ==> a == b
    ensures OperatorLe(a, b) && OperatorLe(b, c) ==> OperatorLe(a, c)
    ensures OperatorLe(a, b) || OperatorLe(b, a)
  {
    CompareOperatorsEqual(a, a);
    CompareOperatorsEqual(a, b);
    CompareOperatorsEqual(b, c);
    CompareOperatorsReverse(a, b);
    if CompareOperators(a, b) == Less && CompareOperators(b, c) == Less {
      CompareOperatorsTransitive(a, b, c);
    }
  }
}
