/**
 * The uniform-index-to-variant tables through which the random number
 * generator produces a FeatureType or an Operator.
 */
module Sampling {
  import opened Model

  /** The position of a feature type in the declaration of FeatureType. */
  function FeatureTypeIndex(t: FeatureType): (i: nat)
    ensures i <= 3
  {
    match t
    case Release => 0
    case Operational => 1
    case Experiment => 2
    case Permission => 3
  }

  /**
   * The FeatureType table: index 0..3 selects the variant at that
   * position; any other index falls back to Release.
   */
  function SampleFeatureType(i: int): (t: FeatureType)
    ensures 0 <= i <= 3 ==> FeatureTypeIndex(t) == i
    ensures !(0 <= i <= 3) ==> t == Release
  {
    match i
    case 0 => Release
    case 1 => Operational
    case 2 => Experiment
    case 3 => Permission
    case _ => Release
  }

  /** Every feature type is drawn by exactly one index of the table. */
  lemma FeatureTypeTableOnto(t: FeatureType)
    ensures SampleFeatureType(FeatureTypeIndex(t)) == t
    ensures forall i :: 0 <= i <= 3 && SampleFeatureType(i) == t ==> i == FeatureTypeIndex(t)
  {
  }

  /**
   * The position of an operator in the declaration of Operator; every
   * `Unknown` shares the last position, 15.
   */
  function OperatorPosition(op: Operator): (p: nat)
    ensures p <= 15
    ensures p == 15 <==> op.Unknown?
  {
    match op
    case NotIn => 0
    case In => 1
    case StrEndsWith => 2
    case StrStartsWith => 3
    case StrContains => 4
    case NumEq => 5
    case NumGt => 6
    case NumGte => 7
    case NumLt => 8
    case NumLte => 9
    case DateAfter => 10
    case DateBefore => 11
    case SemverEq => 12
    case SemverLt => 13
    case SemverGt => 14
    case Unknown(_) => 15
  }

  /** The text the Operator table yields for an index outside 0..14. */
  const FALLBACK_OPERATOR_TEXT: string := "What are you on about"

  /**
   * The Operator table: index 0..14 selects the known variant at that
   * position (never `Unknown`); any other index yields an `Unknown`.
   */
  function SampleOperator(i: int): (op: Operator)
    ensures 0 <= i <= 14 ==> OperatorPosition(op) == i && !op.Unknown?
    ensures !(0 <= i <= 14) ==> op == Unknown(FALLBACK_OPERATOR_TEXT)
  {
    match i
    case 0 => NotIn
    case 1 => In
    case 2 => StrEndsWith
    case 3 => StrStartsWith
    case 4 => StrContains
    case 5 => NumEq
    case 6 => NumGt
    case 7 => NumGte
    case 8 => NumLt
    case 9 => NumLte
    case 10 => DateAfter
    case 11 => DateBefore
    case 12 => SemverEq
    case 13 => SemverLt
    case 14 => SemverGt
    case _ => Unknown(FALLBACK_OPERATOR_TEXT)
  }

  /** Every known operator is drawn by exactly one index of the table. */
  lemma OperatorTableOnto(op: Operator)
    requires !op.Unknown?
    ensures SampleOperator(OperatorPosition(op)) == op
    ensures forall i :: 0 <= i <= 14 && SampleOperator(i) == op ==> i == OperatorPosition(op)
  {
  }
}
