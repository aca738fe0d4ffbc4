/**
 * The data model of the feature-flag test-data generator: the records that
 * are generated, printed and posted to the administrative API.
 */
module Model {

  /** Rust's `u32`. */
  type U32 = x: int | 0 <= x < 0x1_0000_0000

  datatype Option<+T> = None | Some(value: T)

  /** The kind of a feature flag (serialised in camelCase). */
  datatype FeatureType = Release | Operational | Experiment | Permission

  /** A feature-flag definition; `name` is a generated unique identifier. */
  datatype Feature = Feature(
    name: string,
    description: Option<string>,
    featureType: FeatureType,
    impressionData: bool)

  /**
   * The comparison operators of a constraint, in declaration order; the
   * open `Unknown` variant carries the raw text of an operator this
   * program does not know.
   */
  datatype Operator =
    | NotIn | In
    | StrEndsWith | StrStartsWith | StrContains
    | NumEq | NumGt | NumGte | NumLt | NumLte
    | DateAfter | DateBefore
    | SemverEq | SemverLt | SemverGt
    | Unknown(text: string)

  /** A condition narrowing when a strategy applies. */
  datatype Constraint = Constraint(
    contextName: string,
    operator: Operator,
    caseInsensitive: bool,
    inverted: bool,
    values: seq<string>,
    value: string)

  /** A rollout rule attached to a feature in one environment. */
  datatype Strategy = Strategy(
    name: string,
    title: string,
    disabled: bool,
    sortOrder: U32,
    constraints: seq<Constraint>,
    parameters: map<string, string>,
    segments: seq<U32>)
}
