/**
 * The test-data generator: `count` features, then for every feature name
 * `strategiesPerFeature` gradual-rollout strategies.
 *
 * The unique-identifier generator is replaced by the sequence of names it
 * would have produced, and the run's single random number generator by a
 * stream of raw draws read through an explicit cursor: the n-th value the
 * generator takes is `draws(n)`, reduced into the requested range.
 */
module Generator {
  import opened Model
  import opened Sampling
  import opened Decimal

  const GRADUAL_ROLLOUT: string := "gradualRollout"
  const ROLLOUT_KEY: string := "rollout"
  const STICKINESS_KEY: string := "stickiness"
  const GROUP_ID_KEY: string := "groupId"
  const DEFAULT_STICKINESS: string := "default"

  /** A uniform draw from the half-open range [lo, hi). */
  function GenRange(draw: nat, lo: int, hi: int): (v: int)
    requires lo < hi
    ensures lo <= v < hi
  {
    lo + draw % (hi - lo)
  }

  /**
   * The title of strategy number `index` of a feature: the prefix
   * "strategy_", the feature's name, '_', and digits that read back as
   * `index`.
   */
  function StrategyTitle(featureName: string, index: nat): (t: string)
    ensures var n := |featureName|;
      && |t| > 10 + n
      && t[..9] == "strategy_"
      && t[9..9 + n] == featureName
      && t[9 + n] == '_'
      && ParseDecimal(t[10 + n..]) == Some(index)
  {
    var t := "strategy_" + featureName + "_" + DecimalText(index);
    ParseDecimalText(index);
    assert t[10 + |featureName|..] == DecimalText(index);
    t
  }

  /** The set of names of `features`. */
  function NameSet(features: seq<Feature>): set<string> {
    set i | 0 <= i < |features| :: features[i].name
  }

  predicate DistinctNames(features: seq<Feature>) {
    forall i, j :: 0 <= i < j < |features| ==> features[i].name != features[j].name
  }

  /**
   * Strategy number `index` of feature `featureName` as the generator
   * shapes it: a fixed name and title scheme, enabled, no constraints or
   * segments, a sort order in [1, 99999], and exactly the parameters
   * rollout (the canonical decimal text of a number in [1, 99]: it reads
   * back as that number and has no leading zero), stickiness "default" and
   * groupId, the owning feature's name.
   */
  predicate IsRolloutStrategy(st: Strategy, featureName: string, index: nat) {
    && st.name == GRADUAL_ROLLOUT
    && st.title == StrategyTitle(featureName, index)
    && !st.disabled
    && 1 <= st.sortOrder <= 99999
    && st.constraints == []
    && st.segments == []
    && st.parameters.Keys == {ROLLOUT_KEY, STICKINESS_KEY, GROUP_ID_KEY}
    && ParseDecimal(st.parameters[ROLLOUT_KEY]).Some?
    && 1 <= ParseDecimal(st.parameters[ROLLOUT_KEY]).value <= 99
    && st.parameters[ROLLOUT_KEY] == DecimalText(ParseDecimal(st.parameters[ROLLOUT_KEY]).value)
    && st.parameters[STICKINESS_KEY] == DEFAULT_STICKINESS
    && st.parameters[GROUP_ID_KEY] == featureName
  }

  /** `strategies` are the `count` strategies of feature `featureName`, in index order. */
  predicate IsStrategyList(strategies: seq<Strategy>, featureName: string, count: nat) {
    && |strategies| == count
    && forall k :: 0 <= k < |strategies| ==> IsRolloutStrategy(strategies[k], featureName, k)
  }

  /**
   * Builds the features in generation order; each takes two draws, first
   * its feature type, then its impression-data flag.
   */
  method GenerateFeatures(count: U32, names: seq<string>, draws: nat -> nat, cursor: nat)
    returns (features: seq<Feature>, next: nat)
    requires |names| == count
    ensures |features| == count
    ensures forall i :: 0 <= i < count ==>
      && features[i].name == names[i]
      && features[i].description == None
      && features[i].featureType == SampleFeatureType(GenRange(draws(cursor + 2 * i), 0, 4))
      && features[i].impressionData == (GenRange(draws(cursor + 2 * i + 1), 0, 2) == 1)
    ensures next == cursor + 2 * count
  {
    features := [];
    next := cursor;
    var i := 0;
    while i < count
      invariant 0 <= i <= count
      invariant next == cursor + 2 * i
      invariant |features| == i
      invariant forall j :: 0 <= j < i ==>
        && features[j].name == names[j]
        && features[j].description == None
        && features[j].featureType == SampleFeatureType(GenRange(draws(cursor + 2 * j), 0, 4))
        && features[j].impressionData == (GenRange(draws(cursor + 2 * j + 1), 0, 2) == 1)
    {
      var featureType := SampleFeatureType(GenRange(draws(next), 0, 4));
      var impressionData := GenRange(draws(next + 1), 0, 2) == 1;
      features := features + [Feature(names[i], None, featureType, impressionData)];
      next := next + 2;
      i := i + 1;
    }
  }

  /**
   * Builds strategy number `index` of feature `featureName`, filling its
   * parameter map one key at a time; it takes two draws, first the rollout
   * percentage, then the sort order.
   */
  method NewStrategy(featureName: string, index: nat, draws: nat -> nat, cursor: nat)
    returns (st: Strategy, next: nat)
    ensures IsRolloutStrategy(st, featureName, index)
    ensures st.parameters[ROLLOUT_KEY] == DecimalText(GenRange(draws(cursor), 1, 100))
    ensures ParseDecimal(st.parameters[ROLLOUT_KEY]) == Some(GenRange(draws(cursor), 1, 100))
    ensures st.sortOrder == GenRange(draws(cursor + 1), 1, 100000)
    ensures next == cursor + 2
  {
    var title := StrategyTitle(featureName, index);
    var parameters: map<string, string> := map[];
    var rollout := GenRange(draws(cursor), 1, 100);
    parameters := parameters[ROLLOUT_KEY := DecimalText(rollout)];
    parameters := parameters[STICKINESS_KEY := DEFAULT_STICKINESS];
    parameters := parameters[GROUP_ID_KEY := featureName];
    var sortOrder := GenRange(draws(cursor + 1), 1, 100000);
    st := Strategy(GRADUAL_ROLLOUT, title, false, sortOrder, [], parameters, []);
    next := cursor + 2;
    ParseDecimalText(rollout);
  }

  /**
   * Builds the `count` strategies of feature `featureName` in index order,
   * two draws each.
   */
  method GenerateStrategyList(featureName: string, count: U32, draws: nat -> nat, cursor: nat)
    returns (strategies: seq<Strategy>, next: nat)
    ensures IsStrategyList(strategies, featureName, count)
    ensures next == cursor + 2 * count
  {
    strategies := [];
    next := cursor;
    var s := 0;
    while s < count
      invariant 0 <= s <= count
      invariant next == cursor + 2 * s
      invariant IsStrategyList(strategies, featureName, s)
    {
      var st;
      st, next := NewStrategy(featureName, s, draws, next);
      strategies := strategies + [st];
      s := s + 1;
    }
  }

  /**
   * Maps every feature's name to its strategies, visiting the features in
   * order; a name that occurs twice keeps the strategies built last.
   */
  method GenerateStrategies(features: seq<Feature>, strategiesPerFeature: U32, draws: nat -> nat, cursor: nat)
    returns (byName: map<string, seq<Strategy>>)
    ensures byName.Keys == NameSet(features)
    ensures forall name :: name in byName ==> IsStrategyList(byName[name], name, strategiesPerFeature)
  {
    byName := map[];
    var next := cursor;
    var i := 0;
    while i < |features|
      invariant 0 <= i <= |features|
      invariant byName.Keys == NameSet(features[..i])
      invariant forall name :: name in byName ==> IsStrategyList(byName[name], name, strategiesPerFeature)
    {
      var name := features[i].name;
      var strategies;
      strategies, next := GenerateStrategyList(name, strategiesPerFeature, draws, next);
      NameSetSnoc(features[..i], features[i]);
      assert features[..i + 1] == features[..i] + [features[i]];
      byName := byName[name := strategies];
      i := i + 1;
    }
    assert features[..|features|] == features;
  }

  lemma NameSetSnoc(features: seq<Feature>, f: Feature)
    ensures NameSet(features + [f]) == NameSet(features) + {f.name}
  {
    var extended := features + [f];
    assert extended[|features|].name == f.name;
    forall name | name in NameSet(extended)
      ensures name in NameSet(features) + {f.name}
    {
      var i :| 0 <= i < |extended| && extended[i].name == name;
      if i < |features| {
        assert features[i].name == name;
      }
    }
    forall name | name in NameSet(features)
      ensures name in NameSet(extended)
    {
      var i :| 0 <= i < |features| && features[i].name == name;
      assert extended[i].name == name;
    }
  }

  /** With pairwise-distinct names there are exactly as many names as features. */
  lemma {:induction false} DistinctNamesCount(features: seq<Feature>)
    requires DistinctNames(features)
    ensures |NameSet(features)| == |features|
    decreases |features|
  {
    if features != [] {
      var prefix := features[..|features| - 1];
      var last := features[|features| - 1];
      assert features == prefix + [last];
      DistinctNamesCount(prefix);
      NameSetSnoc(prefix, last);
      assert last.name !in NameSet(prefix);
    }
  }

  /**
   * Within one run, a strategy title names its feature and its index:
   * different (feature, index) pairs never share a title.
   */
  lemma StrategyTitleInjective(a: string, i: nat, b: string, j: nat)
    requires StrategyTitle(a, i) == StrategyTitle(b, j)
    ensures a == b && i == j
  {
    var pa, pb := "strategy_" + a + "_", "strategy_" + b + "_";
    SplitAtLastSeparator(pa, DecimalText(i), pb, DecimalText(j));
    DecimalTextInjective(i, j);
    assert a == pa[9..|pa| - 1] && b == pb[9..|pb| - 1];
  }

  /** A text ending in '_' followed by digits splits uniquely at that '_'. */
  lemma SplitAtLastSeparator(p: string, d: string, q: string, e: string)
    requires p != [] && p[|p| - 1] == '_' && q != [] && q[|q| - 1] == '_'
    requires AllDigits(d) && AllDigits(e)
    requires p + d == q + e
    ensures p == q && d == e
  {
    var t := p + d;
    if |d| < |e| {
      SameCharAt(p, d, q, e, |p| - 1);
      assert false;
    } else if |e| < |d| {
      SameCharAt(q, e, p, d, |q| - 1);
      assert false;
    } else {
      assert p == t[..|p|] == q;
      assert d == t[|p|..] == e;
    }
  }

  lemma SameCharAt(p: string, d: string, q: string, e: string, k: nat)
    requires p + d == q + e
    requires |q| <= k < |p|
    ensures p[k] == e[k - |q|]
  {
    assert (p + d)[k] == (q + e)[k];
  }

  /**
   * The generation stage: the features in order, then every feature's
   * strategies keyed by its name.
   */
  method Generate(count: U32, strategiesPerFeature: U32, names: seq<string>, draws: nat -> nat)
    returns (features: seq<Feature>, byName: map<string, seq<Strategy>>)
    requires |names| == count
    ensures |features| == count
    ensures forall i :: 0 <= i < count ==> features[i].name == names[i] && features[i].description == None
    ensures byName.Keys == NameSet(features)
    ensures forall name :: name in byName ==> IsStrategyList(byName[name], name, strategiesPerFeature)
    ensures DistinctNames(features) ==> |byName| == count
  {
    var next;
    features, next := GenerateFeatures(count, names, draws, 0);
    byName := GenerateStrategies(features, strategiesPerFeature, draws, next);
    if DistinctNames(features) {
      DistinctNamesCount(features);
    }
  }
}
