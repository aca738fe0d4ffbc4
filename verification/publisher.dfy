/**
 * The upload stage: the POST requests that create the generated features
 * and their strategies through the administrative API, sent one at a time
 * and abandoned at the first send that fails.
 *
 * Requests never depend on earlier responses, so the stage is modelled as
 * the plan of requests the two loops issue when every send succeeds,
 * followed by a fail-fast execution of that plan. The outcome of the n-th
 * send is `succeeds(n)`.
 */
module Publisher {
  import opened Model
  import opened Urls

  /** The JSON body of a request. */
  datatype Payload = FeatureJson(feature: Feature) | StrategyJson(strategy: Strategy)

  datatype Request = Post(url: Url, body: Payload)

  /** The requests actually sent, and whether the run got through all of them. */
  datatype Upload = Upload(issued: seq<Request>, completed: bool)

  /** Either the base URL was unusable (no parse, or not a base), or the upload went ahead. */
  datatype PostResult = UrlRejected | Posted(upload: Upload, order: seq<string>)

  /** One POST per feature to the features endpoint, in order. */
  function FeaturePosts(featuresUrl: Url, features: seq<Feature>): (r: seq<Request>)
    ensures |r| == |features|
  {
    seq(|features|, i requires 0 <= i < |features| => Post(featuresUrl, FeatureJson(features[i])))
  }

  /** One POST per strategy to one feature's strategies endpoint, in order. */
  function StrategyBlock(url: Url, strategies: seq<Strategy>): (r: seq<Request>)
    ensures |r| == |strategies|
  {
    seq(|strategies|, j requires 0 <= j < |strategies| => Post(url, StrategyJson(strategies[j])))
  }

  /** The strategy POSTs of the features named in `order`, feature after feature. */
  function StrategyPosts(featuresUrl: Url, env: string, order: seq<string>, byName: map<string, seq<Strategy>>)
    : seq<Request>
    requires forall name :: name in order ==> name in byName
    decreases |order|
  {
    if order == [] then []
    else StrategyBlock(StrategiesUrl(featuresUrl, order[0], env), byName[order[0]])
         + StrategyPosts(featuresUrl, env, order[1..], byName)
  }

  /** `order` lists every key of `byName` exactly once: an iteration order of the map. */
  predicate IsIterationOrder(order: seq<string>, byName: map<string, seq<Strategy>>) {
    && |order| == |byName|
    && (forall i, j :: 0 <= i < j < |order| ==> order[i] != order[j])
    && (forall name :: name in order ==> name in byName)
    && (forall name :: name in byName ==> name in order)
  }

  /** Every request of the upload, when the map is visited in `order`. */
  function UploadPlan(base: Url, env: string, features: seq<Feature>, order: seq<string>,
                      byName: map<string, seq<Strategy>>): seq<Request>
    requires forall name :: name in order ==> name in byName
  {
    FeaturePosts(FeaturesUrl(base), features) + StrategyPosts(FeaturesUrl(base), env, order, byName)
  }

  /**
   * `upload` is a fail-fast run of `plan`: the requests sent are a prefix of
   * the plan; every send but the last succeeded; the run completes exactly
   * when every planned send succeeds, and then all of the plan was sent;
   * otherwise the last request sent is the one that failed.
   */
  predicate FailFast(upload: Upload, plan: seq<Request>, succeeds: nat -> bool) {
    && |upload.issued| <= |plan|
    && upload.issued == plan[..|upload.issued|]
    && (upload.completed <==> forall j :: 0 <= j < |plan| ==> succeeds(j))
    && (upload.completed ==> upload.issued == plan)
    && (forall j :: 0 <= j < |upload.issued| - 1 ==> succeeds(j))
    && (!upload.completed ==> upload.issued != [] && !succeeds(|upload.issued| - 1))
  }

  /** The first loop: one POST per feature to the features endpoint, in order. */
  method PlanFeaturePosts(featuresUrl: Url, features: seq<Feature>) returns (posts: seq<Request>)
    ensures |posts| == |features|
    ensures forall i :: 0 <= i < |features| ==> posts[i] == Post(featuresUrl, FeatureJson(features[i]))
  {
    posts := [];
    var i := 0;
    while i < |features|
      invariant 0 <= i <= |features|
      invariant |posts| == i
      invariant forall k :: 0 <= k < i ==> posts[k] == Post(featuresUrl, FeatureJson(features[k]))
    {
      posts := posts + [Post(featuresUrl, FeatureJson(features[i]))];
      i := i + 1;
    }
  }

  /** The inner loop: one POST per strategy of one feature to `updateUrl`, in order. */
  method PlanStrategyBlock(updateUrl: Url, strategies: seq<Strategy>) returns (posts: seq<Request>)
    ensures |posts| == |strategies|
    ensures forall j :: 0 <= j < |strategies| ==> posts[j] == Post(updateUrl, StrategyJson(strategies[j]))
  {
    posts := [];
    var j := 0;
    while j < |strategies|
      invariant 0 <= j <= |strategies|
      invariant |posts| == j
      invariant forall k :: 0 <= k < j ==> posts[k] == Post(updateUrl, StrategyJson(strategies[k]))
    {
      posts := posts + [Post(updateUrl, StrategyJson(strategies[j]))];
      j := j + 1;
    }
  }

  /**
   * The second loop: visits the map in an order of its own and, for each
   * feature name, posts its strategies to that feature's strategies
   * endpoint. Returns the POSTs and the order in which the map was visited.
   */
  method PlanStrategyPosts(featuresUrl: Url, environment: string, byName: map<string, seq<Strategy>>)
    returns (posts: seq<Request>, order: seq<string>)
    ensures IsIterationOrder(order, byName)
    ensures posts == StrategyPosts(featuresUrl, environment, order, byName)
  {
    posts := [];
    order := [];
    var remaining := byName.Keys;
    while remaining != {}
      invariant remaining <= byName.Keys
      invariant forall name :: name in byName ==> (name in order <==> name !in remaining)
      invariant forall name :: name in order ==> name in byName
      invariant forall a, b :: 0 <= a < b < |order| ==> order[a] != order[b]
      invariant |order| + |remaining| == |byName|
      invariant posts == StrategyPosts(featuresUrl, environment, order, byName)
      decreases |remaining|
    {
      var name :| name in remaining;
      var updateUrl := StrategiesUrl(featuresUrl, name, environment);
      var block := PlanStrategyBlock(updateUrl, byName[name]);
      assert block == StrategyBlock(updateUrl, byName[name]);
      StrategyPostsSnoc(featuresUrl, environment, order, name, byName);
      posts := posts + block;
      order := order + [name];
      remaining := remaining - {name};
    }
  }

  /**
   * The requests of the upload: first every feature to the features
   * endpoint, in order; then, visiting the map in an order of its own,
   * every strategy of each feature to that feature's strategies endpoint.
   * Returns the plan and the order in which the map was visited.
   */
  method PlanRequests(base: Url, environment: string, features: seq<Feature>,
                      byName: map<string, seq<Strategy>>)
    returns (plan: seq<Request>, order: seq<string>)
    ensures IsIterationOrder(order, byName)
    ensures plan == UploadPlan(base, environment, features, order, byName)
  {
    var featuresUrl := FeaturesUrl(base);
    var featurePosts := PlanFeaturePosts(featuresUrl, features);
    assert featurePosts == FeaturePosts(featuresUrl, features);
    var strategyPosts;
    strategyPosts, order := PlanStrategyPosts(featuresUrl, environment, byName);
    plan := featurePosts + strategyPosts;
  }

  /** Sends the requests of `plan` in order, stopping after the first send that fails. */
  method Execute(plan: seq<Request>, succeeds: nat -> bool) returns (upload: Upload)
    ensures FailFast(upload, plan, succeeds)
  {
    var i := 0;
    while i < |plan|
      invariant 0 <= i <= |plan|
      invariant forall j :: 0 <= j < i ==> succeeds(j)
    {
      if !succeeds(i) {
        return Upload(plan[..i + 1], false);
      }
      i := i + 1;
    }
    assert plan[..|plan|] == plan;
    return Upload(plan, true);
  }

  /**
   * The upload stage: a base URL that did not parse, or cannot be a base
   * (None), aborts before any request;
   * otherwise the planned requests are sent fail-fast.
   */
  method PostDataTo(base: Option<Url>, environment: string, features: seq<Feature>,
                    byName: map<string, seq<Strategy>>, succeeds: nat -> bool)
    returns (result: PostResult)
    ensures base.None? <==> result == UrlRejected
    ensures base.Some? ==>
      && IsIterationOrder(result.order, byName)
      && FailFast(result.upload, UploadPlan(base.value, environment, features, result.order, byName), succeeds)
  {
    if base.None? {
      return UrlRejected;
    }
    var plan, order := PlanRequests(base.value, environment, features, byName);
    var upload := Execute(plan, succeeds);
    return Posted(upload, order);
  }

  lemma StrategyPostsSnoc(featuresUrl: Url, env: string, order: seq<string>, name: string,
                          byName: map<string, seq<Strategy>>)
    requires forall n :: n in order ==> n in byName
    requires name in byName
    ensures StrategyPosts(featuresUrl, env, order + [name], byName)
         == StrategyPosts(featuresUrl, env, order, byName)
            + StrategyBlock(StrategiesUrl(featuresUrl, name, env), byName[name])
  {
    StrategyPostsAppend(featuresUrl, env, order, [name], byName);
    assert StrategyPosts(featuresUrl, env, [name], byName)
        == StrategyBlock(StrategiesUrl(featuresUrl, name, env), byName[name]) + [];
  }

  /** With `perFeature` strategies for every feature visited, there are |order| * perFeature strategy POSTs. */
  lemma {:induction false} StrategyPostsLength(featuresUrl: Url, env: string, order: seq<string>,
                                               byName: map<string, seq<Strategy>>, perFeature: nat)
    requires forall name :: name in order ==> name in byName && |byName[name]| == perFeature
    ensures |StrategyPosts(featuresUrl, env, order, byName)| == |order| * perFeature
    decreases |order|
  {
    if order != [] {
      StrategyPostsLength(featuresUrl, env, order[1..], byName, perFeature);
      assert |order| * perFeature == perFeature + (|order| - 1) * perFeature;
    }
  }

  /**
   * Strategy `j` of the `k`-th feature visited is strategy POST number
   * k * perFeature + j: each feature's strategies are contiguous and in
   * order, and go to that feature's strategies endpoint.
   */
  lemma StrategyPostsAt(featuresUrl: Url, env: string, order: seq<string>,
                        byName: map<string, seq<Strategy>>, perFeature: nat, k: nat, j: nat)
    requires forall name :: name in order ==> name in byName && |byName[name]| == perFeature
    requires k < |order| && j < perFeature
    ensures k * perFeature + j < |order| * perFeature == |StrategyPosts(featuresUrl, env, order, byName)|
    ensures StrategyPosts(featuresUrl, env, order, byName)[k * perFeature + j]
         == Post(StrategiesUrl(featuresUrl, order[k], env), StrategyJson(byName[order[k]][j]))
  {
    StrategyPostsLength(featuresUrl, env, order, byName, perFeature);
    BlockIndexInRange(|order|, perFeature, k, j);
    var before, after := order[..k], order[k..];
    assert order == before + after;
    StrategyPostsAppend(featuresUrl, env, before, after, byName);
    StrategyPostsLength(featuresUrl, env, before, byName, perFeature);
    var head := StrategyPosts(featuresUrl, env, before, byName);
    var tail := StrategyPosts(featuresUrl, env, after, byName);
    StrategyPostsFirst(featuresUrl, env, after, byName, j);
    assert (head + tail)[|head| + j] == tail[j];
  }

  lemma StrategyPostsFirst(featuresUrl: Url, env: string, order: seq<string>,
                           byName: map<string, seq<Strategy>>, j: nat)
    requires forall name :: name in order ==> name in byName
    requires order != [] && j < |byName[order[0]]|
    ensures j < |StrategyPosts(featuresUrl, env, order, byName)|
    ensures StrategyPosts(featuresUrl, env, order, byName)[j]
         == Post(StrategiesUrl(featuresUrl, order[0], env), StrategyJson(byName[order[0]][j]))
  {
    var block := StrategyBlock(StrategiesUrl(featuresUrl, order[0], env), byName[order[0]]);
    var rest := StrategyPosts(featuresUrl, env, order[1..], byName);
    assert (block + rest)[j] == block[j];
  }

  lemma {:induction false} StrategyPostsAppend(featuresUrl: Url, env: string, p: seq<string>, q: seq<string>,
                                               byName: map<string, seq<Strategy>>)
    requires forall name :: name in p ==> name in byName
    requires forall name :: name in q ==> name in byName
    ensures StrategyPosts(featuresUrl, env, p + q, byName)
         == StrategyPosts(featuresUrl, env, p, byName) + StrategyPosts(featuresUrl, env, q, byName)
    decreases |p|
  {
    if p == [] {
      assert p + q == q;
    } else {
      assert (p + q)[0] == p[0];
      assert (p + q)[1..] == p[1..] + q;
      StrategyPostsAppend(featuresUrl, env, p[1..], q, byName);
    }
  }

  /** Position j of block k, of n blocks of `size` each, is inside the n * size positions. */
  lemma {:induction false} BlockIndexInRange(n: nat, size: nat, k: nat, j: nat)
    requires k < n && j < size
    ensures k * size + j < n * size
    decreases n
  {
    assert n * size == (n - 1) * size + size;
    if k < n - 1 {
      BlockIndexInRange(n - 1, size, k, j);
    }
  }

  /**
   * When every feature has `perFeature` strategies, the plan holds
   * |features| + |byName| * perFeature requests, and its first |features|
   * requests post the features in order.
   */
  lemma UploadPlanShape(base: Url, env: string, features: seq<Feature>, order: seq<string>,
                        byName: map<string, seq<Strategy>>, perFeature: nat)
    requires IsIterationOrder(order, byName)
    requires forall name :: name in byName ==> |byName[name]| == perFeature
    ensures |UploadPlan(base, env, features, order, byName)| == |features| + |byName| * perFeature
    ensures forall i :: 0 <= i < |features| ==>
      UploadPlan(base, env, features, order, byName)[i] == Post(FeaturesUrl(base), FeatureJson(features[i]))
  {
    StrategyPostsLength(FeaturesUrl(base), env, order, byName, perFeature);
  }

  /**
   * After the features, request |features| + k * perFeature + j of the plan
   * posts strategy `j` of the `k`-th feature visited to its strategies endpoint.
   */
  lemma UploadPlanStrategyAt(base: Url, env: string, features: seq<Feature>, order: seq<string>,
                             byName: map<string, seq<Strategy>>, perFeature: nat, k: nat, j: nat)
    requires IsIterationOrder(order, byName)
    requires forall name :: name in byName ==> |byName[name]| == perFeature
    requires k < |order| && j < perFeature
    ensures |features| + k * perFeature + j < |UploadPlan(base, env, features, order, byName)|
    ensures UploadPlan(base, env, features, order, byName)[|features| + k * perFeature + j]
         == Post(StrategiesUrl(FeaturesUrl(base), order[k], env), StrategyJson(byName[order[k]][j]))
  {
    StrategyPostsAt(FeaturesUrl(base), env, order, byName, perFeature, k, j);
  }

  /** A send that fails stops the upload: no later request is sent. */
  lemma FailedSendIsLast(upload: Upload, plan: seq<Request>, succeeds: nat -> bool, n: nat)
    requires FailFast(upload, plan, succeeds)
    requires n < |plan| && !succeeds(n)
    ensures !upload.completed && |upload.issued| <= n + 1
  {
  }
}
