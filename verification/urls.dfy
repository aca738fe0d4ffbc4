/**
 * URLs of the administrative API. A URL is what precedes its path (scheme
 * and authority) and its path as a sequence of segments; a base URL whose
 * path is "/" has no segments.
 */
module Urls {

  datatype Url = Url(origin: string, path: seq<string>)

  /** Appends one segment to a copy of `u`'s path. */
  function Push(u: Url, segment: string): Url {
    Url(u.origin, u.path + [segment])
  }

  /** The endpoint that creates features; the project is always "default". */
  function FeaturesUrl(base: Url): (r: Url)
    ensures r.origin == base.origin
    ensures r.path == base.path + ["api", "admin", "projects", "default", "features"]
  {
    Push(Push(Push(Push(Push(base, "api"), "admin"), "projects"), "default"), "features")
  }

  /** The endpoint that adds strategies to one feature in one environment. */
  function StrategiesUrl(featuresUrl: Url, featureName: string, env: string): (r: Url)
    ensures r.origin == featuresUrl.origin
    ensures r.path == featuresUrl.path + [featureName, "environments", env, "strategies"]
  {
    Push(Push(Push(Push(featuresUrl, featureName), "environments"), env), "strategies")
  }

  /** The text of a URL: the origin, then "/" before every segment. */
  function Render(u: Url): string {
    u.origin + JoinSegments(u.path)
  }

  function JoinSegments(path: seq<string>): string
    decreases |path|
  {
    if path == [] then "" else "/" + path[0] + JoinSegments(path[1..])
  }

  /** Distinct features are posted their strategies at distinct endpoints. */
  lemma StrategiesUrlInjective(featuresUrl: Url, a: string, b: string, env: string)
    requires StrategiesUrl(featuresUrl, a, env) == StrategiesUrl(featuresUrl, b, env)
    ensures a == b
  {
    var p := |featuresUrl.path|;
    assert StrategiesUrl(featuresUrl, a, env).path[p] == a;
  }

  /** As text, pushing a segment appends "/" and the segment. */
  lemma RenderPush(u: Url, segment: string)
    ensures Render(Push(u, segment)) == Render(u) + ("/" + segment)
  {
    JoinSegmentsAppend(u.path, [segment]);
    assert JoinSegments([segment]) == "/" + segment + "" by {
      JoinSegmentsCons([segment]);
    }
    calc {
      Render(Push(u, segment));
      u.origin + (JoinSegments(u.path) + ("/" + segment));
      (u.origin + JoinSegments(u.path)) + ("/" + segment);
    }
  }

  /** As text, the features endpoint is the base followed by "/api/admin/projects/default/features". */
  lemma RenderFeaturesUrl(base: Url)
    ensures Render(FeaturesUrl(base)) == Render(base) + "/api/admin/projects/default/features"
  {
    RenderFeaturesUrlBySegment(base);
    assert "/api/admin/projects/default/features"
        == "/api" + ("/admin" + ("/projects" + ("/default" + "/features")));
  }

  lemma RenderFeaturesUrlBySegment(base: Url)
    ensures Render(FeaturesUrl(base))
         == Render(base) + ("/api" + ("/admin" + ("/projects" + ("/default" + "/features"))))
  {
    var u1 := Push(base, "api");
    var u2 := Push(u1, "admin");
    var u3 := Push(u2, "projects");
    var u4 := Push(u3, "default");
    RenderPush(base, "api");
    RenderPush(u1, "admin");
    RenderPush(u2, "projects");
    RenderPush(u3, "default");
    RenderPush(u4, "features");
    var r := Render(base);
    var a, b, c, d, e := "/api", "/admin", "/projects", "/default", "/features";
    ConcatAssoc(((r + a) + b) + c, d, e);
    ConcatAssoc((r + a) + b, c, d + e);
    ConcatAssoc(r + a, b, c + (d + e));
    ConcatAssoc(r, a, b + (c + (d + e)));
  }

  /** As text, a strategies endpoint is "/<name>/environments/<env>/strategies" after the features endpoint. */
  lemma RenderStrategiesUrl(featuresUrl: Url, featureName: string, env: string)
    ensures Render(StrategiesUrl(featuresUrl, featureName, env))
         == Render(featuresUrl) + ("/" + featureName + "/environments/" + env + "/strategies")
  {
    var u1 := Push(featuresUrl, featureName);
    var u2 := Push(u1, "environments");
    var u3 := Push(u2, env);
    RenderPush(featuresUrl, featureName);
    RenderPush(u1, "environments");
    RenderPush(u2, env);
    RenderPush(u3, "strategies");
  }

  /**
   * For a base URL whose path is "/", the two endpoints read
   * "<origin>/api/admin/projects/default/features" and
   * "<origin>/api/admin/projects/default/features/<name>/environments/<env>/strategies".
   */
  lemma EndpointsText(origin: string, featureName: string, env: string)
    ensures Render(FeaturesUrl(Url(origin, []))) == origin + "/api/admin/projects/default/features"
    ensures Render(StrategiesUrl(FeaturesUrl(Url(origin, [])), featureName, env))
         == origin + "/api/admin/projects/default/features" + "/" + featureName
              + "/environments/" + env + "/strategies"
  {
    var base := Url(origin, []);
    assert Render(base) == origin;
    RenderFeaturesUrl(base);
    RenderStrategiesUrl(FeaturesUrl(base), featureName, env);
  }

  lemma ConcatAssoc(a: string, b: string, c: string)
    ensures (a + b) + c == a + (b + c)
  {
  }

  lemma JoinSegmentsCons(path: seq<string>)
    requires path != []
    ensures JoinSegments(path) == "/" + path[0] + JoinSegments(path[1..])
  {
  }

  lemma {:induction false} JoinSegmentsAppend(p: seq<string>, q: seq<string>)
    ensures JoinSegments(p + q) == JoinSegments(p) + JoinSegments(q)
    decreases |p|
  {
    if p != [] {
      assert (p + q)[1..] == p[1..] + q;
      JoinSegmentsAppend(p[1..], q);
    } else {
      assert p + q == q;
    }
  }
}
