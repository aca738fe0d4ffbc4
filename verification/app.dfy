/**
 * One run of the program: generate the data, then print it, upload it, or
 * do nothing, depending on the command-line arguments.
 */
module App {
  import opened Model
  import opened Urls
  import opened Generator
  import opened Publisher

  /**
   * The parsed command line. `unleashUrl` is the base URL as the URL
   * parser reads it; it is None when it does not parse, and also when it
   * parses as a cannot-be-a-base URL, whose path segments cannot be
   * extended, so that building the features endpoint aborts the run before
   * any request just as a failed parse does.
   */
  datatype Args = Args(
    count: U32,
    strategiesPerFeature: U32,
    environment: string,
    printToShell: bool,
    unleashUrl: Option<Url>,
    apiKey: Option<string>)

  /** What the run did with the generated data. */
  datatype Outcome = Printed | Published(result: PostResult) | Skipped

  /**
   * Generates `args.count` features named by `names` and their strategies,
   * then prints them when asked to; otherwise uploads them when an API key
   * is given; otherwise does nothing.
   */
  method Run(args: Args, names: seq<string>, draws: nat -> nat, succeeds: nat -> bool)
    returns (features: seq<Feature>, byName: map<string, seq<Strategy>>, outcome: Outcome)
    requires |names| == args.count
    ensures |features| == args.count
    ensures forall i :: 0 <= i < args.count ==> features[i].name == names[i] && features[i].description == None
    ensures byName.Keys == NameSet(features)
    ensures forall name :: name in byName ==> IsStrategyList(byName[name], name, args.strategiesPerFeature)
    ensures args.printToShell ==> outcome == Printed
    ensures !args.printToShell && args.apiKey.None? ==> outcome == Skipped
    ensures !args.printToShell && args.apiKey.Some? ==>
      && outcome.Published?
      && (outcome.result == UrlRejected <==> args.unleashUrl.None?)
    ensures outcome.Published? && outcome.result.Posted? ==>
      && args.unleashUrl.Some?
      && IsIterationOrder(outcome.result.order, byName)
      && FailFast(outcome.result.upload,
                  UploadPlan(args.unleashUrl.value, args.environment, features, outcome.result.order, byName),
                  succeeds)
    ensures outcome.Published? && outcome.result.Posted? && DistinctNames(features) ==>
      var total := args.count + args.count * args.strategiesPerFeature;
      (forall n :: 0 <= n < total ==> succeeds(n)) ==>
        outcome.result.upload.completed && |outcome.result.upload.issued| == total
    ensures (&& outcome.Published? && outcome.result.Posted?
             && forall i, j :: 0 <= i < j < |names| ==> names[i] != names[j]) ==>
      var total := args.count + args.count * args.strategiesPerFeature;
      (forall n :: 0 <= n < total ==> succeeds(n)) ==>
        outcome.result.upload.completed && |outcome.result.upload.issued| == total
  {
    features, byName := Generate(args.count, args.strategiesPerFeature, names, draws);
    if args.printToShell {
      outcome := Printed;
    } else if args.apiKey.Some? {
      var result := PostDataTo(args.unleashUrl, args.environment, features, byName, succeeds);
      outcome := Published(result);
      if result.Posted? && DistinctNames(features) {
        UploadPlanShape(args.unleashUrl.value, args.environment, features, result.order, byName,
                        args.strategiesPerFeature);
      }
    } else {
      outcome := Skipped;
    }
  }
}
