# Feature-flag test-data generator, modelled in Dafny

This project models the core of a small command-line tool that fabricates
test data for a feature-flag service and uploads it through the service's
administrative HTTP API. One run:

1. **generates** `count` features, each named by a fresh unique identifier
   with no description, a random feature type and a random impression-data
   flag. For every feature it then builds `strategies_per_feature`
   gradual-rollout strategies, keyed by the feature's name. Each strategy has
   the title `strategy_<name>_<index>`, a random `rollout` percentage in
   [1, 99], stickiness `default`, `groupId` set to the feature's name, and a
   random sort order in [1, 99999];
2. then **prints** the data, or **uploads** it when an API key is given, or
   does nothing. An upload POSTs every feature to
   `<base>/api/admin/projects/default/features`. It then POSTs each feature's
   strategies to `<features URL>/<name>/environments/<env>/strategies`. The
   first send that fails aborts the run.

Modules, one per component of `src/main.rs`:

- `Model` (model.dfy): the records: `FeatureType`, `Feature`, `Operator`, `Constraint` and `Strategy`.
- `Sampling` (sampling.dfy): the tables that turn a random index into a `FeatureType` or an `Operator`.
- `OperatorOrder` (operator_order.dfy): the ordering derived for `Operator`. Known variants compare by declaration position. `Unknown` comes last. Two `Unknown`s compare by their text.
- `Decimal` (decimal.dfy): the decimal text that `format!` writes for a number, and a reference parser for it.
- `Urls` (urls.dfy): the two URL builders. A URL is an origin plus a sequence of path segments.
- `Generator` (generator.dfy): the generation stage, written as loops over a stream of random draws.
- `Publisher` (publisher.dfy): the upload stage. It plans the ordered request list and executes it fail-fast.
- `App` (app.dfy): the mode dispatch at the end of `main`.

Random draws are modelled as a stream `draws: nat -> nat` read through an
explicit cursor. The run uses one thread-local generator: `rand::random` and
`rng` are the same generator. A draw `d` becomes `lo + d % (hi - lo)` for the
range [lo, hi). In the model a feature takes two draws, its type and then its impression
flag, and a strategy takes two draws, its rollout and then its sort order.
The identifier generator is replaced by the sequence of names it produces.
These draw counts are a convention of the model, not the generator's exact
consumption: the random bits the identifier generator takes are left out of
the stream, and the library's `gen_range` samples by rejection and may
consume more than one raw value per call. Only the order of the draws and
the range each lands in are modelled. The outcome of
the n-th send is `succeeds(n)`.

A few behaviours are sometimes described for this tool but are absent from
the code. The model follows the code:

- no request enables the environment (`/on`);
- the project is hard-coded to `default`;
- all feature POSTs precede all strategy POSTs, instead of being interleaved per feature.

A fully successful upload therefore sends `C + C*S` requests, not
`C + C*S + C`. Also, without an API key and without `print_to_shell`, the
program silently does nothing. It never uses the `invalidkey` placeholder,
because `unwrap_or` is only reached when a key is present.

## Model

| member | source | states |
|---|---|---|
| `Sampling.SampleFeatureType` | src/main.rs:41-51 | index 0..3 yields the feature type declared at that position; any other index yields `Release` |
| `Sampling.FeatureTypeTableOnto` | src/main.rs:43-48 | every feature type is produced by exactly one index in 0..3, so the table is a bijection |
| `Sampling.OperatorPosition` | src/main.rs:64-80 | positions run 0..15, and position 15 is exactly the `Unknown` variant |
| `Sampling.SampleOperator` | src/main.rs:83-104 | index 0..14 yields the known operator declared at that position, never `Unknown`; any other index yields `Unknown("What are you on about")` |
| `Sampling.OperatorTableOnto` | src/main.rs:85-100 | every known operator is produced by exactly one index in 0..14 |
| `OperatorOrder.CompareStrings` | src/main.rs:80 | the order of `String` on `Unknown` payloads, character by character: a proper prefix is Less, the longer string is Greater, and Equal only between strings of the same length; `CompareStringsReverse`, `CompareStringsEqual` and `CompareStringsTransitive` prove it a total order |
| `OperatorOrder.CompareOperators` | src/main.rs:62-81 | the derived `Ord`: a known operator is Less than any `Unknown`; two known operators are Less exactly by declaration position and Equal exactly when they are the same; two `Unknown`s compare by `CompareStrings` on their text; the lemmas below prove it a total order |
| `OperatorOrder.CompareStringsReverse` | src/main.rs:80 | swapping two `Unknown` payloads reverses their lexicographic comparison |
| `OperatorOrder.CompareStringsEqual` | src/main.rs:80 | two payloads compare Equal if and only if they are the same string |
| `OperatorOrder.CompareStringsTransitive` | src/main.rs:80 | the lexicographic Less on payloads is transitive |
| `OperatorOrder.CompareOperatorsReverse` | src/main.rs:62-81 | the derived comparison is antisymmetric: swapping the operands reverses the result |
| `OperatorOrder.CompareOperatorsEqual` | src/main.rs:62-81 | the derived comparison says Equal if and only if the two operators are equal |
| `OperatorOrder.CompareOperatorsTransitive` | src/main.rs:62-81 | the derived Less is transitive |
| `OperatorOrder.OperatorOrderShape` | src/main.rs:62-81 | known operators are ordered by declaration position; every `Unknown` is greater than every known operator; two `Unknown`s compare by their text |
| `OperatorOrder.SampleOperatorMonotone` | src/main.rs:85-100 | a lower table index yields an operator that is Less in the derived order |
| `OperatorOrder.OperatorLeTotalOrder` | src/main.rs:62-81 | the derived `<=` is reflexive, antisymmetric, transitive and total |
| `Decimal.DecimalText` | src/main.rs:218 | the text of a number is non-empty and all digits, has no leading zero, and has one digit exactly when the number is below 10 |
| `Decimal.ParseDecimalText` | src/main.rs:218 | reading back the decimal text of `n` gives `n` |
| `Decimal.DecimalTextInjective` | src/main.rs:215 | distinct indices have distinct decimal texts |
| `Decimal.DecimalTextOfParsed` | src/main.rs:218 | every digit string without a leading zero is the decimal text of its value, so decimal text is onto canonical digit strings |
| `Urls.FeaturesUrl` | src/main.rs:128-139 | keeps the base's origin, and its path is the base path extended by exactly `api`, `admin`, `projects`, `default`, `features` |
| `Urls.StrategiesUrl` | src/main.rs:141-151 | keeps the origin, and its path is the input path extended by exactly the feature name, `environments`, the environment and `strategies` |
| `Urls.StrategiesUrlInjective` | src/main.rs:141-151 | two feature names with the same strategies endpoint are equal |
| `Urls.RenderFeaturesUrl` | src/main.rs:128-139 | as text, the features endpoint is the base followed by `/api/admin/projects/default/features` |
| `Urls.RenderStrategiesUrl` | src/main.rs:141-151 | as text, a strategies endpoint is the features endpoint followed by `/<name>/environments/<env>/strategies` |
| `Urls.EndpointsText` | src/main.rs:128-151 | for a base whose path is `/`, both endpoints have the exact expected text |
| `Generator.GenRange` | src/main.rs:217 | a draw for the range [lo, hi) lies in [lo, hi) |
| `Generator.StrategyTitle` | src/main.rs:215 | the title is `strategy_`, then the feature's name, then `_`, then digits that read back as the index; `StrategyTitleInjective` proves the title determines both |
| `Generator.GenerateFeatures` | src/main.rs:200-208 | builds exactly `count` features in generation order; feature `i` has name `names[i]`, no description, and its type and impression flag come from its two draws through the FeatureType table; the cursor advances by two per feature |
| `Generator.NewStrategy` | src/main.rs:214-229 | the strategy satisfies `IsRolloutStrategy`: name `gradualRollout`, title `strategy_<name>_<index>`, enabled, no constraints or segments, and exactly the keys rollout, stickiness and groupId, holding the canonical decimal text (no leading zero) of a value in [1, 99], `default`, and the feature's name; its rollout is the decimal text of the next draw reduced to [1, 100), and its sort order the following draw reduced to [1, 100000) |
| `Generator.GenerateStrategyList` | src/main.rs:212-229 | builds exactly `strategies_per_feature` strategies of one feature in index order, strategy `s` satisfying `IsRolloutStrategy` for that name and index `s` |
| `Generator.GenerateStrategies` | src/main.rs:209-234 | the map's keys are exactly the features' names, and every key maps to exactly `strategies_per_feature` strategies, where strategy `s` satisfies `IsRolloutStrategy` for that name and index `s`, so its rollout is the canonical decimal text of a value in [1, 99] |
| `Generator.DistinctNamesCount` | src/main.rs:209-234 | with pairwise-distinct names, the map has exactly one key per feature |
| `Generator.StrategyTitleInjective` | src/main.rs:215 | two strategies share a title only if they have the same feature name and the same index |
| `Generator.Generate` | src/main.rs:199-234 | the generation stage yields `count` features named by `names` in order, with no description; it yields the name-to-strategies map described above, each strategy satisfying `IsRolloutStrategy` (canonical rollout text in [1, 99]), with exactly `count` keys when the names are distinct |
| `Publisher.PlanFeaturePosts` | src/main.rs:170-177 | one POST per feature to the features endpoint, in vector order |
| `Publisher.PlanStrategyBlock` | src/main.rs:185-192 | one POST per strategy of a feature to that feature's strategies endpoint, in vector order |
| `Publisher.PlanStrategyPosts` | src/main.rs:178-193 | visits every map entry exactly once, in an order it returns, and emits each feature's strategy POSTs as one block in that order |
| `Publisher.PlanRequests` | src/main.rs:168-193 | the request list is all feature POSTs followed by the strategy POSTs of every map entry, and the visit order is a permutation of the map's keys |
| `Publisher.Execute` | src/main.rs:170-193 | satisfies `FailFast`: it sends a prefix of the plan in which every send but the last succeeded; it completes if and only if every planned send succeeds, and then it has sent the whole plan; otherwise the last request sent is the one that failed |
| `Publisher.PostDataTo` | src/main.rs:153-194 | a base URL that does not parse, or parses as a cannot-be-a-base URL, aborts before any request; otherwise the run is a fail-fast execution of the request list for some iteration order of the map |
| `Publisher.StrategyPostsLength` | src/main.rs:178-193 | when every feature has S strategies, visiting k features yields exactly k*S strategy POSTs |
| `Publisher.StrategyPostsAt` | src/main.rs:178-193 | strategy POST number k*S+j is strategy j of the k-th feature visited, sent to that feature's strategies endpoint, so each feature's strategies are contiguous and in order |
| `Publisher.UploadPlanShape` | src/main.rs:170-193 | the request list has `C + C*S` entries, and its first C entries POST the features in vector order |
| `Publisher.UploadPlanStrategyAt` | src/main.rs:178-193 | request C + k*S + j POSTs strategy j of the k-th feature visited to that feature's strategies endpoint |
| `Publisher.FailedSendIsLast` | src/main.rs:176-191 | once a planned send fails, the run does not complete and sends no later request |
| `App.Run` | src/main.rs:236-248 | printing sends nothing; without an API key nothing happens; with a key the upload runs and is rejected before any request exactly when the URL does not parse or cannot be a base; the features are named by `names` in order with no description; with pairwise-distinct `names` and every send succeeding, exactly `count + count*strategies_per_feature` requests are sent and the run completes |

## Left out

- Command-line parsing and environment-variable defaults are clap-derived. The model takes the parsed `Args`, with the base URL already parsed. It is None when it does not parse, and also when it parses as a cannot-be-a-base URL (for example `localhost:4242`, read as scheme `localhost`): there `path_segments_mut().unwrap()` in `features_url` panics before any request, exactly like the failed parse. The URL model has no cannot-be-a-base form, so that distinction is made when `Args` is built.
- The HTTP client, its `Authorization` and `Content-Type` headers, `send().await` and the tokio runtime are I/O. Each send is an abstract success or failure. Response status codes are never inspected by the code, so they are absent too.
- `App.Run`: a key rejected by `HeaderValue::from_str` and a failed client build make the program panic before any request. The model assumes both succeed, because they are library behaviour.
- JSON serialisation, `Debug` printing and the progress `println!` lines are library-generated output. The `Printed` outcome carries no text, and the serde round trip of records is not modelled.
- Unique-identifier generation and the random number generator are foreign. They become the `names` sequence and the `draws` stream. Only ranges are modelled, not uniformity; reduction by `%` stands in for the library's sampling.
- The URL library's percent-encoding, its skipping of `.` and `..` segments, and its serialisation details are library behaviour. A path is a plain sequence of segments, and a base with path `/` has no segments.
- `HashMap` iteration order is unspecified. The model chooses an arbitrary order and proves properties for every such order.
- `Generator.GenerateStrategies` states the structure and ranges of every strategy, not which draws of the stream fill which strategy. `Generator.NewStrategy` states that per strategy.
- `Sampling.SampleOperator` is modelled as a table only, because the generator never builds constraints.
- The `u32` widths of `count`, `strategies_per_feature`, `sort_order` and segment ids are kept as a subset type. No arithmetic on them can overflow, since ranges and counts stay far below 2^32.
