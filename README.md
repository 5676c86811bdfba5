# Guest risk scoring, modelled in Dafny

This project models the rule-based guest risk scoring engine of a short-term
rental back end. It also models the normalisers that feed the engine, the
in-memory reservation store, and the older scorers still in the tree.

The current engine works like this:

- A normalised guest record is run against seven built-in rules. The rules
  are missing-location, no-profile-picture, missing-email, missing-phone,
  no-reviews, no-trips and negative-reviews.
- The rules are kept in an insertion-ordered registry that refuses
  duplicate ids.
- Each rule's score and on/off switch come from a cached scoring
  configuration. Updates are merged into it key by key.
- Every enabled rule whose predicate holds adds its configured score.
- The sum is classified as low, medium or high.

The legacy pieces are:

- the camelCase rule table (`riskRules.ts`);
- the fixed-weight accumulator of `riskScorer.js` with its own normaliser;
- the four-condition score of `index.js`.

Modules, one per component of the source:

| module | file | models |
|---|---|---|
| `Wrappers` | wrappers.dfy | `Option`, `Result`, `Outcome` |
| `JsValues` | js_values.dfy | JavaScript values, truthiness, `??`, `\|\|`, property reads, `String.prototype.trim`, template stringification, `Number(...)` |
| `GuestFields` | guest_fields.dfy | the field expressions shared by every guest normaliser |
| `Reservations` | reservations.dfy | `NormalizedGuest`, `NormalizedReservation`, `normalizeGuest` / `normalizeReservation` of `getReservationDetails.ts` |
| `RuleRegistry` | rule_registry.dfy | `RiskRule` and the registry class |
| `Rules` | rules.dfy | the seven rule files, `RULE_IDS`, `registerAllRules` |
| `ScoringConfig` | config.dfy | `config.ts`: defaults, the cached `currentConfig`, `updateConfig`, `resetConfig` |
| `RiskLevels` | risk_level.dfy | `riskLevel.ts`, `riskLevel.js` and the threshold-parameterised classifier |
| `RiskScorer` | risk_scorer.dfy | `calculateRiskScore` of `riskScorer.ts` |
| `ReservationStore` | reservation_store.dfy | `reservationStore.ts` |
| `LegacyRules` | legacy_rules.dfy | `riskRules.ts` |
| `LegacyNormalize` | legacy_normalize.dfy | `utils/normalizeGuest.ts` and `.js` |
| `LegacyScorer` | legacy_scorer.dfy | `riskScorer.js` |
| `BookingScore` | booking_score.dfy | `calculateRiskScore` of `index.js` |

Modelling choices:

- **Objects passed as parameters.** The state the source keeps in singletons
  and module variables is held by classes that callers pass in:
  - `Registry` holds the rule `Map`, as `order` (keys in insertion order)
    and `rules`;
  - `ConfigStore` holds `currentConfig` as an `Option<Config>`;
  - `Store` holds the reservation `Map`.
- **Errors are values.** A `throw` becomes a `Failure`/`Fail` value.
- **Imperative code stays imperative.** Code that changes state or loops is
  written as methods, each proved against a function:
  - `registerRule` and `registerAllRules`;
  - the caching functions of `config.ts` and the loop of `getDefaultConfig`;
  - the scoring loop;
  - `save`;
  - the accumulators of `riskScorer.js` and `index.js`.
- **Guest field names.** The current engine reads a guest with snake_case
  keys. Dafny's `Guest` names them `reviewCount`, `tripCount`,
  `hasNegativeReviews`, `profilePicture` and `phoneNumbers`.
- **The legacy guest.** The legacy normaliser reads camelCase counts and
  passes them through untyped, so `LegacyGuest` keeps them as JavaScript
  values (`Raw`).
- **The clock is a parameter.** `Store.Save` takes `now`, the time of
  saving in milliseconds, in place of `new Date()`.

## Model

| member | source | states |
|---|---|---|
| JsValues.Truthy | src/scoring/riskRules.ts:23-54 | `!!v`: false exactly for undefined, null, false, 0 and ""; LegacyRules.LegacyBlankNotMissing and LegacyRules.LegacyFlagExamples show what this means for the legacy rules |
| JsValues.Coalesce | src/utils/normalizeGuest.ts:18-22 | `a ?? b` is b exactly when a is null or undefined, and a otherwise, so 0, false and "" are kept |
| JsValues.OrElse | src/utils/normalizeGuest.ts:15 | `a \|\| b` is a exactly when a is truthy, and b otherwise |
| JsValues.Trim | src/utils/normalizeGuest.ts:19 | the result neither starts nor ends with whitespace; with TrimIsSlice, TrimEmptyIff and TrimIdempotent it is the `trim()` of the input |
| JsValues.TrimEmptyIff | src/scoring/rules/missingLocation.ts:11 | `trim()` yields "" exactly when the string is whitespace only |
| JsValues.TrimIdempotent | src/scoring/rules/missingLocation.ts:11 | trimming twice is trimming once |
| JsValues.TrimIsSlice | src/utils/normalizeGuest.ts:19 | the trimmed string is a slice of the input with only whitespace cut off either end |
| JsValues.Stringify | src/utils/normalizeGuest.ts:19 | `String(v)` as a template literal shows it; of an integer it is the decimal text, which JsValues.DecimalRoundTrip reads back |
| JsValues.TextOr | src/utils/normalizeGuest.ts:19 | `${v \|\| ''}` is "" for every falsy value and the string itself for a string |
| JsValues.ToNumber | src/scoring/riskScorer.js:39-43 | `Number(v)`: a number is itself, null is 0, undefined is NaN; a string is the value of its trimmed decimal literal (JsValues.DecimalRoundTrip) |
| JsValues.GreaterThan | src/scoring/riskScorer.js:39 | `v > k` holds exactly when `Number(v)` is a number above k; by JsValues.NumericStringCompares a count sent as decimal text compares as the count |
| JsValues.LessThan | index.js:9-11 | `v < k` holds exactly when `Number(v)` is a number below k, so an undefined count is never below it |
| JsValues.LiteralValue | src/scoring/riskScorer.js:39-43 | the empty literal is 0, and a literal that is a number has a digit, so "-" and "+" alone are NaN |
| JsValues.DigitsValueOfDigits | src/scoring/riskScorer.js:39-43 | reading back the decimal digits of a natural number gives that number |
| JsValues.DecimalRoundTrip | src/scoring/riskScorer.js:39-43 | `Number(String(n)) === n` for every integer n, negative ones included |
| JsValues.PaddedDecimalRoundTrip | src/scoring/riskScorer.js:39-43 | spaces around the decimal text of n are trimmed away: it still coerces to n |
| JsValues.NumericStringCompares | src/scoring/riskScorer.js:39 | for every n and k: `String(n) > k` iff n > k, and `String(n) < k` iff n < k |
| JsValues.CoercionExamples | src/scoring/riskScorer.js:39-43 | three worked comparisons only: `"7" > 0`, `"" < 2` and `null < 2` hold, `undefined < 2` does not |
| GuestFields.NonBlankString | src/utils/normalizeGuest.ts:23-25 | true exactly for a string with a non-whitespace character |
| GuestFields.StringWithContent | src/utils/normalizeGuest.ts:27-34 | the value is kept unchanged exactly when it is a string with content, otherwise null |
| GuestFields.StringOrNull | src/utils/normalizeGuest.ts:35 | any string is kept (blank included), every other value becomes null |
| GuestFields.ListOrEmpty | src/utils/normalizeGuest.ts:26 | an array is kept as it is, anything else becomes [] |
| GuestFields.DisplayName | src/utils/normalizeGuest.ts:19 | the name never starts or ends with whitespace |
| GuestFields.DisplayNameOfMissing | src/utils/normalizeGuest.ts:19 | two missing names give "" (the separator alone is trimmed away) |
| GuestFields.DisplayNameExample | src/services/getReservationDetails.ts:88 | Test / Guest gives "Test Guest" |
| GuestFields.DisplayNameFirstOnly | src/utils/normalizeGuest.ts:19 | a first name alone is the whole name, with no trailing separator |
| Reservations.NormalizeGuest | src/services/getReservationDetails.ts:85-107 | throws exactly on a null/undefined guest; the counts are always 0, 0, false |
| Reservations.NormalizeGuestFields | src/services/getReservationDetails.ts:85-107 | email and location: kept unchanged iff a string with content, else null; picture true iff a non-blank string; phones: the array or []; id never undefined; name trimmed |
| Reservations.NormalizeGuestExample | test/services/getReservationDetails.test.ts:39-46 | the test payload normalises to "Test Guest", no picture, no contact data, language "en" |
| Reservations.NormalizeReservation | src/services/getReservationDetails.ts:109-123 | fails exactly when the guest is missing; every other field is passed through unchanged; the guest is normalised; risk_factors is rebuilt from the normalised guest, so it is always 0 / 0 / false |
| LegacyNormalize.GuestSource | src/utils/normalizeGuest.ts:15 | a truthy `guest` is read, anything else gives the empty object |
| LegacyNormalize.NormalizeGuest | src/utils/normalizeGuest.ts:14-37 | `normalizeGuest` never throws; what each field becomes is stated by NormalizeGuestFields and CountsPassThrough |
| LegacyNormalize.NormalizeGuestFields | src/utils/normalizeGuest.ts:14-37 | the same email, location, picture, phone and name promises as the current normaliser, for any payload, which never throws |
| LegacyNormalize.CountsPassThrough | src/utils/normalizeGuest.ts:20-22 | counts and flag default to 0 / 0 / false only when null or absent; any present value, 0 and false included, passes through |
| LegacyNormalize.MissingGuestDefaults | src/utils/normalizeGuest.ts:15-36 | a payload without a truthy guest gives the all-default guest |
| LegacyNormalize.NoPayloadDefaults | src/utils/normalizeGuest.js:3-29 | null, undefined, {} and a null guest all give the all-default guest |
| LegacyRules.LegacyMissingLocation | src/scoring/riskRules.ts:23 | `!guest.location`: matches null, absent and "", and no other string (LegacyBlankNotMissing) |
| LegacyRules.LegacyNoProfilePicture | src/scoring/riskRules.ts:28 | `!guest.profile_picture`: matches false or absent, not a blank string (LegacyFlagExamples) |
| LegacyRules.LegacyMissingEmail | src/scoring/riskRules.ts:33 | `!guest.email`: matches null, absent and "", and no other string (LegacyBlankNotMissing) |
| LegacyRules.LegacyMissingPhone | src/scoring/riskRules.ts:38-39 | matches exactly an empty array (LegacyMissingPhoneSpec) |
| LegacyRules.LegacyNoReviews | src/scoring/riskRules.ts:44 | trips above 0 and reviews strictly 0; never together with no-trips (LegacyNoReviewsExcludesNoTrips); a trip count sent as text is read as its number (LegacyStringCounts) |
| LegacyRules.LegacyNoTrips | src/scoring/riskRules.ts:49 | the trip count strictly equal to 0, so a count sent as text never matches (LegacyStringCounts) |
| LegacyRules.LegacyNegativeReviews | src/scoring/riskRules.ts:54 | the flag read by truthiness, so the text "false" matches and 0 does not (LegacyFlagExamples) |
| LegacyRules.RuleKeysAreRuleIds | src/scoring/riskRules.ts:7-15 | the legacy keys are distinct and equal to the current rule ids, in order |
| LegacyRules.LegacyScores | src/scoring/riskRules.ts:19-56 | the legacy scores are 10, 10, 15, 15, 30, 10, 40, the current rules' defaults |
| LegacyRules.LegacyMissingPhoneSpec | src/scoring/riskRules.ts:35-40 | matches iff `phone_numbers` is an empty array; null, absent or a non-array does not match |
| LegacyRules.LegacyNoReviewsExcludesNoTrips | src/scoring/riskRules.ts:41-50 | no-reviews and no-trips never hold for the same object |
| LegacyRules.LegacyBlankNotMissing | src/scoring/riskRules.ts:20-34 | location and email match null and absent; of the strings exactly "" matches, so no whitespace-only string does |
| LegacyRules.LegacyStringCounts | src/scoring/riskRules.ts:44-49 | `>` coerces a trip count sent as decimal text, so no-reviews matches it iff it is above 0; `===` does not, so a review count or trip count sent as text never equals 0 |
| LegacyRules.LegacyFlagExamples | src/scoring/riskRules.ts:28-54 | the text "false" counts as a negative review, 0 and absence do not; false is a missing picture, a blank string is not |
| Rules.MissingLocationApplies | src/scoring/rules/missingLocation.ts:9-11 | fires exactly for a null or whitespace-only location (MissingLocationSpec) |
| Rules.NoProfilePictureApplies | src/scoring/rules/noProfilePicture.ts:9 | fires exactly without a picture, reading that flag alone (PredicatesReadOwnFields) |
| Rules.MissingEmailApplies | src/scoring/rules/missingEmail.ts:9 | fires exactly for null and "" (MissingEmailSpec) |
| Rules.MissingPhoneApplies | src/scoring/rules/missingPhone.ts:9 | fires exactly for an empty phone list (MissingPhoneSpec) |
| Rules.NoReviewsApplies | src/scoring/rules/noReviews.ts:9 | trips but no reviews; never together with no-trips (NoReviewsExcludesNoTrips) |
| Rules.NoTripsApplies | src/scoring/rules/noTrips.ts:9 | exactly a trip count of 0, reading the trip count alone (PredicatesReadOwnFields) |
| Rules.NegativeReviewsApplies | src/scoring/rules/negativeReviews.ts:9 | exactly the negative-reviews flag, reading it alone (PredicatesReadOwnFields) |
| Rules.MissingLocationSpec | src/scoring/rules/missingLocation.ts:9-11 | fires exactly for a null or whitespace-only location |
| Rules.MissingLocationExamples | src/scoring/rules/missingLocation.ts:9-11 | a padded location does not fire; "", blanks and null do |
| Rules.MissingEmailSpec | src/scoring/rules/missingEmail.ts:9 | fires exactly for null and ""; a blank or padded email does not, though a blank location does |
| Rules.MissingPhoneSpec | src/scoring/rules/missingPhone.ts:9 | fires exactly for an empty phone list |
| Rules.NoReviewsExcludesNoTrips | src/scoring/rules/noReviews.ts:9 | no-reviews and no-trips never fire together |
| Rules.PredicatesReadOwnFields | src/scoring/rules/noTrips.ts:9 | each of the seven predicates depends only on its own fields (missing-phone on the list's length alone, no-trips on the trip count alone) |
| Rules.BuiltinTable | src/scoring/rules/index.ts:20-26 | the registered table: ids in RULE_IDS order; scores 10, 10, 15, 15, 30, 10, 40; all enabled and positive; categories; each rule's predicate |
| Rules.RuleIdsDistinct | src/scoring/rules/index.ts:44-52 | the seven RULE_IDS values are pairwise distinct |
| Rules.RegisterAllRules | src/scoring/rules/index.ts:11-41 | the seven registrations in order; with k the first built-in id already present: success iff there is none, failure on the k-th id otherwise, and exactly the rules before it appended |
| Rules.RegisterAllRulesTwice | src/scoring/rules/index.ts:20 | on an empty registry the first call registers the seven rules; a second call fails on missing-location and changes nothing |
| RuleRegistry.FilterCategory | src/scoring/ruleRegistry.ts:40-42 | keeps exactly the rules of the category |
| RuleRegistry.FilterCategoryIsSubsequence | src/scoring/ruleRegistry.ts:40-42 | the filtered list keeps the registry's order |
| RuleRegistry.Registry.Get | src/scoring/ruleRegistry.ts:32-34 | the registered rule, or none for an unknown id, which is not an error |
| RuleRegistry.Registry.All | src/scoring/ruleRegistry.ts:36-38 | each registered rule once, in registration order |
| RuleRegistry.Registry.ByCategory | src/scoring/ruleRegistry.ts:40-42 | exactly the registered rules of the category |
| RuleRegistry.Registry.Register | src/scoring/ruleRegistry.ts:25-30 | refuses a present id and changes nothing; otherwise adds the rule under its id, leaves every other id as it was, and appends it to `All()` |
| RuleRegistry.Registry.Clear | test/scoring/ruleRegistry.test.ts:33-37 | the registry is empty afterwards |
| RuleRegistry.Registry.constructor | src/scoring/ruleRegistry.ts:23 | a new registry is empty |
| RuleRegistry.AllIdsDistinct | src/scoring/ruleRegistry.ts:26-29 | the ids a registry enumerates are pairwise distinct |
| ScoringConfig.DefaultRuleConfigs | src/scoring/config.ts:46-59 | the default entries the loop writes: one key per rule id (DefaultRuleConfigsKeys), holding that rule's default score and flag (DefaultRuleConfigsSpec) |
| ScoringConfig.DefaultRuleConfigsKeys | src/scoring/config.ts:46-59 | one entry per rule id |
| ScoringConfig.DefaultRuleConfigsSpec | src/scoring/config.ts:46-59 | each entry holds the default score and enabled flag of the rule with that id |
| ScoringConfig.FreshConfig | src/scoring/config.ts:61-67 | fresh thresholds are 30 / 60 |
| ScoringConfig.BuildDefaults | src/scoring/config.ts:38-67 | the loop builds the fresh configuration for the registered rules |
| ScoringConfig.MergeThresholds | src/scoring/config.ts:90-93 | each threshold is the supplied one when given, else the old one |
| ScoringConfig.Merge | src/scoring/config.ts:89-98 | thresholds merged field by field; rule entries: old keys plus supplied keys, a supplied entry replacing the old one whole, the others kept; no check of medium against high |
| ScoringConfig.MergeSeparatesParts | src/scoring/config.ts:89-98 | a thresholds-only update keeps the rule entries, a rules-only update keeps the thresholds, an empty update changes nothing |
| ScoringConfig.MergePartialThresholds | src/scoring/config.ts:90-93 | a medium-only update keeps high, and a high-only update keeps medium |
| ScoringConfig.MergeOneRule | src/scoring/config.ts:94-97 | updating one rule replaces its entry and leaves every other entry equal |
| ScoringConfig.MergeWithItself | src/scoring/config.ts:89-98 | feeding a configuration back in changes nothing |
| ScoringConfig.ConfigStore.constructor | src/scoring/config.ts:25 | the cache starts empty |
| ScoringConfig.ConfigStore.DefaultConfig | src/scoring/config.ts:28-73 | returns the cached configuration if any, else fresh defaults for the registered rules, which are then cached |
| ScoringConfig.ConfigStore.CurrentConfig | src/scoring/config.ts:75-81 | the same configuration as DefaultConfig, and it is cached afterwards |
| ScoringConfig.ConfigStore.Update | src/scoring/config.ts:83-101 | the cache becomes the merge of the current configuration (built if missing) with the update |
| ScoringConfig.ConfigStore.Reset | src/scoring/config.ts:104-107 | the cache is cleared, so the next read rebuilds from the registry |
| RiskLevels.Level | src/scoring/riskScorer.ts:64 | high iff score >= high; medium iff medium <= score < high; low otherwise; so every score gets exactly one level |
| RiskLevels.GetRiskLevelIsDefaultLevel | src/scoring/riskLevel.ts:1-5 | the hard-coded classifier is Level at 30 / 60: >= 60 high, 30..59 medium, < 30 low |
| RiskLevels.JsAgreesWithTs | src/scoring/riskLevel.js:3-7 | the CommonJS copy agrees with the TypeScript one on every integer |
| RiskLevels.GetRiskLevelJsBands | src/scoring/riskLevel.js:3-7 | >= 60 high, 30..59 medium, < 30 low |
| RiskLevels.DefaultBoundaries | test/scoring/riskLevel.test.ts:4-12 | 29 is low, 30 medium, 59 medium, 60 high |
| RiskLevels.LevelMonotone | src/scoring/riskLevel.ts:2-4 | a higher score never gets a lower level, whatever the thresholds |
| RiskLevels.LevelAtThresholds | src/scoring/riskScorer.ts:64 | a score equal to a threshold belongs to that threshold's band |
| RiskScorer.Matches | src/scoring/riskScorer.ts:45-61 | the enabled rules whose predicate holds, in registry order, with configured score and rationale (MatchesAreFiringRules) |
| RiskScorer.TotalScore | src/scoring/riskScorer.ts:63 | the `reduce` sum: it distributes over concatenation (TotalScoreAppend), and on the matches it is the sum of the firing rules' scores (ScoreIsSumOfFiredRules) |
| RiskScorer.ReportFor | src/scoring/riskScorer.ts:45-83 | the report the scoring loop builds (CalculateRiskScore): its matches are the firing rules (MatchesAreFiringRules), its score their sum (ScoreIsSumOfFiredRules), its level that sum under the configured thresholds |
| RiskScorer.ReportAsWritten | src/scoring/riskScorer.ts:45-83 | the same report with the level of line 64 as the emitted JavaScript computes it: 30 / 60 whatever the thresholds; equal to ReportFor at 30 / 60 (AsWrittenAgreesOnDefaultThresholds), low instead of medium under 15 / 30 (CustomThresholdsIgnoredAsWritten) |
| RiskScorer.EffectiveEntry | src/scoring/riskScorer.ts:46-49 | the configured entry when there is one, else the rule's defaults |
| RiskScorer.CalculateRiskScore | src/scoring/riskScorer.ts:45-83 | the loop's report is ReportFor: matches in registry order, their sum, its level under the configured thresholds, and those thresholds |
| RiskScorer.ScoreReservation | src/scoring/riskScorer.ts:32-83 | scoring reads the current configuration (building and caching defaults if needed) and reports ReportFor on the registry's rules |
| RiskScorer.MatchesAreFiringRules | src/scoring/riskScorer.ts:45-61 | the matches are exactly the enabled rules whose predicate holds, once each, in registry order, each with its configured score and its rationale |
| RiskScorer.MatchedNames | src/scoring/riskScorer.ts:53-59 | with distinct ids: a rule that does not fire (a disabled one, say) never appears, each firing rule appears, and no name appears twice |
| RiskScorer.TotalScoreAppend | src/scoring/riskScorer.ts:63 | the sum of the scores distributes over concatenation |
| RiskScorer.ScoreIsSumOfFiredRules | src/scoring/riskScorer.ts:63 | the score is the sum of the configured scores of the rules that fire |
| RiskScorer.ScoreNonNegative | src/scoring/riskScorer.ts:63 | with non-negative configured scores the score is non-negative |
| RiskScorer.DisablingRemovesContribution | src/scoring/riskScorer.ts:53 | disabling one rule lowers the score by exactly that rule's contribution |
| RiskScorer.UpdateDisables | src/scoring/config.ts:94-97 | an update that disables one rule changes no other rule's entry |
| RiskScorer.FreshDefaultsEffective | src/scoring/config.ts:46-59 | under fresh defaults every built-in rule uses its own default score and flag |
| RiskScorer.DefaultEntries | src/scoring/config.ts:55-58 | the effective default entries of the seven built-in rules |
| RiskScorer.LowRiskGuest | test/scoring/riskScorer.test.ts:72-98 | full contact data and no trips: only no-trips matches, 10 points, low |
| RiskScorer.HighRiskGuest | test/scoring/riskScorer.test.ts:100-129 | no contact data and no trips: five rules, 60 points, high |
| RiskScorer.TripsWithoutReviews | src/scoring/rules/noReviews.ts:9 | trips without reviews: no-reviews instead of no-trips, 30 points, medium |
| RiskScorer.NegativeReviewsWithOtherFactors | test/scoring/riskScorer.test.ts:228-259 | negative reviews plus four missing factors: five matches, 40 + 10 + 10 + 15 + 15, high |
| RiskScorer.CustomThresholdsHonoured | test/scoring/riskScorer.test.ts:168-201 | under medium 15 / high 30 the missing-email guest scores 15 and is medium |
| RiskScorer.DisabledRuleScenario | test/scoring/riskScorer.test.ts:131-166 | with no-trips disabled the low-risk guest matches nothing: 0, low |
| RiskScorer.AsWrittenAgreesOnDefaultThresholds | src/scoring/riskScorer.ts:64 | at the default thresholds the as-written level agrees with the intended one |
| RiskScorer.CustomThresholdsIgnoredAsWritten | src/scoring/riskScorer.ts:64 | as written, the custom-threshold guest gets low though its report names 15 / 30 |
| RiskScorer.CalculateRiskScoreAsWritten | src/scoring/riskScorer.ts:26-83 | with the registration at line 30: fails on the first built-in id already present, leaving the rules before it registered and the cache untouched; otherwise registers all seven, reads and caches the configuration, and reports with the 30 / 60 level |
| RiskScorer.ScoreAfterStartupAsWritten | src/scoring/riskScorer.ts:30 | after start-up registration, scoring as written fails on missing-location |
| RiskScorer.ScoreAfterStartup | src/scoring/riskScorer.ts:26-83 | after start-up registration, scoring reports ReportFor over the seven rules and fresh defaults |
| RiskScorer.CustomThresholdsTest | test/scoring/riskScorer.test.ts:168-201 | the test's sequence: update the thresholds, then score: 15, medium, thresholds 15 / 30 |
| ReservationStore.SortNewestFirst | src/services/reservationStore.ts:31-33 | the stable sort by `createdAt`, newest first: sorted, a permutation of its input, same-time entries in input order (SortNewestFirstSpec) |
| ReservationStore.SortNewestFirstSpec | src/services/reservationStore.ts:31-33 | the sort gives newest first, a permutation of its input, and keeps entries saved at the same time in their order |
| ReservationStore.Store.constructor | src/services/reservationStore.ts:11 | the store starts empty |
| ReservationStore.Store.Save | src/services/reservationStore.ts:14-24 | sets the entry, stamped with the save time, leaving the other ids; an existing id keeps its place, a new one goes last |
| ReservationStore.Store.Get | src/services/reservationStore.ts:26-28 | the stored entry, or none for an id never saved |
| ReservationStore.Store.Values | src/services/reservationStore.ts:31 | the entries in the map's insertion order |
| ReservationStore.Store.List | src/services/reservationStore.ts:30-34 | one element per stored id; each stored entry appears and nothing else; newest first; ties in insertion order; reading it changes nothing |
| ReservationStore.SaveThenGet | src/services/reservationStore.ts:19-28 | after a save, get returns what was saved, an unsaved id gives none, and the list is that one entry |
| ReservationStore.OverwriteKeepsOne | src/services/reservationStore.ts:19 | saving an id twice keeps one entry, the later one |
| LegacyScorer.Expected | src/scoring/riskScorer.js:18-57 | the report of the accumulator (ScoreGuest): check by check (ExpectedTerms), score the sum of the weights that hold (ScoreTerms) within 0..120 (ScoreBounds), one line per check that holds (LinesPerCheck), 30 / 60 level (LevelIsDefaultBands) |
| LegacyScorer.Apply | src/scoring/riskScorer.js:23-26 | one block: when the check holds, its weight is added and its line pushed |
| LegacyScorer.ScoreGuest | src/scoring/riskScorer.js:18-57 | the accumulator's report is the expected one: the weights of the checks that hold, their lines, the 30 / 60 level |
| LegacyScorer.CalculateRiskScore | src/scoring/riskScorer.js:17-58 | normalise, then score; the `if (guest)` always enters |
| LegacyScorer.ExpectedTerms | src/scoring/riskScorer.js:23-52 | the report check by check: seven conditional weights, seven conditional lines |
| LegacyScorer.ScoreTerms | src/scoring/riskScorer.js:23-50 | the score is the sum of the weights 10, 10, 15, 15, 30, 10, 40 of the checks that hold |
| LegacyScorer.LinesTerms | src/scoring/riskScorer.js:23-50 | the rationale is the lines of the checks that hold, in fixed order |
| LegacyScorer.LinesPerCheck | src/scoring/riskScorer.js:23-50 | exactly one rationale line per check that holds, each naming a check that holds |
| LegacyScorer.ScoreBounds | src/scoring/riskScorer.js:18-50 | the score lies in 0..120, inside the 0..130 the weights allow, because no-reviews and no-trips exclude each other |
| LegacyScorer.LevelIsDefaultBands | src/scoring/riskScorer.js:52 | the level is the 30 / 60 classification of the score |
| LegacyScorer.NoGuestData | src/scoring/riskScorer.js:19-46 | without guest data: 60 points, five lines, high |
| BookingScore.Score | index.js:8-13 | the four-term score: a multiple of 10 in 0..120 (ScoreRange), each term reading only its field (TermsIndependent) |
| BookingScore.CalculateRiskScore | index.js:7-14 | throws exactly on a null/undefined guest; otherwise the four-term score |
| BookingScore.ScoreRange | index.js:8-13 | the score lies in 0..120 and is a multiple of 10 |
| BookingScore.EstablishedGuestScoresZero | index.js:9-12 | >= 2 reviews, >= 2 trips, no negative reviews and a picture: 0 |
| BookingScore.WorstGuestScores120 | index.js:9-12 | a new guest with negative reviews and no picture: 120 |
| BookingScore.EmptyGuest | index.js:9-12 | missing counts compare false, so an empty object scores only the missing picture, 10 |
| BookingScore.TermsIndependent | index.js:9-12 | changing one field changes only its own term |

## Left out

- HTTP layer, persistence, network and files. These are outside the
  scoring core and are not part of this model:
  - the Express routes of `src/index.ts`, `src/routes/reservations.ts` and
    `index.js`;
  - the SQLite database of `src/services/database.ts`;
  - the axios call `getReservationDetails` and its `.js` copy;
  - the test-payload file writers and loader;
  - the React frontend.
- Logging: every `console.log` is left out, as it has no effect on results.
- The clock: `new Date()` in `save` becomes the `now` argument of
  `Store.Save`. Times are whole milliseconds.
- Singletons: `RuleRegistry.getInstance` and `resetInstance`, which callers
  use, are not defined in `ruleRegistry.ts`; that file exports a single
  `new RuleRegistry()`.
  - The model passes explicit `Registry`, `ConfigStore` and `Store` objects.
  - `Registry.Clear` stands for `clearRules` and `resetInstance`, which the
    tests use.
- RuleRegistry.Registry.ByCategory: the source takes any string. The model
  takes one of the three categories; any other string matches no rule,
  which the model does not state.
- JavaScript numbers are integers in the model. Fractions, NaN from
  arithmetic, `Infinity` and `-0` are not modelled.
  - JsValues.ToNumber reads only optionally signed decimal integer
    strings. Hex, exponent and fraction literals count as NaN, unlike
    JavaScript.
- `Date` values become integers, so the sort comparator's `getTime()`
  subtraction is exact.
- ScoringConfig.Merge: a key given explicitly as `undefined` overwrites the
  old value in JavaScript's spread. The model has no such value, in two
  places:
  - `PartialThresholds` entries are either absent or numbers;
  - supplied `rule_configs` entries are always `RuleConfig` records. In the
    source an entry spread in as `undefined` (`config.ts:94-97`) replaces
    the old entry, and the scorer then falls back to the rule's defaults
    through `||` (`riskScorer.ts:46-49`). The model cannot express that
    update.
- The `registerAllRules()` call inside `calculateRiskScore`:
  - RiskScorer.ScoreReservation leaves it out and requires the built-in
    rules to be registered already.
  - RiskScorer.CalculateRiskScoreAsWritten models the call; see Findings.
- `Rules.RegisterAllRules` models the seven straight-line `registerRule`
  calls as a recursion over the rule table (`RegisterFrom`). The order and
  the stop at the first throw are the same.
- The legacy `riskRules` predicates read fields of their argument, so they
  throw on `null`/`undefined`. `Prop` returns `undefined` for every
  non-object, so the model does not show that throw.
- `getRiskLevel` of `riskLevel.ts` is declared with one parameter. The
  extra argument at `riskScorer.ts:64` is a type error that TypeScript
  reports but JavaScript ignores.
  - RiskScorer.ReportAsWritten and RiskScorer.CalculateRiskScoreAsWritten
    take the behaviour of the emitted JavaScript: the level is always the
    30 / 60 one.
  - RiskScorer.CalculateRiskScore, RiskScorer.ScoreReservation,
    RiskScorer.ScoreAfterStartup and RiskScorer.CustomThresholdsTest take
    the corrected behaviour: the level uses the configured thresholds.
    See Findings.
- Threshold validation: the code does not check `medium <= high` when
  updating the configuration, and neither does the model.
- Aliasing: `getDefaultConfig` and `getCurrentConfig` return the cached
  object itself, and the report's `config_used.thresholds` is the
  configuration's own thresholds object.
  - The model's `Config` and `RiskReport` are values, so this sharing is
    not represented.
  - No code of the core mutates either object after creating it, so no
    behaviour is lost.

## Findings

| source | as written | input that shows it | evidently intended | confidence | as-written member | corrected member |
|---|---|---|---|---|---|---|
| src/scoring/riskScorer.ts:64 | `getRiskLevel(score, config.thresholds)` calls a classifier that takes only the score and hard-codes 30 / 60, so configured thresholds are ignored | thresholds medium 15 / high 30, guest missing only an email: score 15 gives low, while the report names 15 / 30 (test/scoring/riskScorer.test.ts:168-201 expects medium) | classify the score under the configured thresholds | not executed | RiskScorer.CustomThresholdsIgnoredAsWritten | RiskScorer.CustomThresholdsHonoured |
| src/scoring/riskScorer.ts:30 | every scoring call runs `registerAllRules()`, and `registerRule` throws on a duplicate id | any reservation scored after the rules were registered at start-up (or after a first scoring call): the call throws for missing-location | register the rules once, then score against the populated registry | not executed | RiskScorer.ScoreAfterStartupAsWritten | RiskScorer.ScoreAfterStartup |
