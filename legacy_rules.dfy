/**
 * The camelCase rule table of scoring/riskRules.ts: `RULE_KEYS` and
 * `riskRules`, whose predicates take a guest of any shape and read it with
 * JavaScript truthiness and comparisons.
 */
module LegacyRules {
  import opened JsValues
  import opened RuleRegistry
  import opened Rules

  datatype LegacyRule = LegacyRule(key: string, score: int, rationale: string, applies: Raw -> bool)

  /** The values of `RULE_KEYS`, in declaration order. */
  const RuleKeys: seq<string> :=
    ["missing-location", "no-profile-picture", "missing-email", "missing-phone",
     "no-reviews", "no-trips", "negative-reviews"]

  /** `!guest.location` */
  predicate LegacyMissingLocation(g: Raw) {
    !Truthy(Prop(g, "location"))
  }

  /** `!guest.profile_picture` */
  predicate LegacyNoProfilePicture(g: Raw) {
    !Truthy(Prop(g, "profile_picture"))
  }

  /** `!guest.email` */
  predicate LegacyMissingEmail(g: Raw) {
    !Truthy(Prop(g, "email"))
  }

  /** `Array.isArray(guest.phone_numbers) && guest.phone_numbers.length === 0` */
  predicate LegacyMissingPhone(g: Raw) {
    Prop(g, "phone_numbers").List? && |Prop(g, "phone_numbers").items| == 0
  }

  /** `guest.tripCount > 0 && guest.reviewCount === 0` */
  predicate LegacyNoReviews(g: Raw) {
    GreaterThan(Prop(g, "tripCount"), 0) && IsZero(Prop(g, "reviewCount"))
  }

  /** `guest.tripCount === 0` */
  predicate LegacyNoTrips(g: Raw) {
    IsZero(Prop(g, "tripCount"))
  }

  /** `guest.hasNegativeReviews`, read as a condition. */
  predicate LegacyNegativeReviews(g: Raw) {
    Truthy(Prop(g, "hasNegativeReviews"))
  }

  /** `riskRules`, in the order of its keys. */
  const RiskRules: seq<LegacyRule> := [
    LegacyRule(RuleKeys[0], 10, "Guest does not have a location defined.", LegacyMissingLocation),
    LegacyRule(RuleKeys[1], 10, "Guest does not have a profile picture.", LegacyNoProfilePicture),
    LegacyRule(RuleKeys[2], 15, "Guest does not have an e-mail.", LegacyMissingEmail),
    LegacyRule(RuleKeys[3], 15, "Guest does not have a phone number.", LegacyMissingPhone),
    LegacyRule(RuleKeys[4], 30, "Guest does not have any reviews.", LegacyNoReviews),
    LegacyRule(RuleKeys[5], 10, "Guest does not have any trips.", LegacyNoTrips),
    LegacyRule(RuleKeys[6], 40, "Guest has negative reviews.", LegacyNegativeReviews)]

  /** The legacy keys are distinct and are exactly the ids of the current rules, in the same order. */
  lemma RuleKeysAreRuleIds()
    ensures RuleKeys == RuleIds
    ensures Distinct(RuleKeys)
    ensures seq(7, i requires 0 <= i < 7 => RiskRules[i].key) == RuleKeys
  {
    BuiltinTable();
    RuleIdsDistinct();
  }

  /** The legacy scores, and that they are the current rules' default scores. */
  lemma LegacyScores()
    ensures seq(7, i requires 0 <= i < 7 => RiskRules[i].score) == [10, 10, 15, 15, 30, 10, 40]
    ensures forall i :: 0 <= i < 7 ==> RiskRules[i].score == BuiltinRules[i].defaultScore
  {
  }

  /** missing-phone needs an actual empty array: a missing or non-array value does not match. */
  lemma LegacyMissingPhoneSpec(g: Raw)
    ensures LegacyMissingPhone(g) <==> Prop(g, "phone_numbers") == List([])
    ensures !LegacyMissingPhone(Obj(map["phone_numbers" := Null]))
    ensures !LegacyMissingPhone(Obj(map[]))
    ensures !LegacyMissingPhone(Obj(map["phone_numbers" := Str("")]))
  {
  }

  /** no-reviews and no-trips never hold together. */
  lemma LegacyNoReviewsExcludesNoTrips(g: Raw)
    ensures !(LegacyNoReviews(g) && LegacyNoTrips(g))
  {
  }

  /**
   * missing-location and missing-email match null, a missing field and "",
   * and of the strings only "": a whitespace-only string is not missing here,
   * unlike for the current missing-location rule.
   */
  lemma LegacyBlankNotMissing(s: string)
    ensures LegacyMissingLocation(Obj(map["location" := Str(s)])) <==> s == ""
    ensures LegacyMissingEmail(Obj(map["email" := Str(s)])) <==> s == ""
    ensures LegacyMissingLocation(Obj(map["location" := Null]))
    ensures LegacyMissingLocation(Obj(map[]))
    ensures LegacyMissingEmail(Obj(map["email" := Null]))
    ensures LegacyMissingEmail(Obj(map[]))
  {
  }

  /**
   * Counts are compared loosely with `>` but strictly with `===`: a trip count
   * sent as text is read as its number by no-reviews, while neither no-trips
   * nor a review count sent as text ever matches.
   */
  lemma LegacyStringCounts(n: int)
    ensures LegacyNoReviews(Obj(map["tripCount" := Str(Decimal(n)), "reviewCount" := Num(0)])) <==> n > 0
    ensures !LegacyNoReviews(Obj(map["tripCount" := Num(n), "reviewCount" := Str("0")]))
    ensures !LegacyNoTrips(Obj(map["tripCount" := Str(Decimal(n))]))
  {
    NumericStringCompares(n, 0);
  }

  /** The flags are read by truthiness: the text "false" is a negative review, 0 and a blank picture are not. */
  lemma LegacyFlagExamples()
    ensures LegacyNegativeReviews(Obj(map["hasNegativeReviews" := Str("false")]))
    ensures !LegacyNegativeReviews(Obj(map["hasNegativeReviews" := Num(0)]))
    ensures !LegacyNegativeReviews(Obj(map[]))
    ensures LegacyNoProfilePicture(Obj(map["profile_picture" := Bool(false)]))
    ensures !LegacyNoProfilePicture(Obj(map["profile_picture" := Str(" ")]))
  {
  }
}
