/**
 * The seven built-in rules (the files under scoring/rules) and their registration
 * (scoring/rules/index.ts).
 */
module Rules {
  import opened Wrappers
  import opened JsValues
  import opened Reservations
  import opened RuleRegistry

  // ---------------------------------------------------------------------
  // Rule identifiers: RULE_IDS

  const MissingLocationId := "missing-location"
  const NoProfilePictureId := "no-profile-picture"
  const MissingEmailId := "missing-email"
  const MissingPhoneId := "missing-phone"
  const NoReviewsId := "no-reviews"
  const NoTripsId := "no-trips"
  const NegativeReviewsId := "negative-reviews"

  /** The values of RULE_IDS, in declaration order. */
  const RuleIds: seq<string> :=
    [MissingLocationId, NoProfilePictureId, MissingEmailId, MissingPhoneId,
     NoReviewsId, NoTripsId, NegativeReviewsId]

  /** `!s` for a `string | null` field: null and "" are falsy. */
  predicate Falsy(s: Option<string>) {
    s.None? || s.value == ""
  }

  // ---------------------------------------------------------------------
  // The predicates

  /** missingLocation: no location, or one that trims to "". */
  predicate MissingLocationApplies(g: Guest) {
    Falsy(g.location) || (g.location.Some? && Trim(g.location.value) == "")
  }

  /** noProfilePicture */
  predicate NoProfilePictureApplies(g: Guest) {
    !g.profilePicture
  }

  /** missingEmail: only null and "" count as missing; blanks are not trimmed here. */
  predicate MissingEmailApplies(g: Guest) {
    Falsy(g.email)
  }

  /** missingPhone: `!guest.phone_numbers?.length` */
  predicate MissingPhoneApplies(g: Guest) {
    |g.phoneNumbers| == 0
  }

  /** noReviews: the guest has trips but no reviews. */
  predicate NoReviewsApplies(g: Guest) {
    g.tripCount > 0 && g.reviewCount == 0
  }

  /** noTrips */
  predicate NoTripsApplies(g: Guest) {
    g.tripCount == 0
  }

  /** negativeReviews */
  predicate NegativeReviewsApplies(g: Guest) {
    g.hasNegativeReviews
  }

  // ---------------------------------------------------------------------
  // The rule records

  const MissingLocationRule := Rule(MissingLocationId, "Missing Location", 10, true,
    "Guest does not have a location defined.", MissingLocationApplies, Some(Identity))
  const NoProfilePictureRule := Rule(NoProfilePictureId, "No Profile Picture", 10, true,
    "Guest has not uploaded a profile picture.", NoProfilePictureApplies, Some(Identity))
  const MissingEmailRule := Rule(MissingEmailId, "Missing Email", 15, true,
    "Guest has not provided an email address.", MissingEmailApplies, Some(Contact))
  const MissingPhoneRule := Rule(MissingPhoneId, "Missing Phone", 15, true,
    "Guest has not provided a phone number.", MissingPhoneApplies, Some(Contact))
  const NoReviewsRule := Rule(NoReviewsId, "No Reviews", 30, true,
    "Guest has trips but has not received any reviews.", NoReviewsApplies, Some(Reputation))
  const NoTripsRule := Rule(NoTripsId, "No Trips", 10, true,
    "Guest has not completed any trips.", NoTripsApplies, Some(Reputation))
  const NegativeReviewsRule := Rule(NegativeReviewsId, "Negative Reviews", 40, true,
    "Guest has received negative reviews.", NegativeReviewsApplies, Some(Reputation))

  /** The rules in the order `registerAllRules` registers them. */
  const BuiltinRules: seq<Rule> :=
    [MissingLocationRule, NoProfilePictureRule, MissingEmailRule, MissingPhoneRule,
     NoReviewsRule, NoTripsRule, NegativeReviewsRule]

  // ---------------------------------------------------------------------
  // Properties of the rules

  /** missing-location fires exactly for a null or whitespace-only location. */
  lemma MissingLocationSpec(g: Guest)
    ensures MissingLocationApplies(g) <==> g.location.None? || AllWhitespace(g.location.value)
  {
    if g.location.Some? {
      TrimEmptyIff(g.location.value);
    }
  }

  /** A padded location is still a location; "" and blanks are not. */
  lemma MissingLocationExamples(g: Guest)
    ensures !MissingLocationApplies(g.(location := Some("  New York, NY  ")))
    ensures MissingLocationApplies(g.(location := Some("")))
    ensures MissingLocationApplies(g.(location := Some(" \t ")))
    ensures MissingLocationApplies(g.(location := None))
  {
    assert !MissingLocationApplies(g.(location := Some("  New York, NY  "))) by {
      MissingLocationSpec(g.(location := Some("  New York, NY  ")));
      assert !IsWhitespace("  New York, NY  "[2]);
    }
    assert MissingLocationApplies(g.(location := Some(" \t "))) by {
      MissingLocationSpec(g.(location := Some(" \t ")));
      assert AllWhitespace(" \t ") by {
        assert IsWhitespace(" \t "[0]) && IsWhitespace(" \t "[1]) && IsWhitespace(" \t "[2]);
      }
    }
  }

  /** missing-email fires exactly for null and ""; unlike missing-location, a blank email counts as given. */
  lemma MissingEmailSpec(g: Guest)
    ensures MissingEmailApplies(g) <==> g.email == None || g.email == Some("")
    ensures !MissingEmailApplies(g.(email := Some(" ")))
    ensures !MissingEmailApplies(g.(email := Some("  test@example.com  ")))
    ensures MissingLocationApplies(g.(location := Some(" ")))
  {
    assert Trim(" ") == "" by { TrimEmptyIff(" "); }
  }

  /** missing-phone fires exactly for an empty phone list. */
  lemma MissingPhoneSpec(g: Guest)
    ensures MissingPhoneApplies(g) <==> g.phoneNumbers == []
  {
  }

  /** no-reviews and no-trips never fire together. */
  lemma NoReviewsExcludesNoTrips(g: Guest)
    ensures !(NoReviewsApplies(g) && NoTripsApplies(g))
  {
  }

  /** Each predicate reads only its own fields. */
  lemma PredicatesReadOwnFields(g: Guest, h: Guest)
    ensures g.location == h.location ==> (MissingLocationApplies(g) <==> MissingLocationApplies(h))
    ensures g.profilePicture == h.profilePicture ==> (NoProfilePictureApplies(g) <==> NoProfilePictureApplies(h))
    ensures g.email == h.email ==> (MissingEmailApplies(g) <==> MissingEmailApplies(h))
    ensures |g.phoneNumbers| == |h.phoneNumbers| ==> (MissingPhoneApplies(g) <==> MissingPhoneApplies(h))
    ensures g.tripCount == h.tripCount ==> (NoTripsApplies(g) <==> NoTripsApplies(h))
    ensures g.tripCount == h.tripCount && g.reviewCount == h.reviewCount
            ==> (NoReviewsApplies(g) <==> NoReviewsApplies(h))
    ensures g.hasNegativeReviews == h.hasNegativeReviews ==> (NegativeReviewsApplies(g) <==> NegativeReviewsApplies(h))
  {
  }

  /** The rule table: ids, default scores, default enablement and categories. */
  lemma BuiltinTable()
    ensures Ids(BuiltinRules) == RuleIds
    ensures seq(7, i requires 0 <= i < 7 => BuiltinRules[i].defaultScore) == [10, 10, 15, 15, 30, 10, 40]
    ensures forall r :: r in BuiltinRules ==> r.defaultEnabled && r.defaultScore > 0
    ensures seq(7, i requires 0 <= i < 7 => BuiltinRules[i].category)
            == [Some(Identity), Some(Identity), Some(Contact), Some(Contact),
                Some(Reputation), Some(Reputation), Some(Reputation)]
    ensures forall i :: 0 <= i < 7 ==> BuiltinRules[i].applies == [MissingLocationApplies, NoProfilePictureApplies,
              MissingEmailApplies, MissingPhoneApplies, NoReviewsApplies, NoTripsApplies, NegativeReviewsApplies][i]
  {
  }

  // ---------------------------------------------------------------------
  // registerAllRules

  /** The index of the first built-in id that `rules` already holds, or 7 when it holds none. */
  function FirstRegistered(rules: map<string, Rule>): (k: nat)
    ensures k <= |RuleIds|
    ensures forall j :: 0 <= j < k ==> RuleIds[j] !in rules
    ensures k < |RuleIds| ==> RuleIds[k] in rules
  {
    FirstRegisteredFrom(rules, 0)
  }

  function FirstRegisteredFrom(rules: map<string, Rule>, i: nat): (k: nat)
    requires i <= |RuleIds|
    requires forall j :: 0 <= j < i ==> RuleIds[j] !in rules
    ensures i <= k <= |RuleIds|
    ensures forall j :: 0 <= j < k ==> RuleIds[j] !in rules
    ensures k < |RuleIds| ==> RuleIds[k] in rules
    decreases |RuleIds| - i
  {
    if i == |RuleIds| || RuleIds[i] in rules then i else FirstRegisteredFrom(rules, i + 1)
  }

  /** FirstRegistered is pinned down by its two ensures. */
  lemma FirstRegisteredIs(rules: map<string, Rule>, i: nat)
    requires i <= |RuleIds|
    requires forall j :: 0 <= j < i ==> RuleIds[j] !in rules
    requires i < |RuleIds| ==> RuleIds[i] in rules
    ensures FirstRegistered(rules) == i
  {
  }

  /** The seven built-in ids are pairwise distinct. */
  lemma RuleIdsDistinct()
    ensures Distinct(RuleIds)
  {
  }

  /**
   * Registration of `table`, a table of rules with the built-in ids, has
   * reached its i-th rule: the first i were added after the rules already
   * present, none of them was present before, and the remaining ids are
   * present exactly when they were at the start.
   */
  ghost predicate Progress(reg: Registry, table: seq<Rule>, orig: map<string, Rule>, before: seq<Rule>, i: nat)
    reads reg
  {
    && reg.Valid()
    && Ids(table) == RuleIds
    && i <= |RuleIds|
    && reg.All() == before + table[..i]
    && (forall j :: 0 <= j < i ==> RuleIds[j] !in orig)
    && (forall j :: i <= j < |RuleIds| ==> (RuleIds[j] in reg.rules <==> RuleIds[j] in orig))
  }

  /**
   * What registering `table` in order leaves behind, with k the first of its
   * ids the registry held at the start: it succeeds exactly when there is
   * none, fails on the k-th id otherwise, and the rules before the k-th were
   * appended.
   */
  ghost predicate RegisteredUpTo(reg: Registry, table: seq<Rule>, orig: map<string, Rule>, before: seq<Rule>,
                                 res: Outcome<RegistryError>)
    reads reg
  {
    var k := FirstRegistered(orig);
    && reg.Valid()
    && |table| == |RuleIds|
    && (res.Pass? <==> k == |RuleIds|)
    && (res.Fail? ==> res.error == AlreadyRegistered(RuleIds[k]))
    && reg.All() == before + table[..k]
  }

  /** One `registry.registerRule(...)` line of `registerAllRules`, for the i-th rule of the table. */
  method RegisterBuiltin(reg: Registry, table: seq<Rule>, i: nat, ghost orig: map<string, Rule>, ghost before: seq<Rule>)
    returns (res: Outcome<RegistryError>)
    requires i < |RuleIds| && Progress(reg, table, orig, before, i)
    modifies reg
    ensures reg.Valid()
    ensures res.Fail? <==> RuleIds[i] in orig
    ensures res.Fail? ==> RegisteredUpTo(reg, table, orig, before, res)
    ensures res.Pass? ==> Progress(reg, table, orig, before, i + 1)
  {
    assert table[i].id == RuleIds[i] by { assert Ids(table)[i] == RuleIds[i]; }
    res := reg.Register(table[i]);
    if res.Pass? {
      assert table[..i + 1] == table[..i] + [table[i]];
      RuleIdsDistinct();
      forall j | i + 1 <= j < |RuleIds|
        ensures RuleIds[j] in reg.rules <==> RuleIds[j] in orig
      {
        assert RuleIds[j] != RuleIds[i];
      }
    } else {
      FirstRegisteredIs(orig, i);
    }
  }

  /**
   * The registrations of `registerAllRules` from the i-th rule on: the i-th
   * rule is registered, and the rest follow only when it was accepted, as
   * the statements after a `registerRule` that throws do not run.
   */
  method RegisterFrom(reg: Registry, table: seq<Rule>, i: nat, ghost orig: map<string, Rule>, ghost before: seq<Rule>)
    returns (res: Outcome<RegistryError>)
    requires Progress(reg, table, orig, before, i)
    modifies reg
    ensures RegisteredUpTo(reg, table, orig, before, res)
    decreases |RuleIds| - i
  {
    if i == |RuleIds| {
      FirstRegisteredIs(orig, i);
      return Pass;
    }
    res := RegisterBuiltin(reg, table, i, orig, before);
    if res.Pass? {
      res := RegisterFrom(reg, table, i + 1, orig, before);
    }
  }

  /**
   * `registerAllRules()`: the seven registrations in the table's order
   * (missing-location, no-profile-picture, missing-email, missing-phone,
   * no-reviews, no-trips, negative-reviews); the first that meets an id
   * already present throws, and the ones after it do not run.
   */
  method RegisterAllRules(reg: Registry) returns (res: Outcome<RegistryError>)
    requires reg.Valid()
    modifies reg
    ensures RegisteredUpTo(reg, BuiltinRules, old(reg.rules), old(reg.All()), res)
  {
    ghost var orig, before := reg.rules, reg.All();
    BuiltinTable();
    assert BuiltinRules[..0] == [] && before + [] == before;
    res := RegisterFrom(reg, BuiltinRules, 0, orig, before);
  }

  /** An empty registry holds none of the built-in ids. */
  lemma NoneRegistered()
    ensures FirstRegistered(map[]) == |RuleIds|
  {
    FirstRegisteredIs(map[], |RuleIds|);
  }

  /** A registry holding exactly the built-in rules holds every built-in id, missing-location first. */
  lemma AllRegistered(reg: Registry)
    requires reg.Valid() && reg.All() == BuiltinRules
    ensures forall id :: id in RuleIds ==> id in reg.rules
    ensures FirstRegistered(reg.rules) == 0
  {
    BuiltinTable();
    RuleIdsDistinct();
    assert reg.order == RuleIds;
    FirstRegisteredIs(reg.rules, 0);
  }

  /**
   * Registering twice, as calling `registerAllRules` again after start-up does:
   * the first call fills an empty registry with the seven rules, the second
   * fails on missing-location and changes nothing.
   */
  method RegisterAllRulesTwice() returns (first: Outcome<RegistryError>, second: Outcome<RegistryError>, rules: seq<Rule>)
    ensures first == Pass
    ensures second == Fail(AlreadyRegistered(MissingLocationId))
    ensures rules == BuiltinRules && Ids(rules) == RuleIds
  {
    var reg := new Registry();
    first := RegisterAllRules(reg);
    assert reg.All() == BuiltinRules;
    second := RegisterAllRules(reg);
    rules := reg.All();
    BuiltinTable();
  }
}
