/** The scoring engine of scoring/riskScorer.ts. */
module RiskScorer {
  import opened Wrappers
  import opened JsValues
  import opened Reservations
  import opened RuleRegistry
  import opened Rules
  import opened ScoringConfig
  import opened RiskLevels

  /** `MatchedRule`: the rule id, the configured score and the rule's rationale. */
  datatype MatchedRule = MatchedRule(name: string, score: int, rationale: string)

  /** `RiskReport`; `thresholdsUsed` is `config_used.thresholds`. */
  datatype RiskReport = RiskReport(score: int, level: RiskLevel, matchedRules: seq<MatchedRule>, thresholdsUsed: Thresholds)

  /** The configuration entry of a rule, falling back to the rule's defaults when there is none. */
  function EffectiveEntry(rule: Rule, cfg: Config): (e: RuleConfig)
    ensures rule.id in cfg.ruleConfigs ==> e == cfg.ruleConfigs[rule.id]
    ensures rule.id !in cfg.ruleConfigs ==> e == DefaultEntry(rule)
  {
    if rule.id in cfg.ruleConfigs then cfg.ruleConfigs[rule.id] else DefaultEntry(rule)
  }

  /** The rule is enabled in the configuration and its predicate holds. */
  predicate Fires(rule: Rule, cfg: Config, guest: Guest) {
    EffectiveEntry(rule, cfg).enabled && rule.applies(guest)
  }

  function MatchOf(rule: Rule, cfg: Config): MatchedRule {
    MatchedRule(rule.id, EffectiveEntry(rule, cfg).score, rule.rationale)
  }

  /** The matches of the last rule: one entry, or none. */
  function Piece(rule: Rule, cfg: Config, guest: Guest): seq<MatchedRule> {
    if Fires(rule, cfg, guest) then [MatchOf(rule, cfg)] else []
  }

  /** The matched rules, in the order of `rules`. */
  function Matches(rules: seq<Rule>, cfg: Config, guest: Guest): seq<MatchedRule> {
    if rules == [] then []
    else Matches(rules[..|rules| - 1], cfg, guest) + Piece(rules[|rules| - 1], cfg, guest)
  }

  /** `matched_rules.reduce((sum, rule) => sum + rule.score, 0)` */
  function TotalScore(ms: seq<MatchedRule>): int {
    if ms == [] then 0 else TotalScore(ms[..|ms| - 1]) + ms[|ms| - 1].score
  }

  /** The report `calculateRiskScore` returns for a guest, given the rules and configuration it reads. */
  function ReportFor(rules: seq<Rule>, cfg: Config, guest: Guest): RiskReport {
    var ms := Matches(rules, cfg, guest);
    var score := TotalScore(ms);
    RiskReport(score, Level(score, cfg.thresholds.medium, cfg.thresholds.high), ms, cfg.thresholds)
  }

  /**
   * Lines 35-83 of `calculateRiskScore`, for the rules of the registry and the
   * configuration already read: the loop collects the matches in order.
   */
  method CalculateRiskScore(reservation: NormalizedReservation, rules: seq<Rule>, cfg: Config) returns (report: RiskReport)
    ensures report == ReportFor(rules, cfg, reservation.guest)
    ensures report.score == TotalScore(report.matchedRules)
    ensures report.level == Level(report.score, cfg.thresholds.medium, cfg.thresholds.high)
    ensures report.thresholdsUsed == cfg.thresholds
  {
    var guest := reservation.guest;
    var matched: seq<MatchedRule> := [];
    for i := 0 to |rules|
      invariant matched == Matches(rules[..i], cfg, guest)
    {
      var rule := rules[i];
      var ruleConfig := if rule.id in cfg.ruleConfigs then cfg.ruleConfigs[rule.id]
                        else RuleConfig(rule.defaultScore, rule.defaultEnabled);
      assert rules[..i + 1][..i] == rules[..i];
      if ruleConfig.enabled && rule.applies(guest) {
        matched := matched + [MatchedRule(rule.id, ruleConfig.score, rule.rationale)];
      }
    }
    assert rules[..|rules|] == rules;
    var score := TotalScore(matched);
    var level := Level(score, cfg.thresholds.medium, cfg.thresholds.high);
    report := RiskReport(score, level, matched, cfg.thresholds);
  }

  /**
   * `calculateRiskScore(reservation)` with the registry already populated:
   * the configuration is read (and built and cached on first use), then the
   * registered rules are evaluated.
   */
  method ScoreReservation(reg: Registry, store: ConfigStore, reservation: NormalizedReservation) returns (report: RiskReport)
    requires reg.Valid()
    requires forall id :: id in RuleIds ==> id in reg.rules
    modifies store
    ensures report == ReportFor(reg.All(), Snapshot(old(store.current), reg.All()), reservation.guest)
    ensures store.current == Some(Snapshot(old(store.current), reg.All()))
  {
    var cfg := store.CurrentConfig(reg);
    report := CalculateRiskScore(reservation, reg.All(), cfg);
  }

  // ---------------------------------------------------------------------
  // What the matched rules are

  /** The indices, in `rules`, of the rules that fire. */
  function FiringIndices(rules: seq<Rule>, cfg: Config, guest: Guest): seq<nat> {
    if rules == [] then []
    else
      var n := |rules| - 1;
      FiringIndices(rules[..n], cfg, guest) + (if Fires(rules[n], cfg, guest) then [n] else [])
  }

  /**
   * `matched_rules` lists exactly the rules that are enabled and whose
   * predicate holds, once each, in registry order, with the configured score
   * and the rule's rationale.
   */
  lemma {:induction false} MatchesAreFiringRules(rules: seq<Rule>, cfg: Config, guest: Guest)
    ensures var ms, idx := Matches(rules, cfg, guest), FiringIndices(rules, cfg, guest);
      && |ms| == |idx|
      && (forall j :: 0 <= j < |idx| ==> idx[j] < |rules| && Fires(rules[idx[j]], cfg, guest) && ms[j] == MatchOf(rules[idx[j]], cfg))
      && (forall j, k :: 0 <= j < k < |idx| ==> idx[j] < idx[k])
      && (forall i :: 0 <= i < |rules| ==> (Fires(rules[i], cfg, guest) <==> i in idx))
  {
    if rules != [] {
      var n := |rules| - 1;
      var pre := rules[..n];
      MatchesAreFiringRules(pre, cfg, guest);
      var ms0, idx0 := Matches(pre, cfg, guest), FiringIndices(pre, cfg, guest);
      var ms, idx := Matches(rules, cfg, guest), FiringIndices(rules, cfg, guest);
      assert ms == ms0 + Piece(rules[n], cfg, guest);
      assert idx == idx0 + (if Fires(rules[n], cfg, guest) then [n] else []);
      forall j | 0 <= j < |idx|
        ensures idx[j] < |rules| && Fires(rules[idx[j]], cfg, guest) && ms[j] == MatchOf(rules[idx[j]], cfg)
      {
        if j < |idx0| {
          assert idx[j] == idx0[j] && ms[j] == ms0[j];
          assert pre[idx0[j]] == rules[idx0[j]];
        }
      }
      forall j, k | 0 <= j < k < |idx|
        ensures idx[j] < idx[k]
      {
        assert idx[j] == idx0[j] && idx0[j] < n;
      }
      forall i | 0 <= i < |rules|
        ensures Fires(rules[i], cfg, guest) <==> i in idx
      {
        if i < n {
          assert pre[i] == rules[i];
          assert i in idx <==> i in idx0;
        }
      }
    }
  }

  /**
   * With distinct rule ids (as in a registry): no match is named after a rule
   * that does not fire, so a disabled rule never appears; each firing rule
   * appears with its own entry; and no id appears twice.
   */
  lemma MatchedNames(rules: seq<Rule>, cfg: Config, guest: Guest)
    requires Distinct(Ids(rules))
    ensures var ms := Matches(rules, cfg, guest);
      && (forall i, j :: 0 <= i < |rules| && 0 <= j < |ms| && ms[j].name == rules[i].id
                         ==> Fires(rules[i], cfg, guest) && ms[j] == MatchOf(rules[i], cfg))
      && (forall i :: 0 <= i < |rules| && Fires(rules[i], cfg, guest) ==> MatchOf(rules[i], cfg) in ms)
      && (forall j, k :: 0 <= j < k < |ms| ==> ms[j].name != ms[k].name)
  {
    MatchesAreFiringRules(rules, cfg, guest);
    var ms, idx := Matches(rules, cfg, guest), FiringIndices(rules, cfg, guest);
    var ids := Ids(rules);
    forall i, j | 0 <= i < |rules| && 0 <= j < |ms| && ms[j].name == rules[i].id
      ensures Fires(rules[i], cfg, guest) && ms[j] == MatchOf(rules[i], cfg)
    {
      assert ids[idx[j]] == ms[j].name == ids[i];
      DistinctAt(ids, idx[j], i);
    }
    forall i | 0 <= i < |rules| && Fires(rules[i], cfg, guest)
      ensures MatchOf(rules[i], cfg) in ms
    {
      var j :| 0 <= j < |idx| && idx[j] == i;
      assert ms[j] == MatchOf(rules[i], cfg);
    }
    forall j, k | 0 <= j < k < |ms|
      ensures ms[j].name != ms[k].name
    {
      assert ms[j].name == ids[idx[j]] && ms[k].name == ids[idx[k]];
      DistinctAt(ids, idx[j], idx[k]);
    }
  }

  /** Two different positions of a sequence without repeats hold different values. */
  lemma DistinctAt<T>(s: seq<T>, a: nat, b: nat)
    requires Distinct(s) && a < |s| && b < |s|
    ensures s[a] == s[b] ==> a == b
  {
    if a < b {
      assert s[a] != s[b];
    } else if b < a {
      assert s[b] != s[a];
    }
  }

  // ---------------------------------------------------------------------
  // What the score is

  /** What one rule adds to the score. */
  function Contribution(rule: Rule, cfg: Config, guest: Guest): int {
    if Fires(rule, cfg, guest) then EffectiveEntry(rule, cfg).score else 0
  }

  /** The sum of the contributions of `rules`, rule by rule. */
  function FiredScore(rules: seq<Rule>, cfg: Config, guest: Guest): int {
    if rules == [] then 0
    else FiredScore(rules[..|rules| - 1], cfg, guest) + Contribution(rules[|rules| - 1], cfg, guest)
  }

  lemma {:induction false} TotalScoreAppend(a: seq<MatchedRule>, b: seq<MatchedRule>)
    ensures TotalScore(a + b) == TotalScore(a) + TotalScore(b)
    decreases |b|
  {
    if b == [] {
      assert a + b == a;
    } else {
      assert (a + b)[..|a + b| - 1] == a + b[..|b| - 1];
      TotalScoreAppend(a, b[..|b| - 1]);
    }
  }

  /** The report's score is the sum, over the rules that fire, of their configured scores. */
  lemma {:induction false} ScoreIsSumOfFiredRules(rules: seq<Rule>, cfg: Config, guest: Guest)
    ensures ReportFor(rules, cfg, guest).score == FiredScore(rules, cfg, guest)
  {
    if rules != [] {
      var n := |rules| - 1;
      ScoreIsSumOfFiredRules(rules[..n], cfg, guest);
      TotalScoreAppend(Matches(rules[..n], cfg, guest), Piece(rules[n], cfg, guest));
      assert TotalScore(Piece(rules[n], cfg, guest)) == Contribution(rules[n], cfg, guest) by {
        if Fires(rules[n], cfg, guest) {
          assert [MatchOf(rules[n], cfg)][..0] == [];
        }
      }
    }
  }

  /** With non-negative configured scores the score is never negative. */
  lemma ScoreNonNegative(rules: seq<Rule>, cfg: Config, guest: Guest)
    requires forall i :: 0 <= i < |rules| ==> EffectiveEntry(rules[i], cfg).score >= 0
    ensures 0 <= ReportFor(rules, cfg, guest).score
  {
    ScoreIsSumOfFiredRules(rules, cfg, guest);
    FiredScoreNonNegative(rules, cfg, guest);
  }

  lemma {:induction false} FiredScoreNonNegative(rules: seq<Rule>, cfg: Config, guest: Guest)
    requires forall i :: 0 <= i < |rules| ==> EffectiveEntry(rules[i], cfg).score >= 0
    ensures FiredScore(rules, cfg, guest) >= 0
  {
    if rules != [] {
      var n := |rules| - 1;
      assert forall i :: 0 <= i < n ==> rules[..n][i] == rules[i];
      FiredScoreNonNegative(rules[..n], cfg, guest);
    }
  }

  /** Two configurations that agree on all rules but one, which `cfg2` disables. */
  ghost predicate DisablesOnly(rules: seq<Rule>, cfg1: Config, cfg2: Config, id: string) {
    && (forall i :: 0 <= i < |rules| && rules[i].id != id ==> EffectiveEntry(rules[i], cfg1) == EffectiveEntry(rules[i], cfg2))
    && (forall i :: 0 <= i < |rules| && rules[i].id == id ==> !EffectiveEntry(rules[i], cfg2).enabled)
  }

  /** Disabling a rule takes away exactly its own contribution. */
  lemma {:induction false} DisablingRemovesContribution(rules: seq<Rule>, cfg1: Config, cfg2: Config, guest: Guest, i: nat)
    requires Distinct(Ids(rules)) && i < |rules|
    requires DisablesOnly(rules, cfg1, cfg2, rules[i].id)
    ensures FiredScore(rules, cfg2, guest) == FiredScore(rules, cfg1, guest) - Contribution(rules[i], cfg1, guest)
  {
    var n := |rules| - 1;
    assert Ids(rules[..n]) == Ids(rules)[..n];
    assert forall k :: 0 <= k < n ==> rules[..n][k] == rules[k];
    if i == n {
      FiredScoreUnaffected(rules[..n], cfg1, cfg2, guest, rules[i].id);
    } else {
      DisablingRemovesContribution(rules[..n], cfg1, cfg2, guest, i);
      assert rules[n].id != rules[i].id by { assert Ids(rules)[n] != Ids(rules)[i]; }
    }
  }

  lemma {:induction false} FiredScoreUnaffected(rules: seq<Rule>, cfg1: Config, cfg2: Config, guest: Guest, id: string)
    requires forall i :: 0 <= i < |rules| ==> rules[i].id != id ==> EffectiveEntry(rules[i], cfg1) == EffectiveEntry(rules[i], cfg2)
    requires forall i :: 0 <= i < |rules| ==> rules[i].id != id
    ensures FiredScore(rules, cfg2, guest) == FiredScore(rules, cfg1, guest)
  {
    if rules != [] {
      var n := |rules| - 1;
      assert forall k :: 0 <= k < n ==> rules[..n][k] == rules[k];
      FiredScoreUnaffected(rules[..n], cfg1, cfg2, guest, id);
    }
  }

  /** Disabling through `updateConfig` is a case of DisablesOnly. */
  lemma UpdateDisables(rules: seq<Rule>, cfg: Config, id: string, score: int)
    ensures DisablesOnly(rules, cfg, Merge(cfg, PartialConfig(None, Some(map[id := RuleConfig(score, false)]))), id)
  {
  }

  // ---------------------------------------------------------------------
  // The built-in rules

  /** One more rule of a prefix. */
  lemma PrefixStep(rules: seq<Rule>, k: nat, cfg: Config, guest: Guest)
    requires k < |rules|
    ensures Matches(rules[..k + 1], cfg, guest) == Matches(rules[..k], cfg, guest) + Piece(rules[k], cfg, guest)
    ensures FiredScore(rules[..k + 1], cfg, guest) == FiredScore(rules[..k], cfg, guest) + Contribution(rules[k], cfg, guest)
  {
    assert rules[..k + 1][..k] == rules[..k];
  }

  /** Seven rules, one after the other: the matches. */
  lemma SevenMatches(rules: seq<Rule>, cfg: Config, guest: Guest)
    requires |rules| == 7
    ensures Matches(rules, cfg, guest)
         == Piece(rules[0], cfg, guest) + Piece(rules[1], cfg, guest) + Piece(rules[2], cfg, guest)
          + Piece(rules[3], cfg, guest) + Piece(rules[4], cfg, guest) + Piece(rules[5], cfg, guest)
          + Piece(rules[6], cfg, guest)
  {
    var p0, p1, p2, p3 := Piece(rules[0], cfg, guest), Piece(rules[1], cfg, guest), Piece(rules[2], cfg, guest), Piece(rules[3], cfg, guest);
    var p4, p5, p6 := Piece(rules[4], cfg, guest), Piece(rules[5], cfg, guest), Piece(rules[6], cfg, guest);
    assert Matches(rules[..1], cfg, guest) == p0 by {
      assert rules[..0] == [];
      PrefixStep(rules, 0, cfg, guest);
      assert [] + p0 == p0;
    }
    assert Matches(rules[..2], cfg, guest) == p0 + p1 by { PrefixStep(rules, 1, cfg, guest); }
    assert Matches(rules[..3], cfg, guest) == p0 + p1 + p2 by { PrefixStep(rules, 2, cfg, guest); }
    assert Matches(rules[..4], cfg, guest) == p0 + p1 + p2 + p3 by { PrefixStep(rules, 3, cfg, guest); }
    assert Matches(rules[..5], cfg, guest) == p0 + p1 + p2 + p3 + p4 by { PrefixStep(rules, 4, cfg, guest); }
    assert Matches(rules[..6], cfg, guest) == p0 + p1 + p2 + p3 + p4 + p5 by { PrefixStep(rules, 5, cfg, guest); }
    assert Matches(rules[..7], cfg, guest) == p0 + p1 + p2 + p3 + p4 + p5 + p6 by { PrefixStep(rules, 6, cfg, guest); }
    assert rules[..7] == rules;
  }

  /** Seven rules, one after the other: the score. */
  lemma SevenScores(rules: seq<Rule>, cfg: Config, guest: Guest)
    requires |rules| == 7
    ensures ReportFor(rules, cfg, guest).score
         == Contribution(rules[0], cfg, guest) + Contribution(rules[1], cfg, guest) + Contribution(rules[2], cfg, guest)
          + Contribution(rules[3], cfg, guest) + Contribution(rules[4], cfg, guest) + Contribution(rules[5], cfg, guest)
          + Contribution(rules[6], cfg, guest)
  {
    assert rules[..0] == [];
    PrefixStep(rules, 0, cfg, guest);
    PrefixStep(rules, 1, cfg, guest);
    PrefixStep(rules, 2, cfg, guest);
    PrefixStep(rules, 3, cfg, guest);
    PrefixStep(rules, 4, cfg, guest);
    PrefixStep(rules, 5, cfg, guest);
    PrefixStep(rules, 6, cfg, guest);
    assert rules[..7] == rules;
    ScoreIsSumOfFiredRules(rules, cfg, guest);
  }

  /** The seven built-in rules, one after the other. */
  lemma BuiltinUnfold(cfg: Config, guest: Guest)
    ensures Matches(BuiltinRules, cfg, guest)
         == Piece(MissingLocationRule, cfg, guest) + Piece(NoProfilePictureRule, cfg, guest)
          + Piece(MissingEmailRule, cfg, guest) + Piece(MissingPhoneRule, cfg, guest)
          + Piece(NoReviewsRule, cfg, guest) + Piece(NoTripsRule, cfg, guest)
          + Piece(NegativeReviewsRule, cfg, guest)
    ensures ReportFor(BuiltinRules, cfg, guest).score
         == Contribution(MissingLocationRule, cfg, guest) + Contribution(NoProfilePictureRule, cfg, guest)
          + Contribution(MissingEmailRule, cfg, guest) + Contribution(MissingPhoneRule, cfg, guest)
          + Contribution(NoReviewsRule, cfg, guest) + Contribution(NoTripsRule, cfg, guest)
          + Contribution(NegativeReviewsRule, cfg, guest)
  {
    SevenMatches(BuiltinRules, cfg, guest);
    SevenScores(BuiltinRules, cfg, guest);
  }

  /** Under freshly built defaults, every built-in rule uses its own defaults. */
  lemma FreshDefaultsEffective()
    ensures forall i :: 0 <= i < |BuiltinRules| ==>
      EffectiveEntry(BuiltinRules[i], FreshConfig(BuiltinRules)) == DefaultEntry(BuiltinRules[i])
  {
    BuiltinTable();
    RuleIdsDistinct();
    DefaultRuleConfigsSpec(BuiltinRules);
    forall i | 0 <= i < |BuiltinRules|
      ensures LastWithId(BuiltinRules, i)
    {
      forall j | i < j < |BuiltinRules|
        ensures BuiltinRules[j].id != BuiltinRules[i].id
      {
        assert Ids(BuiltinRules)[j] != Ids(BuiltinRules)[i];
      }
    }
    assert forall i :: 0 <= i < |BuiltinRules| ==> BuiltinRules[i].id in Ids(BuiltinRules);
  }

  /** The default configuration over the built-in rules. */
  const Defaults := FreshConfig(BuiltinRules)

  /** The entries of the default configuration, rule by rule. */
  lemma DefaultEntries()
    ensures EffectiveEntry(MissingLocationRule, Defaults) == RuleConfig(10, true)
    ensures EffectiveEntry(NoProfilePictureRule, Defaults) == RuleConfig(10, true)
    ensures EffectiveEntry(MissingEmailRule, Defaults) == RuleConfig(15, true)
    ensures EffectiveEntry(MissingPhoneRule, Defaults) == RuleConfig(15, true)
    ensures EffectiveEntry(NoReviewsRule, Defaults) == RuleConfig(30, true)
    ensures EffectiveEntry(NoTripsRule, Defaults) == RuleConfig(10, true)
    ensures EffectiveEntry(NegativeReviewsRule, Defaults) == RuleConfig(40, true)
  {
    FreshDefaultsEffective();
    assert BuiltinRules[0] == MissingLocationRule && BuiltinRules[1] == NoProfilePictureRule;
    assert BuiltinRules[2] == MissingEmailRule && BuiltinRules[3] == MissingPhoneRule;
    assert BuiltinRules[4] == NoReviewsRule && BuiltinRules[5] == NoTripsRule;
    assert BuiltinRules[6] == NegativeReviewsRule;
  }

  /** The guest of riskScorer.test.ts (lines 41-52), with no contact data and no history. */
  const BaseGuest := Guest(Str("368436487"), "Taylor Callaway", 0, 0, false, false, [], None, None, Some("en"))

  /** BaseGuest with full contact data (riskScorer.test.ts lines 75-83). */
  const ContactGuest := BaseGuest.(location := Some("Christiansburg, VA"), profilePicture := true,
                                   phoneNumbers := [Str("18644508822")], email := Some("test@example.com"))

  lemma ChristiansburgIsALocation(g: Guest)
    requires g.location == Some("Christiansburg, VA")
    ensures !MissingLocationApplies(g)
  {
    MissingLocationSpec(g);
    assert !IsWhitespace(g.location.value[0]);
  }

  /** Full contact data and no trips: only no-trips matches, for 10 points, low. */
  lemma LowRiskGuest()
    ensures ReportFor(BuiltinRules, Defaults, ContactGuest)
         == RiskReport(10, Low, [MatchedRule(NoTripsId, 10, NoTripsRule.rationale)], Thresholds(30, 60))
  {
    DefaultEntries();
    BuiltinUnfold(Defaults, ContactGuest);
    ChristiansburgIsALocation(ContactGuest);
  }

  /** No contact data and no trips: five rules match, for 60 points, high. */
  lemma HighRiskGuest()
    ensures var r := ReportFor(BuiltinRules, Defaults, BaseGuest);
      && r.score == 60 && r.level == High
      && r.matchedRules == [MatchOf(MissingLocationRule, Defaults), MatchOf(NoProfilePictureRule, Defaults),
                            MatchOf(MissingEmailRule, Defaults), MatchOf(MissingPhoneRule, Defaults),
                            MatchOf(NoTripsRule, Defaults)]
  {
    DefaultEntries();
    BuiltinUnfold(Defaults, BaseGuest);
  }

  /** Trips but no reviews: no-reviews matches instead of no-trips, for 30 points. */
  lemma TripsWithoutReviews()
    ensures var r := ReportFor(BuiltinRules, Defaults, ContactGuest.(tripCount := 3));
      && r.matchedRules == [MatchedRule(NoReviewsId, 30, NoReviewsRule.rationale)]
      && r.score == 30 && r.level == Medium
  {
    var g := ContactGuest.(tripCount := 3);
    DefaultEntries();
    BuiltinUnfold(Defaults, g);
    ChristiansburgIsALocation(g);
  }

  /** Negative reviews with no location, picture, email or phone: 40 + 10 + 10 + 15 + 15, high. */
  lemma NegativeReviewsWithOtherFactors()
    ensures var r := ReportFor(BuiltinRules, Defaults, BaseGuest.(hasNegativeReviews := true, tripCount := 5, reviewCount := 3));
      && r.score == 40 + 10 + 10 + 15 + 15 && r.level == High
      && MatchOf(NegativeReviewsRule, Defaults) in r.matchedRules
      && |r.matchedRules| == 5
  {
    DefaultEntries();
    BuiltinUnfold(Defaults, BaseGuest.(hasNegativeReviews := true, tripCount := 5, reviewCount := 3));
  }

  /** The test's custom-threshold guest: full contact data except email, with history. */
  const NoEmailGuest := ContactGuest.(email := None, tripCount := 5, reviewCount := 3)

  /** `updateConfig({thresholds: {medium: 15, high: 30}})` on the default configuration. */
  const LowThresholds := Merge(Defaults, PartialConfig(Some(PartialThresholds(Some(15), Some(30))), None))

  /** Under medium 15 / high 30 the missing-email guest scores 15 and is medium. */
  lemma CustomThresholdsHonoured()
    ensures ReportFor(BuiltinRules, LowThresholds, NoEmailGuest)
         == RiskReport(15, Medium, [MatchedRule(MissingEmailId, 15, MissingEmailRule.rationale)], Thresholds(15, 30))
  {
    DefaultEntries();
    BuiltinUnfold(LowThresholds, NoEmailGuest);
    ChristiansburgIsALocation(NoEmailGuest);
  }

  /** Disabling no-trips (riskScorer.test.ts lines 131-166) leaves the low-risk guest with nothing. */
  lemma DisabledRuleScenario()
    ensures var cfg := Merge(Defaults, PartialConfig(None, Some(Defaults.ruleConfigs[NoTripsId := RuleConfig(10, false)])));
      ReportFor(BuiltinRules, cfg, ContactGuest) == RiskReport(0, Low, [], Thresholds(30, 60))
  {
    var entries := Defaults.ruleConfigs[NoTripsId := RuleConfig(10, false)];
    var cfg := Merge(Defaults, PartialConfig(None, Some(entries)));
    assert cfg == Config(Defaults.thresholds, Defaults.ruleConfigs + entries);
    assert cfg.ruleConfigs == entries;
    DefaultEntries();
    assert EffectiveEntry(NoTripsRule, cfg) == RuleConfig(10, false);
    BuiltinUnfold(cfg, ContactGuest);
    ChristiansburgIsALocation(ContactGuest);
  }

  // ---------------------------------------------------------------------
  // riskScorer.ts as written

  /**
   * The report as line 64 of riskScorer.ts computes it: `getRiskLevel` takes
   * the score alone, so the thresholds passed to it are dropped and the level
   * always uses 30 / 60, while `config_used` still reports the configured ones.
   */
  function ReportAsWritten(rules: seq<Rule>, cfg: Config, guest: Guest): RiskReport {
    var ms := Matches(rules, cfg, guest);
    var score := TotalScore(ms);
    RiskReport(score, GetRiskLevel(score), ms, cfg.thresholds)
  }

  /** With the default thresholds the two agree, which is why only the custom-threshold test shows it. */
  lemma AsWrittenAgreesOnDefaultThresholds(rules: seq<Rule>, cfg: Config, guest: Guest)
    requires cfg.thresholds == DefaultThresholds
    ensures ReportAsWritten(rules, cfg, guest) == ReportFor(rules, cfg, guest)
  {
    GetRiskLevelIsDefaultLevel(ReportFor(rules, cfg, guest).score);
  }

  /** The custom-threshold guest gets low as written, though its report names medium 15 / high 30. */
  lemma CustomThresholdsIgnoredAsWritten()
    ensures ReportAsWritten(BuiltinRules, LowThresholds, NoEmailGuest).score == 15
    ensures ReportAsWritten(BuiltinRules, LowThresholds, NoEmailGuest).level == Low
    ensures ReportAsWritten(BuiltinRules, LowThresholds, NoEmailGuest).thresholdsUsed == Thresholds(15, 30)
    ensures ReportFor(BuiltinRules, LowThresholds, NoEmailGuest).level == Medium
  {
    CustomThresholdsHonoured();
  }

  /**
   * `calculateRiskScore` as written: line 30 registers the built-in rules
   * again before scoring, which fails on the first id already registered
   * and leaves the rules before it registered and the configuration cache
   * as it was; when none was registered, the rules are added and the
   * configuration is read and cached as in ScoreReservation.
   */
  method CalculateRiskScoreAsWritten(reg: Registry, store: ConfigStore, reservation: NormalizedReservation)
    returns (r: Result<RiskReport, RegistryError>)
    requires reg.Valid()
    modifies reg, store
    ensures var k := FirstRegistered(old(reg.rules));
      && (k < |RuleIds| ==> r == Failure(AlreadyRegistered(RuleIds[k])))
      && (k == |RuleIds| ==> r == Success(ReportAsWritten(old(reg.All()) + BuiltinRules,
                                 Snapshot(old(store.current), old(reg.All()) + BuiltinRules), reservation.guest)))
    ensures var k := FirstRegistered(old(reg.rules));
      && reg.Valid() && reg.All() == old(reg.All()) + BuiltinRules[..k]
      && (k < |RuleIds| ==> store.current == old(store.current))
      && (k == |RuleIds| ==> store.current == Some(Snapshot(old(store.current), old(reg.All()) + BuiltinRules)))
  {
    var registered := RegisterAllRules(reg);
    if registered.Fail? {
      return Failure(registered.error);
    }
    assert BuiltinRules[..|RuleIds|] == BuiltinRules;
    var cfg := store.CurrentConfig(reg);
    var report := CalculateRiskScore(reservation, reg.All(), cfg);
    r := Success(report.(level := GetRiskLevel(report.score)));
  }

  // ---------------------------------------------------------------------
  // The test sequences, on fresh objects

  /** Start-up registers the rules; scoring as written then fails on missing-location. */
  method ScoreAfterStartupAsWritten(reservation: NormalizedReservation) returns (r: Result<RiskReport, RegistryError>)
    ensures r == Failure(AlreadyRegistered(MissingLocationId))
  {
    var reg := new Registry();
    NoneRegistered();
    var startup := RegisterAllRules(reg);
    AllRegistered(reg);
    var store := new ConfigStore();
    r := CalculateRiskScoreAsWritten(reg, store, reservation);
  }

  /** Start-up registers the rules; scoring then uses the registry and fresh defaults. */
  method ScoreAfterStartup(reservation: NormalizedReservation) returns (report: RiskReport)
    ensures report == ReportFor(BuiltinRules, Defaults, reservation.guest)
  {
    var reg := new Registry();
    NoneRegistered();
    var startup := RegisterAllRules(reg);
    AllRegistered(reg);
    var store := new ConfigStore();
    report := ScoreReservation(reg, store, reservation);
  }

  /** The custom-threshold test: update the thresholds, then score the missing-email guest. */
  method CustomThresholdsTest(reservation: NormalizedReservation) returns (report: RiskReport)
    requires reservation.guest == NoEmailGuest
    ensures report.score == 15 && report.level == Medium && report.thresholdsUsed == Thresholds(15, 30)
  {
    var reg := new Registry();
    NoneRegistered();
    var startup := RegisterAllRules(reg);
    AllRegistered(reg);
    var store := new ConfigStore();
    store.Update(reg, PartialConfig(Some(PartialThresholds(Some(15), Some(30))), None));
    report := ScoreReservation(reg, store, reservation);
    CustomThresholdsHonoured();
  }
}
