/** The scoring configuration of scoring/config.ts: defaults, cache, merge-update and reset. */
module ScoringConfig {
  import opened Wrappers
  import opened RuleRegistry

  datatype Thresholds = Thresholds(medium: int, high: int)

  datatype RuleConfig = RuleConfig(score: int, enabled: bool)

  /** `RiskScoringConfig` */
  datatype Config = Config(thresholds: Thresholds, ruleConfigs: map<string, RuleConfig>)

  /** `Partial<RiskThresholds>`: an absent key is None. */
  datatype PartialThresholds = PartialThresholds(medium: Option<int>, high: Option<int>)

  /** `PartialRiskScoringConfig` */
  datatype PartialConfig = PartialConfig(thresholds: Option<PartialThresholds>, ruleConfigs: Option<map<string, RuleConfig>>)

  const DefaultThresholds := Thresholds(30, 60)

  /** A rule's own defaults as a configuration entry. */
  function DefaultEntry(rule: Rule): RuleConfig {
    RuleConfig(rule.defaultScore, rule.defaultEnabled)
  }

  /** The entry is the last one in `rules` with its id. */
  ghost predicate LastWithId(rules: seq<Rule>, i: int) {
    0 <= i < |rules| && forall j :: i < j < |rules| ==> rules[j].id != rules[i].id
  }

  /** The `rule_configs` that the loop of getDefaultConfig fills in, rule by rule. */
  function DefaultRuleConfigs(rules: seq<Rule>): map<string, RuleConfig> {
    if rules == [] then map[]
    else DefaultRuleConfigs(rules[..|rules| - 1])[rules[|rules| - 1].id := DefaultEntry(rules[|rules| - 1])]
  }

  /** One entry per rule id. */
  lemma {:induction false} DefaultRuleConfigsKeys(rules: seq<Rule>)
    ensures forall id :: id in DefaultRuleConfigs(rules) <==> id in Ids(rules)
  {
    if rules != [] {
      var n := |rules| - 1;
      DefaultRuleConfigsKeys(rules[..n]);
      assert Ids(rules) == Ids(rules[..n]) + [rules[n].id];
    }
  }

  /** Each entry holds the defaults of the last rule with that id (of the only one, in a registry). */
  lemma {:induction false} DefaultRuleConfigsSpec(rules: seq<Rule>)
    ensures forall id :: id in DefaultRuleConfigs(rules) <==> id in Ids(rules)
    ensures forall i :: LastWithId(rules, i) ==> DefaultRuleConfigs(rules)[rules[i].id] == DefaultEntry(rules[i])
  {
    DefaultRuleConfigsKeys(rules);
    if rules != [] {
      var n := |rules| - 1;
      DefaultRuleConfigsSpec(rules[..n]);
      forall i | LastWithId(rules, i)
        ensures DefaultRuleConfigs(rules)[rules[i].id] == DefaultEntry(rules[i])
      {
        if i < n {
          assert LastWithId(rules[..n], i);
          assert rules[..n][i] == rules[i];
        }
      }
    }
  }

  /** A configuration built from scratch for the given rules. */
  function FreshConfig(rules: seq<Rule>): (c: Config)
    ensures c.thresholds == DefaultThresholds
  {
    Config(DefaultThresholds, DefaultRuleConfigs(rules))
  }

  /** Lines 38-67 of getDefaultConfig: the for loop over the registered rules. */
  method BuildDefaults(rules: seq<Rule>) returns (cfg: Config)
    ensures cfg == FreshConfig(rules)
  {
    var ruleConfigs: map<string, RuleConfig> := map[];
    for i := 0 to |rules|
      invariant ruleConfigs == DefaultRuleConfigs(rules[..i])
    {
      assert rules[..i + 1][..i] == rules[..i];
      ruleConfigs := ruleConfigs[rules[i].id := DefaultEntry(rules[i])];
    }
    assert rules[..|rules|] == rules;
    cfg := Config(Thresholds(30, 60), ruleConfigs);
  }

  /** `{...base, ...(partial || {})}` for the thresholds. */
  function MergeThresholds(base: Thresholds, partial: Option<PartialThresholds>): (t: Thresholds)
    ensures partial.None? ==> t == base
    ensures t.medium == if partial.Some? && partial.value.medium.Some? then partial.value.medium.value else base.medium
    ensures t.high == if partial.Some? && partial.value.high.Some? then partial.value.high.value else base.high
  {
    match partial
    case None => base
    case Some(p) =>
      Thresholds(
        if p.medium.Some? then p.medium.value else base.medium,
        if p.high.Some? then p.high.value else base.high)
  }

  /**
   * The new configuration of `updateConfig`: a key-by-key overlay. A supplied
   * rule entry replaces the old one whole; nothing is removed; no relation
   * between the thresholds is checked.
   */
  function Merge(base: Config, partial: PartialConfig): (c: Config)
    ensures c.thresholds == MergeThresholds(base.thresholds, partial.thresholds)
    ensures partial.ruleConfigs.None? ==> c.ruleConfigs == base.ruleConfigs
    ensures partial.ruleConfigs.Some? ==> c.ruleConfigs.Keys == base.ruleConfigs.Keys + partial.ruleConfigs.value.Keys
    ensures forall id :: id in c.ruleConfigs ==>
      c.ruleConfigs[id] == if partial.ruleConfigs.Some? && id in partial.ruleConfigs.value
                           then partial.ruleConfigs.value[id] else base.ruleConfigs[id]
  {
    Config(
      MergeThresholds(base.thresholds, partial.thresholds),
      if partial.ruleConfigs.Some? then base.ruleConfigs + partial.ruleConfigs.value else base.ruleConfigs)
  }

  /** Updating only one side leaves the other exactly as it was. */
  lemma MergeSeparatesParts(base: Config, t: PartialThresholds, rc: map<string, RuleConfig>)
    ensures Merge(base, PartialConfig(Some(t), None)).ruleConfigs == base.ruleConfigs
    ensures Merge(base, PartialConfig(None, Some(rc))).thresholds == base.thresholds
    ensures Merge(base, PartialConfig(None, None)) == base
  {
  }

  /** A medium-only threshold update keeps the high threshold, and conversely. */
  lemma MergePartialThresholds(base: Config, m: int, h: int)
    ensures Merge(base, PartialConfig(Some(PartialThresholds(Some(m), None)), None)).thresholds == Thresholds(m, base.thresholds.high)
    ensures Merge(base, PartialConfig(Some(PartialThresholds(None, Some(h))), None)).thresholds == Thresholds(base.thresholds.medium, h)
  {
  }

  /** Updating one rule's entry replaces it and leaves every other entry as it was. */
  lemma MergeOneRule(base: Config, id: string, entry: RuleConfig)
    ensures var c := Merge(base, PartialConfig(None, Some(map[id := entry])));
      && c.ruleConfigs[id] == entry
      && c.ruleConfigs.Keys == base.ruleConfigs.Keys + {id}
      && forall other :: other in base.ruleConfigs && other != id ==> c.ruleConfigs[other] == base.ruleConfigs[other]
  {
  }

  /** Passing a full configuration back in, as the test set-up does, changes nothing. */
  lemma MergeWithItself(base: Config)
    ensures Merge(base, PartialConfig(Some(PartialThresholds(Some(base.thresholds.medium), Some(base.thresholds.high))),
                                      Some(base.ruleConfigs))) == base
  {
  }

  /** The configuration `currentConfig` would yield: the cached one, or fresh defaults. */
  function Snapshot(current: Option<Config>, rules: seq<Rule>): Config {
    if current.Some? then current.value else FreshConfig(rules)
  }

  /** The module variable `currentConfig` and the functions that read and write it. */
  class ConfigStore {
    var current: Option<Config>

    constructor ()
      ensures current == None
    {
      current := None;
    }

    /** `getDefaultConfig()`: the cached configuration, else fresh defaults that are then cached. */
    method DefaultConfig(reg: Registry) returns (cfg: Config)
      requires reg.Valid()
      modifies this
      ensures cfg == Snapshot(old(current), reg.All())
      ensures current == Some(cfg)
    {
      if current.Some? {
        return current.value;
      }
      cfg := BuildDefaults(reg.All());
      current := Some(cfg);
    }

    /** `getCurrentConfig()` */
    method CurrentConfig(reg: Registry) returns (cfg: Config)
      requires reg.Valid()
      modifies this
      ensures cfg == Snapshot(old(current), reg.All())
      ensures current == Some(cfg)
    {
      if current.None? {
        var built := DefaultConfig(reg);
        current := Some(built);
      }
      cfg := current.value;
    }

    /** `updateConfig(partial)` */
    method Update(reg: Registry, partial: PartialConfig)
      requires reg.Valid()
      modifies this
      ensures current == Some(Merge(Snapshot(old(current), reg.All()), partial))
    {
      var base := CurrentConfig(reg);
      current := Some(Merge(base, partial));
    }

    /** `resetConfig()` */
    method Reset()
      modifies this
      ensures current == None
    {
      current := None;
    }
  }
}
