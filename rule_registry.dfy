/** The rule record and the rule registry of scoring/ruleRegistry.ts. */
module RuleRegistry {
  import opened Wrappers
  import opened Reservations

  datatype Category = Identity | Contact | Reputation

  /** `RiskRule`: a named, weighted predicate over the normalised guest. */
  datatype Rule = Rule(
    id: string,
    name: string,
    defaultScore: int,
    defaultEnabled: bool,
    rationale: string,
    applies: Guest -> bool,
    category: Option<Category>)

  datatype RegistryError = AlreadyRegistered(id: string)

  /** The identifiers of `rules`, in order. */
  function Ids(rules: seq<Rule>): (ids: seq<string>)
    ensures |ids| == |rules|
    ensures forall i :: 0 <= i < |rules| ==> ids[i] == rules[i].id
  {
    seq(|rules|, i requires 0 <= i < |rules| => rules[i].id)
  }

  ghost predicate Distinct<T>(s: seq<T>) {
    forall i, j :: 0 <= i < j < |s| ==> s[i] != s[j]
  }

  /** `a` is `b` with some elements left out, the rest in their order. */
  ghost predicate IsSubsequence<T>(a: seq<T>, b: seq<T>)
    decreases |b|
  {
    if a == [] then true
    else if b == [] then false
    else if a[0] == b[0] then IsSubsequence(a[1..], b[1..])
    else IsSubsequence(a, b[1..])
  }

  /** `rules.filter((rule) => rule.category === category)` */
  function FilterCategory(rules: seq<Rule>, category: Category): (r: seq<Rule>)
    ensures |r| <= |rules|
    ensures forall x :: x in r ==> x in rules && x.category == Some(category)
    ensures forall i :: 0 <= i < |rules| && rules[i].category == Some(category) ==> rules[i] in r
  {
    if rules == [] then []
    else
      var rest := FilterCategory(rules[1..], category);
      if rules[0].category == Some(category) then [rules[0]] + rest else rest
  }

  /** The filtered list keeps the registry's order. */
  lemma {:induction false} FilterCategoryIsSubsequence(rules: seq<Rule>, category: Category)
    ensures IsSubsequence(FilterCategory(rules, category), rules)
  {
    if rules != [] {
      FilterCategoryIsSubsequence(rules[1..], category);
      var rest := FilterCategory(rules[1..], category);
      if rules[0].category != Some(category) {
        SubsequenceOfTail(rest, rules);
      }
    }
  }

  /** A subsequence of the tail is a subsequence of the whole. */
  lemma {:induction false} SubsequenceOfTail<T>(a: seq<T>, b: seq<T>)
    requires b != [] && IsSubsequence(a, b[1..])
    ensures IsSubsequence(a, b)
    decreases |a| + |b|
  {
    if a != [] && a[0] == b[0] {
      SubsequenceDropHead(a, b[1..]);
    }
  }

  /** Dropping the first element of a subsequence keeps it a subsequence. */
  lemma {:induction false} SubsequenceDropHead<T>(a: seq<T>, b: seq<T>)
    requires a != [] && IsSubsequence(a, b)
    ensures IsSubsequence(a[1..], b)
    decreases |a| + |b|
  {
    if a[0] == b[0] {
      SubsequenceOfTail(a[1..], b);
    } else {
      SubsequenceDropHead(a, b[1..]);
      SubsequenceOfTail(a[1..], b);
    }
  }

  /**
   * `RuleRegistry`: a JavaScript `Map` from rule id to rule. `order` holds the
   * keys in insertion order, the order in which the map enumerates its values.
   */
  class Registry {
    var order: seq<string>
    var rules: map<string, Rule>

    ghost predicate Valid()
      reads this
    {
      && Distinct(order)
      && (forall i :: 0 <= i < |order| ==> order[i] in rules)
      && (forall id :: id in rules ==> id in order)
      && (forall id :: id in rules ==> rules[id].id == id)
    }

    constructor ()
      ensures Valid() && order == [] && rules == map[]
    {
      order := [];
      rules := map[];
    }

    /** `getRule(id)`: the rule, or none; a missing id is not an error. */
    function Get(id: string): (r: Option<Rule>)
      reads this
      ensures r.Some? <==> id in rules
      ensures r.Some? ==> r.value == rules[id]
    {
      if id in rules then Some(rules[id]) else None
    }

    /** `getAllRules()`: every registered rule once, in registration order. */
    function All(): (rs: seq<Rule>)
      reads this
      requires Valid()
      ensures |rs| == |order| && Ids(rs) == order
      ensures forall i :: 0 <= i < |rs| ==> rs[i] == rules[order[i]]
    {
      seq(|order|, i requires 0 <= i < |order| && order[i] in rules reads this => rules[order[i]])
    }

    /** `getRulesByCategory(category)` */
    function ByCategory(category: Category): (rs: seq<Rule>)
      reads this
      requires Valid()
      ensures forall x :: x in rs ==> x in All() && x.category == Some(category)
      ensures forall x :: x in All() && x.category == Some(category) ==> x in rs
    {
      FilterCategory(All(), category)
    }

    /**
     * `registerRule(rule)`: a rule whose id is already present is refused (the
     * source throws) and nothing changes; otherwise it is appended.
     */
    method Register(rule: Rule) returns (res: Outcome<RegistryError>)
      requires Valid()
      modifies this
      ensures Valid()
      ensures res.Fail? <==> rule.id in old(rules)
      ensures res.Fail? ==> res.error == AlreadyRegistered(rule.id) && rules == old(rules) && order == old(order)
      ensures res.Pass? ==> rules == old(rules)[rule.id := rule] && order == old(order) + [rule.id]
      ensures res.Pass? ==> All() == old(All()) + [rule]
    {
      if rule.id in rules {
        return Fail(AlreadyRegistered(rule.id));
      }
      ghost var before := All();
      assert forall i :: 0 <= i < |order| ==> order[i] != rule.id;
      rules := rules[rule.id := rule];
      order := order + [rule.id];
      assert Valid();
      assert forall i :: 0 <= i < |before| ==> All()[i] == before[i];
      assert All() == before + [rule];
      res := Pass;
    }

    /** `clearRules()` and `resetInstance()`: the registry is emptied. */
    method Clear()
      modifies this
      ensures Valid() && order == [] && rules == map[] && All() == []
    {
      order := [];
      rules := map[];
    }
  }

  /** The ids a valid registry enumerates are pairwise distinct. */
  lemma AllIdsDistinct(reg: Registry)
    requires reg.Valid()
    ensures Distinct(Ids(reg.All()))
  {
  }
}
